/**
 The durable session journal: an append-only event log, one lease row and the
 counter that hands out fencing tokens.  Every function below is one committed
 SQLite transaction.
 */
module Journal {
  import opened Options

  type RunId = string
  type OwnerId = string

  datatype Status = Completed | Cancelled | Error | Interrupted

  /** `Audit` is a cancellation audit event; it is an ordinary event for the journal. */
  datatype Body = Started | Stream(n: int) | Audit(n: int) | Terminal(status: Status)

  /** `token` is the fencing token the writer presented, 0 for a write without one.
      The event at index i has sequence i + 1. */
  datatype Entry = Entry(run: RunId, body: Body, token: nat)

  datatype Lease = Lease(run: RunId, owner: OwnerId, token: nat)

  datatype Journal = Journal(log: seq<Entry>, lease: Option<Lease>, nextToken: nat)

  /** Outcome of a transaction: rolled back, or committed with a new journal. */
  datatype Commit = Rejected | Committed(journal: Journal)

  const EMPTY := Journal([], None, 1)

  predicate HasTerminal(log: seq<Entry>, run: RunId) {
    exists i :: 0 <= i < |log| && log[i].run == run && log[i].body.Terminal?
  }

  predicate HasHistory(log: seq<Entry>, run: RunId) {
    exists i :: 0 <= i < |log| && log[i].run == run
  }

  predicate Holds(j: Journal, run: RunId, owner: OwnerId, token: nat) {
    j.lease == Some(Lease(run, owner, token))
  }

  /** The lease is currently held under this token, whoever holds it. */
  predicate Live(j: Journal, token: nat) {
    j.lease.Some? && j.lease.value.token == token
  }

  predicate RunLeased(j: Journal, run: RunId) {
    j.lease.Some? && j.lease.value.run == run
  }

  function Insert(j: Journal, e: Entry): Journal {
    j.(log := j.log + [e])
  }

  /** Take the lease with a fresh token. */
  function Acquire(j: Journal, run: RunId, owner: OwnerId): Journal {
    j.(lease := Some(Lease(run, owner, j.nextToken)), nextToken := j.nextToken + 1)
  }

  function BeginRun(j: Journal, run: RunId, owner: OwnerId): Commit {
    if j.lease.Some? || HasTerminal(j.log, run) then Rejected
    else Committed(Insert(Acquire(j, run, owner), Entry(run, Started, j.nextToken)))
  }

  function ResumeRun(j: Journal, run: RunId, owner: OwnerId): Commit {
    if j.lease.Some? || !HasHistory(j.log, run) || HasTerminal(j.log, run) then Rejected
    else Committed(Acquire(j, run, owner))
  }

  /** A fenced append: accepted only under the current lease row. */
  function Append(j: Journal, run: RunId, body: Body, owner: OwnerId, token: nat): Commit
    requires !body.Terminal?
  {
    if Holds(j, run, owner, token) then Committed(Insert(j, Entry(run, body, token))) else Rejected
  }

  /** A fenced terminal append, which releases the lease in the same transaction. */
  function Terminate(j: Journal, run: RunId, status: Status, owner: OwnerId, token: nat): Commit {
    if !Holds(j, run, owner, token) then Rejected
    else if HasTerminal(j.log, run) then Committed(j.(lease := None))
    else Committed(Insert(j, Entry(run, Terminal(status), token)).(lease := None))
  }

  function Release(j: Journal, run: RunId, owner: OwnerId, token: nat): Commit {
    if Holds(j, run, owner, token) then Committed(j.(lease := None)) else Rejected
  }

  /** An append without credentials: refused only while the run is leased. */
  function AppendUnfenced(j: Journal, run: RunId, body: Body): Commit
    requires !body.Terminal?
  {
    if RunLeased(j, run) then Rejected else Committed(Insert(j, Entry(run, body, 0)))
  }

  function TerminateUnfenced(j: Journal, run: RunId, status: Status): Commit {
    if RunLeased(j, run) then Rejected
    else if HasTerminal(j.log, run) then Committed(j)
    else Committed(Insert(j, Entry(run, Terminal(status), 0)))
  }

  /** What the operating system says about the process a lease names. */
  datatype OwnerState = OwnerAlive | OwnerGone | OwnerUnknown

  /** Recovery: a lease whose owner process is alive is left alone, and one whose owner cannot be told raises an
      error.  If the owner is gone, a run with an unresolved approval only loses its lease, and any other run is
      closed as interrupted. */
  function RecoverLease(j: Journal, owner: OwnerState, approvalPending: bool): Commit {
    match j.lease
    case None => Committed(j)
    case Some(l) =>
      if owner.OwnerUnknown? then Rejected
      else if owner.OwnerAlive? then Committed(j)
      else if approvalPending || HasTerminal(j.log, l.run) then Committed(j.(lease := None))
      else Committed(Insert(j, Entry(l.run, Terminal(Interrupted), 0)).(lease := None))
  }

  /** No event of a run follows its terminal event; in particular a run has at most one. */
  ghost predicate TerminalIsLast(log: seq<Entry>) {
    forall i, k :: 0 <= i < k < |log| && log[i].run == log[k].run ==> !log[i].body.Terminal?
  }

  ghost predicate Valid(j: Journal) {
    && 1 <= j.nextToken
    && TerminalIsLast(j.log)
    && (forall i :: 0 <= i < |j.log| ==> j.log[i].token < j.nextToken)
    && (j.lease.Some? ==>
          && 1 <= j.lease.value.token < j.nextToken
          && !HasTerminal(j.log, j.lease.value.run)
          && (forall i :: 0 <= i < |j.log| && j.log[i].token == j.lease.value.token ==> j.log[i].run == j.lease.value.run))
  }

  /** What every transaction does: the log only grows, tokens are never reissued, and
      an entry under a token is written only while that token is live. */
  ghost predicate Evolves(j: Journal, k: Journal) {
    && j.nextToken <= k.nextToken
    && |j.log| <= |k.log| <= |j.log| + 1
    && k.log[..|j.log|] == j.log
    && (k.lease != j.lease ==>
          k.lease == None || (j.lease == None && k.lease.value.token == j.nextToken < k.nextToken))
    && (|k.log| == |j.log| + 1 ==>
          var e := k.log[|j.log|];
          && !HasTerminal(j.log, e.run)
          && (e.token == 0 || Live(j, e.token) || Live(k, e.token))
          && (e.body.Terminal? && e.token != 0 ==> Live(j, e.token) && !Live(k, e.token) && j.lease.value.run == e.run))
  }

  lemma EvolvesTrans(j: Journal, k: Journal, token: nat, run: RunId)
    requires Evolves(j, k)
    ensures HasTerminal(j.log, run) ==> HasTerminal(k.log, run)
    ensures token < j.nextToken && !Live(j, token) ==> !Live(k, token)
    ensures k.lease == j.lease || k.lease == None || k.lease.value.token >= j.nextToken
  {
    if HasTerminal(j.log, run) {
      var i :| 0 <= i < |j.log| && j.log[i].run == run && j.log[i].body.Terminal?;
      assert k.log[i] == j.log[i];
    }
  }

  lemma HasTerminalAfterInsert(log: seq<Entry>, e: Entry, run: RunId)
    ensures HasTerminal(log + [e], run) <==> HasTerminal(log, run) || (e.run == run && e.body.Terminal?)
  {
    var l := log + [e];
    if HasTerminal(log, run) {
      var i :| 0 <= i < |log| && log[i].run == run && log[i].body.Terminal?;
      assert l[i] == log[i];
    }
    if e.run == run && e.body.Terminal? {
      assert l[|log|] == e;
    }
  }

  lemma InsertKeepsFinality(log: seq<Entry>, e: Entry)
    requires TerminalIsLast(log) && !HasTerminal(log, e.run)
    ensures TerminalIsLast(log + [e])
  {
  }

  /** Each transaction that commits keeps the journal valid and evolves it. */
  lemma BeginRunKeeps(j: Journal, run: RunId, owner: OwnerId)
    requires Valid(j) && BeginRun(j, run, owner).Committed?
    ensures var k := BeginRun(j, run, owner).journal;
      Valid(k) && Evolves(j, k) && Holds(k, run, owner, j.nextToken) && !HasTerminal(k.log, run)
  {
    var e := Entry(run, Started, j.nextToken);
    InsertKeepsFinality(j.log, e);
    HasTerminalAfterInsert(j.log, e, run);
  }

  lemma ResumeRunKeeps(j: Journal, run: RunId, owner: OwnerId)
    requires Valid(j) && ResumeRun(j, run, owner).Committed?
    ensures var k := ResumeRun(j, run, owner).journal;
      Valid(k) && Evolves(j, k) && Holds(k, run, owner, j.nextToken) && k.log == j.log
  {
  }

  lemma AppendKeeps(j: Journal, run: RunId, body: Body, owner: OwnerId, token: nat)
    requires Valid(j) && !body.Terminal? && Append(j, run, body, owner, token).Committed?
    ensures var k := Append(j, run, body, owner, token).journal;
      Valid(k) && Evolves(j, k) && k.lease == j.lease
  {
    var e := Entry(run, body, token);
    InsertKeepsFinality(j.log, e);
    HasTerminalAfterInsert(j.log, e, run);
  }

  lemma TerminateKeeps(j: Journal, run: RunId, status: Status, owner: OwnerId, token: nat)
    requires Valid(j) && Terminate(j, run, status, owner, token).Committed?
    ensures var k := Terminate(j, run, status, owner, token).journal;
      Valid(k) && Evolves(j, k) && k.lease == None && k.log == j.log + [Entry(run, Terminal(status), token)]
      && HasTerminal(k.log, run)
  {
    var e := Entry(run, Terminal(status), token);
    InsertKeepsFinality(j.log, e);
    HasTerminalAfterInsert(j.log, e, run);
  }

  lemma TerminateUnfencedKeeps(j: Journal, run: RunId, status: Status)
    requires Valid(j) && TerminateUnfenced(j, run, status).Committed?
    ensures var k := TerminateUnfenced(j, run, status).journal;
      Valid(k) && Evolves(j, k) && k.lease == j.lease && HasTerminal(k.log, run)
  {
    if !HasTerminal(j.log, run) {
      var e := Entry(run, Terminal(status), 0);
      InsertKeepsFinality(j.log, e);
      HasTerminalAfterInsert(j.log, e, run);
      if j.lease.Some? { HasTerminalAfterInsert(j.log, e, j.lease.value.run); }
    }
  }

  lemma AppendUnfencedKeeps(j: Journal, run: RunId, body: Body)
    requires Valid(j) && !body.Terminal? && !HasTerminal(j.log, run) && AppendUnfenced(j, run, body).Committed?
    ensures var k := AppendUnfenced(j, run, body).journal;
      Valid(k) && Evolves(j, k) && k.lease == j.lease
  {
    var e := Entry(run, body, 0);
    InsertKeepsFinality(j.log, e);
    if j.lease.Some? { HasTerminalAfterInsert(j.log, e, j.lease.value.run); }
  }

  lemma RecoverLeaseKeeps(j: Journal, owner: OwnerState, approvalPending: bool)
    requires Valid(j) && RecoverLease(j, owner, approvalPending).Committed?
    ensures var k := RecoverLease(j, owner, approvalPending).journal;
      && Valid(k) && Evolves(j, k)
      && (j.lease.None? || owner.OwnerAlive? ==> k == j)
      && (j.lease.Some? && owner.OwnerGone? ==> k.lease == None && (approvalPending || HasTerminal(k.log, j.lease.value.run)))
  {
    if j.lease.Some? && owner.OwnerGone? {
      var e := Entry(j.lease.value.run, Terminal(Interrupted), 0);
      InsertKeepsFinality(j.log, e);
      HasTerminalAfterInsert(j.log, e, e.run);
    }
  }

  /** The journal alone does not protect a closed run: an append without credentials is
      refused only while the run is leased.  It keeps terminal events last exactly when
      its run has none yet, which is what its only caller (a rejected input, written
      under a new run id before that run's own terminal) arranges. */
  lemma UnfencedAppendKeepsFinalityIff(j: Journal, run: RunId, body: Body)
    requires Valid(j) && !body.Terminal? && !RunLeased(j, run)
    ensures AppendUnfenced(j, run, body).Committed?
    ensures TerminalIsLast(AppendUnfenced(j, run, body).journal.log) <==> !HasTerminal(j.log, run)
  {
    var k := AppendUnfenced(j, run, body).journal;
    if HasTerminal(j.log, run) {
      var i :| 0 <= i < |j.log| && j.log[i].run == run && j.log[i].body.Terminal?;
      assert k.log[i].run == k.log[|j.log|].run && k.log[i].body.Terminal?;
    }
  }

  /** A finished run, and an append without credentials that is stored after its terminal event. */
  lemma UnfencedAppendAfterTerminal()
    ensures var j := Journal([Entry("r", Started, 1), Entry("r", Terminal(Completed), 1)], None, 2);
      && Valid(j)
      && AppendUnfenced(j, "r", Stream(0)).Committed?
      && !TerminalIsLast(AppendUnfenced(j, "r", Stream(0)).journal.log)
  {
    var j := Journal([Entry("r", Started, 1), Entry("r", Terminal(Completed), 1)], None, 2);
    assert j.log[1].run == "r" && j.log[1].body.Terminal?;
    UnfencedAppendKeepsFinalityIff(j, "r", Stream(0));
  }
}
