/**
 The in-place side of subscriptions: bounded queues that `_broadcast` changes, and the
 cursor loop that closes a gap while the journal keeps growing.
 */
module SubscriptionLoop {
  import opened Subscriptions

  /** `asyncio.Queue` with a maximum size. */
  class EventQueue {
    const capacity: nat
    var items: seq<Event>

    constructor (capacity: nat)
      ensures this.capacity == capacity && items == []
    {
      this.capacity := capacity;
      items := [];
    }

    /** Drop the oldest event if full, then put: never blocks, never overflows. */
    method PutDroppingOldest(e: Event)
      modifies this
      ensures items == Push(old(items), capacity, e)
      ensures 1 <= capacity && |old(items)| <= capacity ==> |items| <= capacity
    {
      if |items| >= capacity && items != [] {
        items := items[1..];
      }
      items := items + [e];
    }
  }

  class BroadcastHub {
    var subscribers: set<EventQueue>
    var lastBroadcastSequence: nat

    constructor ()
      ensures subscribers == {} && lastBroadcastSequence == 0
    {
      subscribers := {};
      lastBroadcastSequence := 0;
    }

    /** A stale event reaches nobody; a newer one reaches every queue exactly once. */
    method Broadcast(stored: Event)
      modifies this`lastBroadcastSequence, subscribers
      ensures lastBroadcastSequence == if stored.sequence > old(lastBroadcastSequence) then stored.sequence else old(lastBroadcastSequence)
      ensures forall q :: q in subscribers ==>
        q.items == if stored.sequence > old(lastBroadcastSequence) then Push(old(q.items), q.capacity, stored) else old(q.items)
    {
      if stored.sequence <= lastBroadcastSequence {
        return;
      }
      lastBroadcastSequence := stored.sequence;
      var todo := subscribers;
      while todo != {}
        invariant todo <= subscribers
        invariant forall q :: q in todo ==> q.items == old(q.items)
        invariant forall q :: q in subscribers - todo ==> q.items == Push(old(q.items), q.capacity, stored)
        invariant lastBroadcastSequence == stored.sequence
      {
        var q :| q in todo;
        q.PutDroppingOldest(stored);
        todo := todo - {q};
      }
    }
  }

  /** The journal shared with other processes. */
  class SharedLog {
    var log: seq<Event>

    ghost predicate Valid()
      reads this
    {
      Numbered(log)
    }

    constructor ()
      ensures Valid() && log == []
    {
      log := [];
    }

    method Append(body: int)
      requires Valid()
      modifies this
      ensures Valid() && log == old(log) + [Event(|old(log)| + 1, body)]
    {
      log := log + [Event(|log| + 1, body)];
    }

    /** What other writers add while a reader is suspended. */
    method Interfere(bodies: seq<int>)
      requires Valid()
      modifies this
      ensures Valid() && |log| == |old(log)| + |bodies| && old(log) <= log
    {
      var i := 0;
      while i < |bodies|
        invariant 0 <= i <= |bodies| && Valid()
        invariant |log| == |old(log)| + i && old(log) <= log
      {
        Append(bodies[i]);
        i := i + 1;
      }
    }
  }

  class Subscription {
    const journal: SharedLog
    const after: nat
    var cursor: nat
    var delivered: seq<Event>

    /** The generator has yielded exactly the journal from `after` to the cursor. */
    ghost predicate Valid()
      reads this, journal
    {
      && journal.Valid()
      && after <= cursor
      && (after < cursor ==> cursor <= |journal.log|)
      && delivered == Slice(journal.log, after, cursor)
    }

    constructor (journal: SharedLog, after: nat)
      requires journal.Valid()
      ensures Valid() && this.journal == journal && this.after == after && cursor == after && delivered == []
    {
      this.journal := journal;
      this.after := after;
      cursor := after;
      delivered := [];
    }

    /** Yield one page.  `gaps[i]` is what other writers add while event i is with the consumer. */
    method YieldPage(items: seq<Event>, bound: nat, gaps: seq<seq<int>>)
      requires Valid() && PageOk(journal.log, cursor, items, bound)
      modifies this, journal
      ensures Valid() && cursor == old(cursor) + |items| && old(journal.log) <= journal.log
    {
      ghost var start := cursor;
      var i := 0;
      while i < |items|
        invariant 0 <= i <= |items| && Valid() && cursor == start + i
        invariant old(journal.log) <= journal.log
      {
        assert items[i] == journal.log[cursor];
        assert journal.log[after..cursor + 1] == journal.log[after..cursor] + [items[i]];
        cursor := items[i].sequence;
        delivered := delivered + [items[i]];
        assert Valid();
        if i < |gaps| {
          ghost var was := journal.log;
          journal.Interfere(gaps[i]);
          assert after < cursor ==> journal.log[after..cursor] == was[after..cursor];
        }
        i := i + 1;
      }
    }

    /** The repair loop: it ends exactly at its target, having yielded every event up to it
        once, whatever other writers add between two reads or two yields. */
    method RepairTo(target: nat, gaps: seq<seq<seq<int>>>)
      requires Valid() && target <= |journal.log|
      modifies this, journal
      ensures Valid() && old(journal.log) <= journal.log
      ensures cursor == if old(cursor) < target then target else old(cursor)
    {
      var round := 0;
      while cursor < target
        invariant Valid() && old(journal.log) <= journal.log
        invariant old(cursor) <= cursor && (cursor <= target || cursor == old(cursor))
        decreases target - cursor
      {
        PageIsJournal(journal.log, cursor, target);
        var items := UpTo(Page(journal.log, cursor), target);
        YieldPage(items, target, if round < |gaps| then gaps[round] else []);
        round := round + 1;
      }
    }
  }
}
