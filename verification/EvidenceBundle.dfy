/** Read-only evidence bundles rebuilt from the traces of research children. */
module EvidenceBundle {
  import opened PyText
  import opened WebEvidence
  import opened EvidenceItems
  import opened Options

  const MIN_TOKEN_BUDGET := 256
  const MAX_TOKEN_BUDGET := 20_000
  const MAX_CHILD_RUNS := 6
  const MAX_EVIDENCE_REFS := 128

  /** One element of a `citations` list, with absent fields read as "". */
  datatype Citation = Citation(id: string, url: string, excerpt: string, title: string,
                               sourceRevision: string, sourcePath: string, pageRevision: string, truncated: bool)

  /** A tool result's decoded content.  `citations` holds None for an element that is not an
      object, and is empty when the field is not a list. */
  datatype Payload =
    | Malformed
    | Payload(evidenceFound: bool, citations: seq<Option<Citation>>, page: Citation, artifactRef: string, hasOriginalChars: bool)

  datatype Event =
    | SubagentStarted(parent: string, subagentType: string)
    | SubagentTerminal(parent: string, status: string, refs: seq<Option<string>>)
    | ToolResult(tool: string, isError: bool, payload: Payload)
    | OtherEvent

  type Trace = seq<Event>

  datatype Bundle = Bundle(found: bool, items: seq<Item>, requested: seq<string>, missing: seq<string>,
                           duplicates: nat, budget: int, used: nat, omitted: nat)

  datatype Reply = PermissionDenied | BudgetOutOfRange | Read(bundle: Bundle)

  function Elements(s: seq<string>): set<string> { set x | x in s }

  function Take(s: string, n: nat): string { if |s| <= n then s else s[..n] }

  // ---------------------------------------------------------------------------
  // `_bounded_unique`: strip, drop blanks and non-strings, keep first occurrences, bound.

  /** The stripped, non-blank strings among the values. */
  function Cleaned(values: seq<Option<string>>): seq<string> {
    if values == [] then []
    else
      var last := values[|values| - 1];
      Cleaned(values[..|values| - 1]) + (if last.None? || Strip(last.value) == "" then [] else [Strip(last.value)])
  }

  /** `dict.fromkeys`: first occurrences, in order. */
  function FirstOccurrences(xs: seq<string>): seq<string> {
    if xs == [] then []
    else
      var r := FirstOccurrences(xs[..|xs| - 1]);
      if xs[|xs| - 1] in r then r else r + [xs[|xs| - 1]]
  }

  function BoundedUnique(values: seq<Option<string>>, limit: nat): (r: seq<string>)
    ensures |r| <= limit
  {
    var u := FirstOccurrences(Cleaned(values));
    if |u| <= limit then u else u[..limit]
  }

  /** Value i, stripped, is the reference x. */
  predicate Gives(values: seq<Option<string>>, i: int, x: string) {
    0 <= i < |values| && values[i].Some? && Strip(values[i].value) == x && x != ""
  }

  /** Value i is the first one that gives x. */
  ghost predicate IsFirst(values: seq<Option<string>>, i: int, x: string) {
    Gives(values, i, x) && forall k :: 0 <= k < i ==> !Gives(values, k, x)
  }

  ghost predicate IsGiven(values: seq<Option<string>>, x: string) {
    exists i :: IsFirst(values, i, x)
  }

  ghost predicate InOrder(values: seq<Option<string>>, r: seq<string>) {
    && (forall a, b :: 0 <= a < b < |r| ==> r[a] != r[b])
    && (forall a :: 0 <= a < |r| ==> IsGiven(values, r[a]))
    && (forall a, b, i, j :: 0 <= a < b < |r| && IsFirst(values, i, r[a]) && IsFirst(values, j, r[b]) ==> i < j)
  }

  lemma FirstSnoc(values: seq<Option<string>>, i: int, x: string)
    requires values != []
    ensures i < |values| - 1 ==> (IsFirst(values, i, x) <==> IsFirst(values[..|values| - 1], i, x))
  {
    var front := values[..|values| - 1];
    assert forall k :: 0 <= k < |front| ==> (Gives(front, k, x) <==> Gives(values, k, x));
  }

  /** What the last value adds to the references. */
  lemma NextUnique(values: seq<Option<string>>)
    requires values != []
    ensures var n := |values| - 1;
      var before, r, last := FirstOccurrences(Cleaned(values[..n])), FirstOccurrences(Cleaned(values)), values[n];
      if last.None? || Strip(last.value) == "" || Strip(last.value) in before then r == before else r == before + [Strip(last.value)]
  {
    var n := |values| - 1;
    var all, last := Cleaned(values), values[n];
    if last.None? || Strip(last.value) == "" {
      assert all == Cleaned(values[..n]);
    } else {
      assert all[..|all| - 1] == Cleaned(values[..n]) && all[|all| - 1] == Strip(last.value);
    }
  }

  lemma AllGiven(values: seq<Option<string>>, front: seq<Option<string>>, before: seq<string>, r: seq<string>)
    requires values != [] && front == values[..|values| - 1] && forall i, x :: Gives(front, i, x) ==> x in before
    requires var last := values[|values| - 1];
      if last.None? || Strip(last.value) == "" || Strip(last.value) in before then r == before else r == before + [Strip(last.value)]
    ensures forall i, x :: Gives(values, i, x) ==> x in r
  {
    forall i, x | Gives(values, i, x) ensures x in r {
      if i < |values| - 1 { assert Gives(front, i, x); }
    }
  }

  /** Without the bound: every reference given is there once, in the order of first occurrences. */
  lemma {:induction false} UniqueIs(values: seq<Option<string>>)
    ensures InOrder(values, FirstOccurrences(Cleaned(values)))
    ensures forall i, x :: Gives(values, i, x) ==> x in FirstOccurrences(Cleaned(values))
    decreases |values|
  {
    if values != [] {
      var front, before, r := values[..|values| - 1], FirstOccurrences(Cleaned(values[..|values| - 1])), FirstOccurrences(Cleaned(values));
      UniqueIs(front);
      NextUnique(values);
      AllGiven(values, front, before, r);
      UniqueSnoc(values, front, before, r);
    }
  }

  lemma UniqueSnoc(values: seq<Option<string>>, front: seq<Option<string>>, before: seq<string>, r: seq<string>)
    requires values != [] && front == values[..|values| - 1] && InOrder(front, before)
    requires forall i, x :: Gives(front, i, x) ==> x in before
    requires r == before || (|r| == |before| + 1 && before <= r && r[|before|] !in before && Gives(values, |front|, r[|before|]))
    ensures InOrder(values, r)
  {
    var n := |front|;
    forall i, x | IsFirst(front, i, x) ensures IsFirst(values, i, x) { FirstSnoc(values, i, x); }
    forall i, x | IsFirst(values, i, x) && i < n ensures IsFirst(front, i, x) { FirstSnoc(values, i, x); }
    forall a | 0 <= a < |r| ensures IsGiven(values, r[a]) {
      if a < |before| {
        assert IsGiven(front, before[a]);
      } else {
        forall k | 0 <= k < n ensures !Gives(values, k, r[a]) {
          if Gives(values, k, r[a]) { assert Gives(front, k, r[a]); }
        }
        assert IsFirst(values, n, r[a]);
      }
    }
    forall a, b, i, j | 0 <= a < b < |r| && IsFirst(values, i, r[a]) && IsFirst(values, j, r[b]) ensures i < j {
      assert IsGiven(front, before[a]);
      var k :| IsFirst(front, k, before[a]);
      assert IsFirst(values, k, r[a]) && i == k;
      if j < n { assert IsFirst(front, j, r[b]) && Gives(front, j, r[b]); }
    }
  }

  /** Bounded references are the given ones, unpadded, non-blank and pairwise distinct, in the order of their first
      occurrences; one that is given and left out comes later than all of them, and only when the bound is reached. */
  lemma BoundedUniqueIs(values: seq<Option<string>>, limit: nat)
    ensures InOrder(values, BoundedUnique(values, limit))
    ensures forall i, x :: IsFirst(values, i, x) && x !in BoundedUnique(values, limit) ==>
      |BoundedUnique(values, limit)| == limit && LaterThanAll(values, BoundedUnique(values, limit), i)
    ensures forall x :: x in BoundedUnique(values, limit) ==> x != "" && Strip(x) == x
  {
    UniqueIs(values);
    var u, r := FirstOccurrences(Cleaned(values)), BoundedUnique(values, limit);
    assert r <= u;
    forall a | 0 <= a < |r| ensures IsGiven(values, r[a]) { assert IsGiven(values, u[a]); }
    forall i, x | IsFirst(values, i, x) && x !in r ensures |r| == limit && LaterThanAll(values, r, i) {
      assert x in u;
      var b :| 0 <= b < |u| && u[b] == x;
      assert |r| <= b;
    }
    forall x | x in r ensures x != "" && Strip(x) == x {
      var a :| 0 <= a < |r| && r[a] == x;
      assert IsGiven(values, r[a]);
      var i :| IsFirst(values, i, r[a]);
      StripIsClean(values[i].value);
    }
  }

  ghost predicate LaterThanAll(values: seq<Option<string>>, r: seq<string>, i: int) {
    forall a, k :: 0 <= a < |r| && IsFirst(values, k, r[a]) ==> k < i
  }

  // ---------------------------------------------------------------------------
  // `_authorized_refs`

  predicate Started(events: Trace, parent: string) {
    exists i :: 0 <= i < |events| && events[i] == SubagentStarted(parent, "research")
  }

  function LastTerminal(events: Trace): (r: Option<Event>)
    ensures r.Some? ==> r.value.SubagentTerminal?
  {
    if events == [] then None
    else if events[|events| - 1].SubagentTerminal? then Some(events[|events| - 1])
    else LastTerminal(events[..|events| - 1])
  }

  function AuthorizedRefs(events: Trace, parent: string): set<string> {
    var last := LastTerminal(events);
    if !Started(events, parent) || last.None? then {}
    else if last.value.parent != parent || last.value.status != "succeeded" then {}
    else Elements(BoundedUnique(last.value.refs, 128))
  }

  predicate Lists(e: Event, parent: string, ref: string) {
    e.SubagentTerminal? && e.parent == parent && e.status == "succeeded" && ref in BoundedUnique(e.refs, 128)
  }

  /** The declared rule: a research child of this parent, whose last terminal receipt is a
      success for this parent and lists the reference. */
  ghost predicate Authorizes(events: Trace, parent: string, ref: string) {
    Started(events, parent) && exists i :: IsLastTerminal(events, i) && Lists(events[i], parent, ref)
  }

  /** Event i is the trace's last terminal receipt. */
  ghost predicate IsLastTerminal(events: Trace, i: int) {
    0 <= i < |events| && events[i].SubagentTerminal? && forall j :: i < j < |events| ==> !events[j].SubagentTerminal?
  }

  lemma {:induction false} LastTerminalFound(events: Trace) returns (i: int)
    ensures LastTerminal(events).Some? ==> IsLastTerminal(events, i) && events[i] == LastTerminal(events).value
    decreases |events|
  {
    i := |events| - 1;
    if events != [] && !events[|events| - 1].SubagentTerminal? {
      i := LastTerminalFound(events[..|events| - 1]);
    }
  }

  lemma {:induction false} LastTerminalIs(events: Trace, i: int)
    requires IsLastTerminal(events, i)
    ensures LastTerminal(events) == Some(events[i])
    decreases |events|
  {
    if i < |events| - 1 { LastTerminalIs(events[..|events| - 1], i); }
  }

  lemma AuthorizedRefsAreDeclared(events: Trace, parent: string, ref: string)
    ensures ref in AuthorizedRefs(events, parent) <==> Authorizes(events, parent, ref)
  {
    var i := LastTerminalFound(events);
    if ref in AuthorizedRefs(events, parent) {
      assert IsLastTerminal(events, i) && Lists(events[i], parent, ref);
    }
    if Authorizes(events, parent, ref) {
      var k :| IsLastTerminal(events, k) && Lists(events[k], parent, ref);
      LastTerminalIs(events, k);
    }
  }

  // ---------------------------------------------------------------------------
  // Candidates.  `digest` is the hash behind `_source_ref`.

  /** The items of one tool result and the authorized references it resolves. */
  datatype Found = Found(items: seq<Item>, aliases: set<string>)

  function Plus(a: Found, b: Found): Found { Found(a.items + b.items, a.aliases + b.aliases) }

  function CitationItem(kind: Kind, c: Citation, digest: seq<string> -> string): (item: Item)
    requires !kind.WebFetch?
    ensures item.ref == Strip(c.id) && item.kind == kind
  {
    var content := Strip(c.excerpt);
    var url := Take(c.url, 2_000);
    if kind.Knowledge? then
      Item(Strip(c.id), Knowledge, content, Take(c.title, 300),
           digest(["knowledge", Take(c.sourceRevision, 160), Take(c.sourcePath, 500), Take(c.pageRevision, 160)]),
           "", EstimatedTokens([content]), c.truncated)
    else
      Item(Strip(c.id), WebSearch, content, Take(c.title, 300), digest(["web", url]), url, EstimatedTokens([url, content]), false)
  }

  /** `_knowledge_items` and `_web_search_items`. */
  function CitationItems(kind: Kind, citations: seq<Option<Citation>>, authorized: set<string>, digest: seq<string> -> string): Found
    requires !kind.WebFetch?
  {
    if citations == [] then Found([], {})
    else
      var before := CitationItems(kind, citations[..|citations| - 1], authorized, digest);
      var last := citations[|citations| - 1];
      if last.None? || Strip(last.value.id) !in authorized then before
      else Plus(before, Found([CitationItem(kind, last.value, digest)], {Strip(last.value.id)}))
  }

  function PageItem(p: Payload, ref: string, digest: seq<string> -> string): (item: Item)
    requires p.Payload?
    ensures item.ref == ref && item.kind.WebFetch?
  {
    var url, content := Take(p.page.url, 2_000), Strip(p.page.excerpt);
    Item(ref, WebFetch, content, Take(p.page.title, 300), digest(["web", url]), url, EstimatedTokens([url, content]),
         p.hasOriginalChars && |content| >= 3 && content[|content| - 3..] == "...")
  }

  /** `_web_fetch_items` */
  function FetchItems(p: Payload, authorized: set<string>, digest: seq<string> -> string): Found
    requires p.Payload?
  {
    var citationRef, artifactRef := Strip(p.page.id), Strip(p.artifactRef);
    var aliases := (if citationRef in authorized then {citationRef} else {}) + (if artifactRef in authorized then {artifactRef} else {});
    if aliases == {} then Found([], {})
    else Found([PageItem(p, if citationRef in aliases then citationRef else artifactRef, digest)], aliases)
  }

  function FromEvent(e: Event, authorized: set<string>, digest: seq<string> -> string): Found {
    if !e.ToolResult? || e.isError || e.payload.Malformed? || !e.payload.evidenceFound then Found([], {})
    else if e.tool == "knowledge_search" then CitationItems(Knowledge, e.payload.citations, authorized, digest)
    else if e.tool == "search_web" then CitationItems(WebSearch, e.payload.citations, authorized, digest)
    else if e.tool == "fetch_web" then FetchItems(e.payload, authorized, digest)
    else Found([], {})
  }

  function FromTrace(events: Trace, authorized: set<string>, digest: seq<string> -> string): Found {
    if events == [] then Found([], {})
    else Plus(FromTrace(events[..|events| - 1], authorized, digest), FromEvent(events[|events| - 1], authorized, digest))
  }

  function FromChild(runs: map<string, Trace>, child: string, parent: string, requested: set<string>, digest: seq<string> -> string): Found {
    if child !in runs then Found([], {})   // FileNotFoundError
    else FromTrace(runs[child], AuthorizedRefs(runs[child], parent) * requested, digest)
  }

  function FromChildren(runs: map<string, Trace>, children: seq<string>, parent: string, requested: set<string>, digest: seq<string> -> string): Found {
    if children == [] then Found([], {})
    else Plus(FromChildren(runs, children[..|children| - 1], parent, requested, digest),
              FromChild(runs, children[|children| - 1], parent, requested, digest))
  }

  function Missing(requested: seq<string>, resolved: set<string>): seq<string> {
    if requested == [] then []
    else Missing(requested[..|requested| - 1], resolved) + (if requested[|requested| - 1] in resolved then [] else [requested[|requested| - 1]])
  }

  // ---------------------------------------------------------------------------
  // The declared rules for what a trace resolves and offers.

  /** A successful result of a tool that says it found evidence. */
  predicate IsEvidence(e: Event) {
    e.ToolResult? && !e.isError && e.payload.Payload? && e.payload.evidenceFound
  }

  predicate IsSearch(tool: string) { tool == "knowledge_search" || tool == "search_web" }

  predicate CitationIs(citations: seq<Option<Citation>>, k: int, ref: string) {
    0 <= k < |citations| && citations[k].Some? && Strip(citations[k].value.id) == ref
  }

  ghost predicate CitedAmong(citations: seq<Option<Citation>>, ref: string) {
    exists k :: CitationIs(citations, k, ref)
  }

  /** The event is an evidence result that cites the reference: in its list of citations, or as its page or artifact. */
  ghost predicate Cites(e: Event, ref: string) {
    && IsEvidence(e)
    && ((IsSearch(e.tool) && CitedAmong(e.payload.citations, ref))
        || (e.tool == "fetch_web" && (ref == Strip(e.payload.page.id) || ref == Strip(e.payload.artifactRef))))
  }

  ghost predicate CitedIn(events: Trace, ref: string) {
    exists i :: 0 <= i < |events| && Cites(events[i], ref)
  }

  /** A reference is resolved by a child whose receipt authorizes it and whose trace cites it. */
  ghost predicate ResolvedBy(runs: map<string, Trace>, child: string, parent: string, ref: string) {
    child in runs && Authorizes(runs[child], parent, ref) && CitedIn(runs[child], ref)
  }

  ghost predicate Resolved(runs: map<string, Trace>, children: seq<string>, parent: string, ref: string) {
    exists c :: c in children && ResolvedBy(runs, c, parent, ref)
  }

  /** Citation k, if it is authorized, is this item. */
  ghost predicate OffersAt(kind: Kind, citations: seq<Option<Citation>>, k: int, authorized: set<string>, digest: seq<string> -> string, item: Item)
    requires !kind.WebFetch?
  {
    && 0 <= k < |citations| && citations[k].Some? && Strip(citations[k].value.id) in authorized
    && item == CitationItem(kind, citations[k].value, digest)
  }

  ghost predicate OfferedAmong(kind: Kind, citations: seq<Option<Citation>>, authorized: set<string>, digest: seq<string> -> string, item: Item)
    requires !kind.WebFetch?
  {
    exists k :: OffersAt(kind, citations, k, authorized, digest, item)
  }

  function SearchKind(tool: string): (kind: Kind)
    ensures !kind.WebFetch?
  {
    if tool == "knowledge_search" then Knowledge else WebSearch
  }

  /** The event is an evidence result and the item is one of its authorized citations, or its authorized page. */
  ghost predicate Offers(e: Event, authorized: set<string>, digest: seq<string> -> string, item: Item) {
    && IsEvidence(e)
    && ((IsSearch(e.tool) && OfferedAmong(SearchKind(e.tool), e.payload.citations, authorized, digest, item))
        || (e.tool == "fetch_web" && item.ref in authorized && item == PageItem(e.payload, item.ref, digest)
            && (item.ref == Strip(e.payload.page.id)
                || (item.ref == Strip(e.payload.artifactRef) && Strip(e.payload.page.id) !in authorized))))
  }

  ghost predicate OfferedIn(events: Trace, authorized: set<string>, digest: seq<string> -> string, item: Item) {
    exists i :: 0 <= i < |events| && Offers(events[i], authorized, digest, item)
  }

  ghost predicate IsCandidate(runs: map<string, Trace>, children: seq<string>, parent: string, requested: set<string>, digest: seq<string> -> string, item: Item) {
    exists c :: c in children && c in runs && OfferedIn(runs[c], AuthorizedRefs(runs[c], parent) * requested, digest, item)
  }

  lemma CitedAmongSnoc(citations: seq<Option<Citation>>, ref: string)
    requires citations != []
    ensures var n := |citations| - 1;
      CitedAmong(citations, ref) <==> CitedAmong(citations[..n], ref) || CitationIs(citations, n, ref)
  {
    var n := |citations| - 1;
    var front := citations[..n];
    if k :| CitationIs(front, k, ref) { assert CitationIs(citations, k, ref); }
    if k :| CitationIs(citations, k, ref) { assert k == n || CitationIs(front, k, ref); }
  }

  lemma OfferedAmongSnoc(kind: Kind, citations: seq<Option<Citation>>, authorized: set<string>, digest: seq<string> -> string, item: Item)
    requires !kind.WebFetch? && citations != []
    ensures var n := |citations| - 1;
      OfferedAmong(kind, citations, authorized, digest, item)
      <==> OfferedAmong(kind, citations[..n], authorized, digest, item) || OffersAt(kind, citations, n, authorized, digest, item)
  {
    var n := |citations| - 1;
    var front := citations[..n];
    if k :| OffersAt(kind, front, k, authorized, digest, item) { assert OffersAt(kind, citations, k, authorized, digest, item); }
    if k :| OffersAt(kind, citations, k, authorized, digest, item) { assert k == n || OffersAt(kind, front, k, authorized, digest, item); }
  }

  lemma {:induction false} CitationItemsAre(kind: Kind, citations: seq<Option<Citation>>, authorized: set<string>, digest: seq<string> -> string, ref: string, item: Item)
    requires !kind.WebFetch?
    ensures var f := CitationItems(kind, citations, authorized, digest);
      && (ref in f.aliases <==> ref in authorized && CitedAmong(citations, ref))
      && (item in f.items <==> OfferedAmong(kind, citations, authorized, digest, item))
    decreases |citations|
  {
    if citations != [] {
      CitationItemsAre(kind, citations[..|citations| - 1], authorized, digest, ref, item);
      CitedAmongSnoc(citations, ref);
      OfferedAmongSnoc(kind, citations, authorized, digest, item);
    }
  }

  lemma CitedInSnoc(events: Trace, ref: string)
    requires events != []
    ensures var n := |events| - 1; CitedIn(events, ref) <==> CitedIn(events[..n], ref) || Cites(events[n], ref)
  {
    var n := |events| - 1;
    var front := events[..n];
    if i :| 0 <= i < n && Cites(front[i], ref) { assert Cites(events[i], ref); }
    if i :| 0 <= i < |events| && Cites(events[i], ref) { assert i == n || Cites(front[i], ref); }
  }

  lemma OfferedInSnoc(events: Trace, authorized: set<string>, digest: seq<string> -> string, item: Item)
    requires events != []
    ensures var n := |events| - 1;
      OfferedIn(events, authorized, digest, item) <==> OfferedIn(events[..n], authorized, digest, item) || Offers(events[n], authorized, digest, item)
  {
    var n := |events| - 1;
    var front := events[..n];
    if i :| 0 <= i < n && Offers(front[i], authorized, digest, item) { assert Offers(events[i], authorized, digest, item); }
    if i :| 0 <= i < |events| && Offers(events[i], authorized, digest, item) { assert i == n || Offers(front[i], authorized, digest, item); }
  }

  lemma FetchItemsAre(e: Event, authorized: set<string>, digest: seq<string> -> string, ref: string, item: Item)
    requires IsEvidence(e) && e.tool == "fetch_web"
    ensures var f := FetchItems(e.payload, authorized, digest);
      (ref in f.aliases <==> ref in authorized && Cites(e, ref)) && (item in f.items <==> Offers(e, authorized, digest, item))
  {
  }

  lemma EventItemsAre(e: Event, authorized: set<string>, digest: seq<string> -> string, ref: string, item: Item)
    ensures var f := FromEvent(e, authorized, digest);
      (ref in f.aliases <==> ref in authorized && Cites(e, ref)) && (item in f.items <==> Offers(e, authorized, digest, item))
  {
    if IsEvidence(e) {
      if IsSearch(e.tool) {
        CitationItemsAre(SearchKind(e.tool), e.payload.citations, authorized, digest, ref, item);
      } else if e.tool == "fetch_web" {
        FetchItemsAre(e, authorized, digest, ref, item);
      }
    }
  }

  /** A trace resolves exactly the authorized references it cites, and its items are exactly what it offers. */
  lemma {:induction false} TraceItemsAre(events: Trace, authorized: set<string>, digest: seq<string> -> string, ref: string, item: Item)
    ensures var f := FromTrace(events, authorized, digest);
      (ref in f.aliases <==> ref in authorized && CitedIn(events, ref)) && (item in f.items <==> OfferedIn(events, authorized, digest, item))
    decreases |events|
  {
    if events != [] {
      TraceItemsAre(events[..|events| - 1], authorized, digest, ref, item);
      EventItemsAre(events[|events| - 1], authorized, digest, ref, item);
      CitedInSnoc(events, ref);
      OfferedInSnoc(events, authorized, digest, item);
    }
  }

  lemma TraceIsCollected(events: Trace, authorized: set<string>, digest: seq<string> -> string)
    ensures forall ref :: ref in FromTrace(events, authorized, digest).aliases <==> ref in authorized && CitedIn(events, ref)
    ensures forall item :: item in FromTrace(events, authorized, digest).items <==> OfferedIn(events, authorized, digest, item)
  {
    var anyItem := Item("", Knowledge, "", "", "", "", 0, false);
    forall ref ensures ref in FromTrace(events, authorized, digest).aliases <==> ref in authorized && CitedIn(events, ref) {
      TraceItemsAre(events, authorized, digest, ref, anyItem);
    }
    forall item ensures item in FromTrace(events, authorized, digest).items <==> OfferedIn(events, authorized, digest, item) {
      TraceItemsAre(events, authorized, digest, "", item);
    }
  }

  lemma ChildItemsAre(runs: map<string, Trace>, child: string, parent: string, requested: set<string>, digest: seq<string> -> string, ref: string, item: Item)
    ensures var f := FromChild(runs, child, parent, requested, digest);
      && (ref in f.aliases <==> ref in requested && ResolvedBy(runs, child, parent, ref))
      && (item in f.items <==> child in runs && OfferedIn(runs[child], AuthorizedRefs(runs[child], parent) * requested, digest, item))
  {
    if child in runs {
      TraceItemsAre(runs[child], AuthorizedRefs(runs[child], parent) * requested, digest, ref, item);
      AuthorizedRefsAreDeclared(runs[child], parent, ref);
    }
  }

  /** The collected references are exactly the requested ones that some child resolves; the candidates are exactly
      the authorized and requested citations and pages of the children's evidence results. */
  lemma {:induction false} ChildrenItemsAre(runs: map<string, Trace>, children: seq<string>, parent: string, requested: set<string>, digest: seq<string> -> string, ref: string, item: Item)
    ensures var f := FromChildren(runs, children, parent, requested, digest);
      && (ref in f.aliases <==> ref in requested && Resolved(runs, children, parent, ref))
      && (item in f.items <==> IsCandidate(runs, children, parent, requested, digest, item))
    decreases |children|
  {
    if children != [] {
      var n := |children| - 1;
      var front := children[..n];
      ChildrenItemsAre(runs, front, parent, requested, digest, ref, item);
      ChildItemsAre(runs, children[n], parent, requested, digest, ref, item);
      assert forall c :: c in children <==> c in front || c == children[n];
    }
  }

  lemma ChildrenAreCollected(runs: map<string, Trace>, children: seq<string>, parent: string, requested: set<string>, digest: seq<string> -> string)
    ensures forall ref :: ref in FromChildren(runs, children, parent, requested, digest).aliases <==> ref in requested && Resolved(runs, children, parent, ref)
    ensures forall item :: item in FromChildren(runs, children, parent, requested, digest).items <==> IsCandidate(runs, children, parent, requested, digest, item)
  {
    var anyItem := Item("", Knowledge, "", "", "", "", 0, false);
    forall ref ensures ref in FromChildren(runs, children, parent, requested, digest).aliases <==> ref in requested && Resolved(runs, children, parent, ref) {
      ChildrenItemsAre(runs, children, parent, requested, digest, ref, anyItem);
    }
    forall item ensures item in FromChildren(runs, children, parent, requested, digest).items <==> IsCandidate(runs, children, parent, requested, digest, item) {
      ChildrenItemsAre(runs, children, parent, requested, digest, "", item);
    }
  }

  /** What is offered is authorized and cited. */
  lemma OfferedIsCited(events: Trace, authorized: set<string>, digest: seq<string> -> string, item: Item)
    requires OfferedIn(events, authorized, digest, item)
    ensures item.ref in authorized && CitedIn(events, item.ref)
  {
    var i :| 0 <= i < |events| && Offers(events[i], authorized, digest, item);
    var e := events[i];
    if IsSearch(e.tool) {
      var k :| OffersAt(SearchKind(e.tool), e.payload.citations, k, authorized, digest, item);
      assert CitationIs(e.payload.citations, k, item.ref);
    }
    assert Cites(e, item.ref);
  }

  lemma CandidateIsResolved(runs: map<string, Trace>, children: seq<string>, parent: string, requested: set<string>, digest: seq<string> -> string, item: Item)
    requires IsCandidate(runs, children, parent, requested, digest, item)
    ensures item.ref in requested && Resolved(runs, children, parent, item.ref)
  {
    var c :| c in children && c in runs && OfferedIn(runs[c], AuthorizedRefs(runs[c], parent) * requested, digest, item);
    OfferedIsCited(runs[c], AuthorizedRefs(runs[c], parent) * requested, digest, item);
    AuthorizedRefsAreDeclared(runs[c], parent, item.ref);
    assert ResolvedBy(runs, c, parent, item.ref);
  }

  // ---------------------------------------------------------------------------
  // How often each item is a candidate.

  /** Place k of the event offers the item: citation k of a search, or place 0 of a fetched page. */
  ghost predicate OffersIn(e: Event, k: int, authorized: set<string>, digest: seq<string> -> string, item: Item) {
    && IsEvidence(e)
    && ((IsSearch(e.tool) && OffersAt(SearchKind(e.tool), e.payload.citations, k, authorized, digest, item))
        || (e.tool == "fetch_web" && k == 0 && Offers(e, authorized, digest, item)))
  }

  function Places(e: Event): nat { if e.ToolResult? && e.payload.Payload? then |e.payload.citations| + 1 else 0 }

  ghost function CitationPlaces(kind: Kind, citations: seq<Option<Citation>>, authorized: set<string>, digest: seq<string> -> string, item: Item): set<int>
    requires !kind.WebFetch?
  {
    set k | 0 <= k < |citations| && OffersAt(kind, citations, k, authorized, digest, item)
  }

  ghost function EventPlaces(e: Event, authorized: set<string>, digest: seq<string> -> string, item: Item): set<int> {
    set k | 0 <= k < Places(e) && OffersIn(e, k, authorized, digest, item)
  }

  /** The places of a trace that offer the item: event and place. */
  ghost function TracePlaces(events: Trace, authorized: set<string>, digest: seq<string> -> string, item: Item): set<(int, int)> {
    set i, k | 0 <= i < |events| && k in EventPlaces(events[i], authorized, digest, item) :: (i, k)
  }

  ghost function ChildPlaces(runs: map<string, Trace>, child: string, parent: string, requested: set<string>, digest: seq<string> -> string, item: Item): set<(int, int)> {
    if child in runs then TracePlaces(runs[child], AuthorizedRefs(runs[child], parent) * requested, digest, item) else {}
  }

  /** The places of all children that offer the item: child, event and place. */
  ghost function AllPlaces(runs: map<string, Trace>, children: seq<string>, parent: string, requested: set<string>, digest: seq<string> -> string, item: Item): set<(int, (int, int))> {
    set c, p | 0 <= c < |children| && p in ChildPlaces(runs, children[c], parent, requested, digest, item) :: (c, p)
  }

  ghost function Paired<T(!new)>(n: int, ks: set<T>): set<(int, T)> { set k | k in ks :: (n, k) }

  lemma {:induction false} PairedSize<T(!new)>(n: int, ks: set<T>)
    ensures |Paired(n, ks)| == |ks|
    decreases |ks|
  {
    if ks != {} {
      var k :| k in ks;
      PairedSize(n, ks - {k});
      assert Paired(n, ks) == Paired(n, ks - {k}) + {(n, k)};
    } else {
      assert Paired(n, ks) == {};
    }
  }

  /** Two families of places that do not meet, the second one at index n. */
  lemma PlacesAdd<T(!new)>(all: set<(int, T)>, before: set<(int, T)>, n: int, ks: set<T>)
    requires all == before + Paired(n, ks) && forall p | p in before :: p.0 < n
    ensures |all| == |before| + |ks|
  {
    PairedSize(n, ks);
    assert before !! Paired(n, ks);
  }

  function Times(items: seq<Item>, item: Item): nat { multiset(items)[item] }

  lemma TimesConcat(a: seq<Item>, b: seq<Item>, item: Item)
    ensures Times(a + b, item) == Times(a, item) + Times(b, item)
  {
  }

  lemma CitationPlacesSnoc(kind: Kind, citations: seq<Option<Citation>>, authorized: set<string>, digest: seq<string> -> string, item: Item)
    requires !kind.WebFetch? && citations != []
    ensures var n := |citations| - 1;
      && n !in CitationPlaces(kind, citations[..n], authorized, digest, item)
      && CitationPlaces(kind, citations, authorized, digest, item)
         == CitationPlaces(kind, citations[..n], authorized, digest, item) + (if OffersAt(kind, citations, n, authorized, digest, item) then {n} else {})
  {
    var n := |citations| - 1;
    var front := citations[..n];
    assert forall k | 0 <= k < n :: OffersAt(kind, front, k, authorized, digest, item) <==> OffersAt(kind, citations, k, authorized, digest, item);
  }

  lemma {:induction false} CitationsCounted(kind: Kind, citations: seq<Option<Citation>>, authorized: set<string>, digest: seq<string> -> string, item: Item)
    requires !kind.WebFetch?
    ensures Times(CitationItems(kind, citations, authorized, digest).items, item) == |CitationPlaces(kind, citations, authorized, digest, item)|
    decreases |citations|
  {
    if citations == [] {
      assert CitationPlaces(kind, citations, authorized, digest, item) == {};
    } else {
      var n := |citations| - 1;
      CitationsCounted(kind, citations[..n], authorized, digest, item);
      CitationPlacesSnoc(kind, citations, authorized, digest, item);
      CitationItemsSnoc(kind, citations, authorized, digest, item);
    }
  }

  lemma CitationItemsSnoc(kind: Kind, citations: seq<Option<Citation>>, authorized: set<string>, digest: seq<string> -> string, item: Item)
    requires !kind.WebFetch? && citations != []
    ensures var n := |citations| - 1;
      Times(CitationItems(kind, citations, authorized, digest).items, item)
      == Times(CitationItems(kind, citations[..n], authorized, digest).items, item) + (if OffersAt(kind, citations, n, authorized, digest, item) then 1 else 0)
  {
    var n := |citations| - 1;
    if citations[n].Some? && Strip(citations[n].value.id) in authorized {
      TimesConcat(CitationItems(kind, citations[..n], authorized, digest).items, [CitationItem(kind, citations[n].value, digest)], item);
    }
  }

  lemma SearchPlacesAre(e: Event, authorized: set<string>, digest: seq<string> -> string, item: Item)
    requires IsEvidence(e) && IsSearch(e.tool)
    ensures EventPlaces(e, authorized, digest, item) == CitationPlaces(SearchKind(e.tool), e.payload.citations, authorized, digest, item)
  {
    var places, cited := EventPlaces(e, authorized, digest, item), CitationPlaces(SearchKind(e.tool), e.payload.citations, authorized, digest, item);
    forall k ensures k in places <==> k in cited {
      assert OffersIn(e, k, authorized, digest, item) <==> OffersAt(SearchKind(e.tool), e.payload.citations, k, authorized, digest, item);
    }
  }

  lemma FetchPlacesAre(e: Event, authorized: set<string>, digest: seq<string> -> string, item: Item)
    requires IsEvidence(e) && e.tool == "fetch_web"
    ensures EventPlaces(e, authorized, digest, item) == if Offers(e, authorized, digest, item) then {0} else {}
  {
    var places := EventPlaces(e, authorized, digest, item);
    forall k ensures k in places <==> k == 0 && Offers(e, authorized, digest, item) {
      assert OffersIn(e, k, authorized, digest, item) <==> k == 0 && Offers(e, authorized, digest, item);
    }
  }

  lemma FetchCounted(e: Event, authorized: set<string>, digest: seq<string> -> string, item: Item)
    requires IsEvidence(e) && e.tool == "fetch_web"
    ensures Times(FetchItems(e.payload, authorized, digest).items, item) == if Offers(e, authorized, digest, item) then 1 else 0
  {
    FetchItemsAre(e, authorized, digest, "", item);
    var items := FetchItems(e.payload, authorized, digest).items;
    assert |items| <= 1;
    if |items| == 1 { assert items == [items[0]]; }
  }

  lemma EventCounted(e: Event, authorized: set<string>, digest: seq<string> -> string, item: Item)
    ensures Times(FromEvent(e, authorized, digest).items, item) == |EventPlaces(e, authorized, digest, item)|
  {
    if IsEvidence(e) && IsSearch(e.tool) {
      SearchPlacesAre(e, authorized, digest, item);
      CitationsCounted(SearchKind(e.tool), e.payload.citations, authorized, digest, item);
    } else if IsEvidence(e) && e.tool == "fetch_web" {
      FetchPlacesAre(e, authorized, digest, item);
      FetchCounted(e, authorized, digest, item);
    } else {
      assert forall k :: !OffersIn(e, k, authorized, digest, item);
      assert EventPlaces(e, authorized, digest, item) == {};
    }
  }

  lemma TracePlacesSnoc(events: Trace, authorized: set<string>, digest: seq<string> -> string, item: Item)
    requires events != []
    ensures var n := |events| - 1;
      TracePlaces(events, authorized, digest, item)
      == TracePlaces(events[..n], authorized, digest, item) + Paired(n, EventPlaces(events[n], authorized, digest, item))
  {
    var n := |events| - 1;
    var front := events[..n];
    assert forall i | 0 <= i < n :: front[i] == events[i];
  }

  lemma {:induction false} TraceCounted(events: Trace, authorized: set<string>, digest: seq<string> -> string, item: Item)
    ensures Times(FromTrace(events, authorized, digest).items, item) == |TracePlaces(events, authorized, digest, item)|
    decreases |events|
  {
    if events == [] {
      assert TracePlaces(events, authorized, digest, item) == {};
    } else {
      var n := |events| - 1;
      TraceCounted(events[..n], authorized, digest, item);
      EventCounted(events[n], authorized, digest, item);
      TimesConcat(FromTrace(events[..n], authorized, digest).items, FromEvent(events[n], authorized, digest).items, item);
      TracePlacesSnoc(events, authorized, digest, item);
      PlacesAdd(TracePlaces(events, authorized, digest, item), TracePlaces(events[..n], authorized, digest, item), n,
                EventPlaces(events[n], authorized, digest, item));
    }
  }

  lemma ChildCounted(runs: map<string, Trace>, child: string, parent: string, requested: set<string>, digest: seq<string> -> string, item: Item)
    ensures Times(FromChild(runs, child, parent, requested, digest).items, item) == |ChildPlaces(runs, child, parent, requested, digest, item)|
  {
    if child in runs { TraceCounted(runs[child], AuthorizedRefs(runs[child], parent) * requested, digest, item); }
  }

  lemma AllPlacesSnoc(runs: map<string, Trace>, children: seq<string>, parent: string, requested: set<string>, digest: seq<string> -> string, item: Item)
    requires children != []
    ensures var n := |children| - 1;
      AllPlaces(runs, children, parent, requested, digest, item)
      == AllPlaces(runs, children[..n], parent, requested, digest, item) + Paired(n, ChildPlaces(runs, children[n], parent, requested, digest, item))
  {
    var n := |children| - 1;
    var front := children[..n];
    assert forall c | 0 <= c < n :: front[c] == children[c];
  }

  /** Every item is a candidate as often as there are places in the children's traces that offer it. */
  lemma {:induction false} CandidatesCounted(runs: map<string, Trace>, children: seq<string>, parent: string, requested: set<string>, digest: seq<string> -> string, item: Item)
    ensures Times(FromChildren(runs, children, parent, requested, digest).items, item) == |AllPlaces(runs, children, parent, requested, digest, item)|
    decreases |children|
  {
    if children == [] {
      assert AllPlaces(runs, children, parent, requested, digest, item) == {};
    } else {
      var n := |children| - 1;
      CandidatesCounted(runs, children[..n], parent, requested, digest, item);
      ChildCounted(runs, children[n], parent, requested, digest, item);
      TimesConcat(FromChildren(runs, children[..n], parent, requested, digest).items, FromChild(runs, children[n], parent, requested, digest).items, item);
      AllPlacesSnoc(runs, children, parent, requested, digest, item);
      PlacesAdd(AllPlaces(runs, children, parent, requested, digest, item), AllPlaces(runs, children[..n], parent, requested, digest, item), n,
                ChildPlaces(runs, children[n], parent, requested, digest, item));
    }
  }

  // ---------------------------------------------------------------------------
  // The loops.

  method CollectTrace(events: Trace, authorized: set<string>, digest: seq<string> -> string) returns (items: seq<Item>, aliases: set<string>)
    ensures Found(items, aliases) == FromTrace(events, authorized, digest)
    ensures forall ref :: ref in aliases <==> ref in authorized && CitedIn(events, ref)
    ensures forall item :: item in items <==> OfferedIn(events, authorized, digest, item)
  {
    items, aliases := [], {};
    var i := 0;
    while i < |events|
      invariant 0 <= i <= |events| && Found(items, aliases) == FromTrace(events[..i], authorized, digest)
    {
      assert events[..i + 1][..i] == events[..i];
      var found := FromEvent(events[i], authorized, digest);
      items, aliases := items + found.items, aliases + found.aliases;
      i := i + 1;
    }
    assert events[..i] == events;
    TraceIsCollected(events, authorized, digest);
  }

  lemma {:induction false} NothingAuthorized(events: Trace, digest: seq<string> -> string)
    ensures FromTrace(events, {}, digest) == Found([], {})
    decreases |events|
  {
    if events != [] {
      NothingAuthorized(events[..|events| - 1], digest);
      var e := events[|events| - 1];
      if e.ToolResult? && e.payload.Payload? {
        NoCitations(Knowledge, e.payload.citations, digest);
        NoCitations(WebSearch, e.payload.citations, digest);
      }
    }
  }

  lemma {:induction false} NoCitations(kind: Kind, citations: seq<Option<Citation>>, digest: seq<string> -> string)
    requires !kind.WebFetch?
    ensures CitationItems(kind, citations, {}, digest) == Found([], {})
    decreases |citations|
  {
    if citations != [] { NoCitations(kind, citations[..|citations| - 1], digest); }
  }

  method CollectChildren(runs: map<string, Trace>, children: seq<string>, parent: string, requested: set<string>, digest: seq<string> -> string)
    returns (candidates: seq<Item>, resolved: set<string>)
    ensures Found(candidates, resolved) == FromChildren(runs, children, parent, requested, digest)
  {
    candidates, resolved := [], {};
    var i := 0;
    while i < |children|
      invariant 0 <= i <= |children| && Found(candidates, resolved) == FromChildren(runs, children[..i], parent, requested, digest)
    {
      assert children[..i + 1][..i] == children[..i];
      var child := children[i];
      i := i + 1;
      if child !in runs {
        continue;
      }
      var authorized := AuthorizedRefs(runs[child], parent) * requested;
      if authorized == {} {
        NothingAuthorized(runs[child], digest);
        continue;
      }
      var items, aliases := CollectTrace(runs[child], authorized, digest);
      candidates, resolved := candidates + items, resolved + aliases;
    }
    assert children[..i] == children;
  }

  /** What `_read_sync` promises about its bundle, in terms of the traces alone. */
  ghost predicate Accounted(runs: map<string, Trace>, children: seq<string>, parent: string, requested: seq<string>, budget: int, digest: seq<string> -> string, candidates: seq<Item>, b: Bundle) {
    && b.requested == requested && b.budget == budget
    && (forall item :: item in candidates <==> IsCandidate(runs, children, parent, Elements(requested), digest, item))
    && (forall item :: Times(candidates, item) == |AllPlaces(runs, children, parent, Elements(requested), digest, item)|)
    && (forall i :: 0 <= i < |b.items| ==> b.items[i].ref in requested && Resolved(runs, children, parent, b.items[i].ref))
    && (forall r :: r in b.missing <==> r in requested && !Resolved(runs, children, parent, r))
    && (forall i :: 0 <= i < |b.items| ==> b.items[i].ref !in b.missing)
    && b.items == Selection(Greedy(Sort(candidates)), budget)
    && |b.missing| <= b.omitted
    && |candidates| == |b.items| + b.duplicates + (b.omitted - |b.missing|)
    && b.used == Total(b.items) && b.used <= (if budget < 0 then 0 else budget)
    && (b.found <==> b.items != [])
  }

  method ReadSync(runs: map<string, Trace>, parent: string, children: seq<string>, requested: seq<string>, budget: int, digest: seq<string> -> string)
    returns (b: Bundle)
    ensures b.missing == Missing(requested, FromChildren(runs, children, parent, Elements(requested), digest).aliases)
    ensures Accounted(runs, children, parent, requested, budget, digest, FromChildren(runs, children, parent, Elements(requested), digest).items, b)
  {
    var candidates, resolved := CollectChildren(runs, children, parent, Elements(requested), digest);
    var deduplicated, duplicates := DeduplicateSources(candidates);
    var selected, used, budgetOmitted := FitItems(deduplicated, budget);
    var missing := Missing(requested, resolved);
    b := Bundle(selected != [], selected, requested, missing, duplicates, budget, used, budgetOmitted + |missing|);
    MissingIsUnresolved(requested, resolved);
    ChildrenAreCollected(runs, children, parent, Elements(requested), digest);
    forall item ensures Times(candidates, item) == |AllPlaces(runs, children, parent, Elements(requested), digest, item)| {
      CandidatesCounted(runs, children, parent, Elements(requested), digest, item);
    }
    forall i | 0 <= i < |b.items|
      ensures b.items[i].ref in requested && Resolved(runs, children, parent, b.items[i].ref)
    {
      var candidate := SelectedIsCandidate(candidates, budget, i);
      CandidateIsResolved(runs, children, parent, Elements(requested), digest, candidate);
    }
  }

  // ---------------------------------------------------------------------------

  lemma {:induction false} MissingIsUnresolved(requested: seq<string>, resolved: set<string>)
    ensures forall r :: r in Missing(requested, resolved) <==> r in requested && r !in resolved
    decreases |requested|
  {
    if requested != [] {
      MissingIsUnresolved(requested[..|requested| - 1], resolved);
      assert requested == requested[..|requested| - 1] + [requested[|requested| - 1]];
    }
  }

  /** A selected item keeps the reference of a candidate. */
  lemma SelectedIsCandidate(candidates: seq<Item>, budget: int, i: nat) returns (candidate: Item)
    requires i < |Selection(Greedy(Sort(candidates)), budget)|
    ensures candidate in candidates && Selection(Greedy(Sort(candidates)), budget)[i].ref == candidate.ref
  {
    var kept := Greedy(Sort(candidates));
    DedupIsMaximalByPriority(candidates);
    assert Selection(kept, budget)[i].ref == kept[i].ref;
    assert kept[i] in multiset(kept) && kept[i] in multiset(candidates);
    candidate := kept[i];
  }

  // ---------------------------------------------------------------------------

  /** `CodingEvidenceBundlePort.read`. */
  method ReadBundle(sessionId: string, activeRun: Option<string>, runs: map<string, Trace>, threadId: string, parent: string,
                    childRunIds: seq<Option<string>>, evidenceRefs: seq<Option<string>>, budget: int, digest: seq<string> -> string)
    returns (reply: Reply)
    ensures reply.PermissionDenied? <==> threadId != sessionId || activeRun != Some(parent)
    ensures reply.BudgetOutOfRange? <==> !reply.PermissionDenied? && !(MIN_TOKEN_BUDGET <= budget <= MAX_TOKEN_BUDGET)
    ensures reply.Read? ==>
      (|reply.bundle.missing| <= reply.bundle.omitted
       <==> BoundedUnique(childRunIds, MAX_CHILD_RUNS) != [] || BoundedUnique(evidenceRefs, MAX_EVIDENCE_REFS) == [])
    ensures reply.Read? ==>
      var children, requested := BoundedUnique(childRunIds, MAX_CHILD_RUNS), BoundedUnique(evidenceRefs, MAX_EVIDENCE_REFS);
      if children == [] || requested == [] then reply.bundle == Bundle(false, [], requested, requested, 0, budget, 0, 0)
      else Accounted(runs, children, parent, requested, budget, digest,
                     FromChildren(runs, children, parent, Elements(requested), digest).items, reply.bundle)
  {
    if threadId != sessionId || activeRun != Some(parent) {
      return PermissionDenied;
    }
    if !(MIN_TOKEN_BUDGET <= budget <= MAX_TOKEN_BUDGET) {
      return BudgetOutOfRange;
    }
    var children := BoundedUnique(childRunIds, MAX_CHILD_RUNS);
    var requested := BoundedUnique(evidenceRefs, MAX_EVIDENCE_REFS);
    if children == [] || requested == [] {
      return Read(Bundle(false, [], requested, requested, 0, budget, 0, 0));
    }
    var b := ReadSync(runs, parent, children, requested, budget, digest);
    return Read(b);
  }

  /** A read of reference "a" without any child run: "a" is missing and `omitted` is 0. */
  method MissingIsNotOmitted(runs: map<string, Trace>, digest: seq<string> -> string) returns (reply: Reply)
    ensures reply == Read(Bundle(false, [], ["a"], ["a"], 0, MIN_TOKEN_BUDGET, 0, 0))
  {
    reply := ReadBundle("s", Some("p"), runs, "s", "p", [], [Some("a")], MIN_TOKEN_BUDGET, digest);
  }
}
