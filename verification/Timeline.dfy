/**
 One workflow's records merged into a single ordered timeline: by instant, then by each source's own counter,
 then by the kind of record. Every detail is redacted on the way out.
 */
module Timeline {
  import opened Common
  import Redaction
  import Tools

  /** The kinds in the order of their names. */
  datatype Kind = Event | Step | ToolCall

  datatype StepRow = StepRow(sequence: int, node: string, startedAt: int, detail: Redaction.Json)

  datatype ToolCallRow = ToolCallRow(tool: string, startedAt: int, detail: Redaction.Json)

  /** The identifier is the insertion order of the row, once the database has assigned it. */
  datatype EventRow = EventRow(id: Option<nat>, eventType: string, occurredAt: int, detail: Redaction.Json)

  datatype Entry = Entry(kind: Kind, at: int, name: string, tiebreak: int, detail: Redaction.Json)

  function StepEntry(s: StepRow): Entry {
    Entry(Step, s.startedAt, s.node, s.sequence, Redaction.Redacted(s.detail, 0))
  }

  function ToolCallEntry(c: ToolCallRow, index: nat): Entry {
    Entry(ToolCall, c.startedAt, c.tool, index, Redaction.Redacted(c.detail, 0))
  }

  function EventEntry(e: EventRow): Entry {
    Entry(Event, e.occurredAt, e.eventType, if e.id.Some? then e.id.value else 0, Redaction.Redacted(e.detail, 0))
  }

  // ---- The order --------------------------------------------------------------------------------------------

  function Rank(k: Kind): nat {
    match k case Event => 0 case Step => 1 case ToolCall => 2
  }

  /** Strictly earlier in the timeline. */
  predicate Before(a: Entry, b: Entry) {
    || a.at < b.at
    || (a.at == b.at && (a.tiebreak < b.tiebreak || (a.tiebreak == b.tiebreak && Rank(a.kind) < Rank(b.kind))))
  }

  predicate SameKey(a: Entry, b: Entry) {
    a.at == b.at && a.tiebreak == b.tiebreak && a.kind == b.kind
  }

  ghost predicate Ordered(entries: seq<Entry>) {
    forall i, j :: 0 <= i < j < |entries| ==> !Before(entries[j], entries[i])
  }

  function Insert(e: Entry, sorted: seq<Entry>): seq<Entry> {
    if sorted == [] || !Before(sorted[0], e) then [e] + sorted else [sorted[0]] + Insert(e, sorted[1..])
  }

  /** The stable sort of the entries. */
  function Sort(entries: seq<Entry>): seq<Entry> {
    if entries == [] then [] else Insert(entries[0], Sort(entries[1..]))
  }

  lemma {:induction false} InsertSorts(e: Entry, sorted: seq<Entry>)
    requires Ordered(sorted)
    ensures Ordered(Insert(e, sorted)) && multiset(Insert(e, sorted)) == multiset{e} + multiset(sorted)
    ensures forall x :: x in Insert(e, sorted) <==> x == e || x in sorted
  {
    hide Before;
    if sorted != [] && Before(sorted[0], e) {
      assert sorted == [sorted[0]] + sorted[1..];
      InsertSorts(e, sorted[1..]);
      var rest := Insert(e, sorted[1..]);
      forall j | 0 <= j < |rest| ensures !Before(rest[j], sorted[0]) {
        assert rest[j] in rest;
        Asymmetric(sorted[0], e);
      }
    } else if sorted != [] {
      forall j | 0 <= j < |sorted| ensures !Before(sorted[j], e) {
        Transitive(e, sorted[0], sorted[j]);
      }
    }
  }

  lemma Asymmetric(a: Entry, b: Entry)
    ensures Before(a, b) ==> !Before(b, a)
  {
  }

  /** What is not before something not before it is not before it either. */
  lemma Transitive(a: Entry, b: Entry, c: Entry)
    ensures !Before(b, a) && !Before(c, b) ==> !Before(c, a)
    ensures !Before(a, a)
  {
  }

  lemma {:induction false} SortSorts(entries: seq<Entry>)
    ensures Ordered(Sort(entries)) && multiset(Sort(entries)) == multiset(entries)
  {
    if entries != [] {
      SortSorts(entries[1..]);
      InsertSorts(entries[0], Sort(entries[1..]));
      assert entries == [entries[0]] + entries[1..];
    }
  }

  /** Entries with one key keep the order they came in. */
  function WithKey(entries: seq<Entry>, key: Entry): seq<Entry> {
    if entries == [] then []
    else (if SameKey(entries[0], key) then [entries[0]] else []) + WithKey(entries[1..], key)
  }

  lemma {:induction false} InsertIsStable(e: Entry, sorted: seq<Entry>, key: Entry)
    ensures WithKey(Insert(e, sorted), key) == WithKey([e] + sorted, key)
  {
    assert ([e] + sorted)[1..] == sorted;
    if sorted != [] && Before(sorted[0], e) {
      InsertIsStable(e, sorted[1..], key);
      assert ([e] + sorted[1..])[1..] == sorted[1..];
      assert !(SameKey(sorted[0], key) && SameKey(e, key));
    }
  }

  lemma {:induction false} SortIsStable(entries: seq<Entry>, key: Entry)
    ensures WithKey(Sort(entries), key) == WithKey(entries, key)
  {
    if entries != [] {
      SortIsStable(entries[1..], key);
      InsertIsStable(entries[0], Sort(entries[1..]), key);
      var sorted := Sort(entries[1..]);
      assert ([entries[0]] + sorted)[1..] == sorted;
    }
  }

  // ---- Building ---------------------------------------------------------------------------------------------

  function Map<A, B>(f: A -> B, s: seq<A>): (r: seq<B>)
    ensures |r| == |s| && forall i :: 0 <= i < |s| ==> r[i] == f(s[i])
  {
    seq(|s|, i requires 0 <= i < |s| => f(s[i]))
  }

  function StepEntries(steps: seq<StepRow>): seq<Entry> {
    Map(StepEntry, steps)
  }

  function ToolCallEntries(calls: seq<ToolCallRow>): seq<Entry> {
    seq(|calls|, i requires 0 <= i < |calls| => ToolCallEntry(calls[i], i))
  }

  function EventEntries(events: seq<EventRow>): seq<Entry> {
    Map(EventEntry, events)
  }

  function AllEntries(steps: seq<StepRow>, calls: seq<ToolCallRow>, events: seq<EventRow>): seq<Entry> {
    StepEntries(steps) + ToolCallEntries(calls) + EventEntries(events)
  }

  function Built(steps: seq<StepRow>, calls: seq<ToolCallRow>, events: seq<EventRow>): seq<Entry> {
    Sort(AllEntries(steps, calls, events))
  }

  method BuildTimeline(steps: seq<StepRow>, calls: seq<ToolCallRow>, events: seq<EventRow>)
    returns (entries: seq<Entry>)
    ensures entries == Built(steps, calls, events)
  {
    hide Redaction.Redacted, Sort, AllEntries, StepEntries, ToolCallEntries, EventEntries;
    ghost var all := AllEntries(steps, calls, events);
    EntriesInOrder(steps, calls, events);
    entries := [];
    for i := 0 to |steps|
      invariant entries == all[..i]
    {
      var detail := Redaction.Redact(steps[i].detail, 0);
      entries := entries + [Entry(Step, steps[i].startedAt, steps[i].node, steps[i].sequence, detail)];
    }
    for i := 0 to |calls|
      invariant entries == all[..|steps| + i]
    {
      var detail := Redaction.Redact(calls[i].detail, 0);
      entries := entries + [Entry(ToolCall, calls[i].startedAt, calls[i].tool, i, detail)];
    }
    for i := 0 to |events|
      invariant entries == all[..|steps| + |calls| + i]
    {
      var detail := Redaction.Redact(events[i].detail, 0);
      var tiebreak := if events[i].id.Some? then events[i].id.value else 0;
      entries := entries + [Entry(Event, events[i].occurredAt, events[i].eventType, tiebreak, detail)];
    }
    assert all[..|all|] == all;
    entries := Sort(entries);
  }

  /** Which entry stands where before sorting. */
  lemma EntriesInOrder(steps: seq<StepRow>, calls: seq<ToolCallRow>, events: seq<EventRow>)
    ensures var all := AllEntries(steps, calls, events);
            && |all| == |steps| + |calls| + |events|
            && (forall i :: 0 <= i < |steps| ==> all[i] == StepEntry(steps[i]))
            && (forall i :: 0 <= i < |calls| ==> all[|steps| + i] == ToolCallEntry(calls[i], i))
            && (forall i :: 0 <= i < |events| ==> all[|steps| + |calls| + i] == EventEntry(events[i]))
  {
    hide Redaction.Redacted;
  }

  // ---- What the timeline promises ---------------------------------------------------------------------------

  /** Nothing is lost, nothing is added, and everything is in order. */
  lemma NothingIsLost(steps: seq<StepRow>, calls: seq<ToolCallRow>, events: seq<EventRow>)
    ensures Ordered(Built(steps, calls, events))
    ensures multiset(Built(steps, calls, events))
            == multiset(StepEntries(steps)) + multiset(ToolCallEntries(calls)) + multiset(EventEntries(events))
    ensures forall e :: e in Built(steps, calls, events) ==> Redaction.Clean(e.detail)
  {
    hide Redaction.Redacted, Redaction.Clean, Sort;
    var all := AllEntries(steps, calls, events);
    SortSorts(all);
    forall e | e in Built(steps, calls, events) ensures Redaction.Clean(e.detail) {
      assert e in multiset(all);
      EveryDetailIsClean(steps, calls, events, e);
    }
  }

  lemma EveryDetailIsClean(steps: seq<StepRow>, calls: seq<ToolCallRow>, events: seq<EventRow>, e: Entry)
    requires e in AllEntries(steps, calls, events)
    ensures Redaction.Clean(e.detail)
  {
    hide Redaction.Redacted, Redaction.Clean;
    if e in StepEntries(steps) {
      var i :| 0 <= i < |steps| && e == StepEntries(steps)[i];
      Redaction.RedactedIsClean(steps[i].detail, 0);
    } else if e in ToolCallEntries(calls) {
      var i :| 0 <= i < |calls| && e == ToolCallEntries(calls)[i];
      Redaction.RedactedIsClean(calls[i].detail, 0);
    } else {
      var i :| 0 <= i < |events| && e == EventEntries(events)[i];
      Redaction.RedactedIsClean(events[i].detail, 0);
    }
  }

  /** No two entries have the same place. */
  ghost predicate DistinctKeys(entries: seq<Entry>) {
    forall i, j :: 0 <= i < j < |entries| ==> !SameKey(entries[i], entries[j])
  }

  ghost predicate KeysDecide(entries: multiset<Entry>) {
    forall x, y :: x in entries && y in entries && SameKey(x, y) ==> x == y
  }

  lemma {:induction false} OrderIsUnique(a: seq<Entry>, b: seq<Entry>)
    requires Ordered(a) && Ordered(b) && multiset(a) == multiset(b) && KeysDecide(multiset(a))
    ensures a == b
  {
    hide Before, SameKey;
    assert |multiset(a)| == |multiset(b)|;
    if a != [] {
      HeadsAgree(a, b);
      TailsAgree(a, b);
      OrderIsUnique(a[1..], b[1..]);
      assert a == [a[0]] + a[1..] && b == [b[0]] + b[1..];
    }
  }

  lemma HeadsAgree(a: seq<Entry>, b: seq<Entry>)
    requires Ordered(a) && Ordered(b) && multiset(a) == multiset(b) && KeysDecide(multiset(a)) && |a| == |b| > 0
    ensures a[0] == b[0]
  {
    assert a[0] in multiset(b) && b[0] in multiset(a);
    Least(a, b[0]);
    Least(b, a[0]);
    assert SameKey(a[0], b[0]);
  }

  lemma TailsAgree<T>(a: seq<T>, b: seq<T>)
    requires multiset(a) == multiset(b) && |a| == |b| > 0 && a[0] == b[0]
    ensures multiset(a[1..]) == multiset(b[1..])
    ensures multiset(a[1..]) <= multiset(a)
  {
    assert a == [a[0]] + a[1..] && b == [b[0]] + b[1..];
    assert multiset(a[1..]) == multiset(a) - multiset{a[0]};
    assert multiset(b[1..]) == multiset(b) - multiset{b[0]};
  }

  lemma Least(entries: seq<Entry>, e: Entry)
    requires Ordered(entries) && e in entries
    ensures !Before(e, entries[0])
  {
  }

  lemma DistinctDecide(entries: seq<Entry>)
    requires DistinctKeys(entries)
    ensures KeysDecide(multiset(entries))
  {
  }

  /** The rows' own keys: no two steps share instant and sequence, no two events share instant and identifier. */
  ghost predicate OwnKeys(steps: seq<StepRow>, events: seq<EventRow>) {
    DistinctKeys(StepEntries(steps)) && DistinctKeys(EventEntries(events))
  }

  lemma OwnKeysSuffice(steps: seq<StepRow>, calls: seq<ToolCallRow>, events: seq<EventRow>)
    requires OwnKeys(steps, events)
    ensures DistinctKeys(AllEntries(steps, calls, events))
  {
    hide Redaction.Redacted;
    var a, b, c := StepEntries(steps), ToolCallEntries(calls), EventEntries(events);
    var all := AllEntries(steps, calls, events);
    forall i, j | 0 <= i < j < |all| ensures !SameKey(all[i], all[j]) {
      KindAt(steps, calls, events, i);
      KindAt(steps, calls, events, j);
    }
  }

  lemma KindAt(steps: seq<StepRow>, calls: seq<ToolCallRow>, events: seq<EventRow>, i: nat)
    requires i < |AllEntries(steps, calls, events)|
    ensures var a, b, e := |steps|, |steps| + |calls|, AllEntries(steps, calls, events)[i];
            if i < a then e == StepEntries(steps)[i] && e.kind == Step
            else if i < b then e.kind == ToolCall && e.tiebreak == i - a
            else e == EventEntries(events)[i - b] && e.kind == Event
  {
    hide Redaction.Redacted;
  }

  /** The timeline does not depend on the order in which steps and events were loaded. */
  lemma InputOrderDoesNotMatter(steps: seq<StepRow>, steps': seq<StepRow>, calls: seq<ToolCallRow>,
                                events: seq<EventRow>, events': seq<EventRow>)
    requires multiset(steps) == multiset(steps') && multiset(events) == multiset(events')
    requires OwnKeys(steps, events)
    ensures Built(steps, calls, events) == Built(steps', calls, events')
  {
    hide Redaction.Redacted, Sort;
    var a, b := AllEntries(steps, calls, events), AllEntries(steps', calls, events');
    SortSorts(a);
    SortSorts(b);
    MapPermutes(StepEntry, steps, steps');
    MapPermutes(EventEntry, events, events');
    OwnKeysSuffice(steps, calls, events);
    DistinctDecide(a);
    OrderIsUnique(Sort(a), Sort(b));
  }

  /** Mapping keeps permutations permutations. */
  lemma {:induction false} MapPermutes<A, B>(f: A -> B, s: seq<A>, t: seq<A>)
    requires multiset(s) == multiset(t)
    ensures multiset(Map(f, s)) == multiset(Map(f, t))
  {
    hide Map;
    if s == [] {
      SameSize(s, t);
    } else {
      var k := FindHead(s, t);
      var rest := t[..k] + t[k + 1..];
      MapPermutes(f, s[1..], rest);
      MapWithout(f, t, k);
      MapHead(f, s);
    }
  }

  lemma SameSize<A>(s: seq<A>, t: seq<A>)
    requires multiset(s) == multiset(t)
    ensures |s| == |t|
  {
    assert |multiset(s)| == |multiset(t)|;
  }

  lemma MapHead<A, B>(f: A -> B, s: seq<A>)
    requires s != []
    ensures multiset(Map(f, s)) == multiset(Map(f, s[1..])) + multiset{f(s[0])}
  {
    assert Map(f, s) == [f(s[0])] + Map(f, s[1..]);
  }

  lemma FindHead<A>(s: seq<A>, t: seq<A>) returns (k: nat)
    requires multiset(s) == multiset(t) && s != []
    ensures k < |t| && t[k] == s[0] && multiset(t[..k] + t[k + 1..]) == multiset(s[1..])
  {
    assert s[0] in multiset(t);
    k :| 0 <= k < |t| && t[k] == s[0];
    Removed(t, k);
    assert s == [s[0]] + s[1..];
    assert multiset(s[1..]) == multiset(s) - multiset{s[0]};
  }

  lemma MapWithout<A, B>(f: A -> B, t: seq<A>, k: nat)
    requires k < |t|
    ensures multiset(Map(f, t)) == multiset(Map(f, t[..k] + t[k + 1..])) + multiset{f(t[k])}
  {
    var image := Map(f, t);
    Removed(image, k);
    assert Map(f, t[..k] + t[k + 1..]) == image[..k] + image[k + 1..];
  }

  lemma Removed<T>(t: seq<T>, k: nat)
    requires k < |t|
    ensures multiset(t) == multiset(t[..k] + t[k + 1..]) + multiset{t[k]}
  {
    assert t == t[..k] + [t[k]] + t[k + 1..];
  }

  /** Of two events of which the first was not later and was inserted first, the first comes first. */
  lemma EventsKeepInsertionOrder(steps: seq<StepRow>, calls: seq<ToolCallRow>, events: seq<EventRow>,
                                 e: EventRow, f: EventRow, i: nat, j: nat)
    requires e in events && f in events && e.occurredAt <= f.occurredAt
    requires e.id.Some? && f.id.Some? && e.id.value < f.id.value
    requires i < |Built(steps, calls, events)| && Built(steps, calls, events)[i] == EventEntry(e)
    requires j < |Built(steps, calls, events)| && Built(steps, calls, events)[j] == EventEntry(f)
    ensures i < j
  {
    hide Redaction.Redacted, Sort;
    SortSorts(AllEntries(steps, calls, events));
    assert Before(EventEntry(e), EventEntry(f));
    Asymmetric(EventEntry(e), EventEntry(f));
    Transitive(EventEntry(e), EventEntry(e), EventEntry(e));
  }

  /** Every event is in the timeline. */
  lemma EveryEventAppears(steps: seq<StepRow>, calls: seq<ToolCallRow>, events: seq<EventRow>, e: EventRow)
    requires e in events
    ensures EventEntry(e) in Built(steps, calls, events)
  {
    hide Redaction.Redacted, Sort;
    var all := AllEntries(steps, calls, events);
    SortSorts(all);
    var k :| 0 <= k < |events| && events[k] == e;
    assert EventEntries(events)[k] == EventEntry(e);
    assert EventEntry(e) in multiset(all);
  }

  // ---- A tool call in the timeline --------------------------------------------------------------------------

  function TypeName(e: Tools.Event): string {
    match e
    case ToolSelected(_, _) => "tool_selected"
    case ToolCalled(_, _) => "tool_called"
    case ToolCompleted(_, _, _, _) => "tool_completed"
    case ApprovalRequested(_, _) => "approval_requested"
    case ApprovalReceived(_, _, _) => "approval_received"
  }

  /** The rows of events inserted one after the other in one transaction: consecutive identifiers, one instant. */
  function RowsFor(events: seq<Tools.Event>, firstId: nat, at: int, details: seq<Redaction.Json>): (rows: seq<EventRow>)
    requires |details| == |events|
    ensures |rows| == |events|
  {
    seq(|events|, i requires 0 <= i < |events| => EventRow(Some(firstId + i), TypeName(events[i]), at, details[i]))
  }

  /** The timeline shows each of these rows, and shows them in this order. */
  ghost predicate ShowsInOrder(timeline: seq<Entry>, rows: seq<EventRow>) {
    && (forall k :: 0 <= k < |rows| ==> EventEntry(rows[k]) in timeline)
    && (forall m, n, i, j | 0 <= m < n < |rows| && 0 <= i < |timeline| && 0 <= j < |timeline| ::
          timeline[i] == EventEntry(rows[m]) && timeline[j] == EventEntry(rows[n]) ==> i < j)
  }

  lemma InsertedTogether(steps: seq<StepRow>, calls: seq<ToolCallRow>, events: seq<EventRow>,
                         inserted: seq<Tools.Event>, firstId: nat, at: int, details: seq<Redaction.Json>)
    requires |details| == |inserted|
    requires forall row :: row in RowsFor(inserted, firstId, at, details) ==> row in events
    ensures ShowsInOrder(Built(steps, calls, events), RowsFor(inserted, firstId, at, details))
  {
    hide Redaction.Redacted, Built, EventEntry, TypeName;
    var rows, timeline := RowsFor(inserted, firstId, at, details), Built(steps, calls, events);
    forall k | 0 <= k < |rows| ensures rows[k] in events && EventEntry(rows[k]) in timeline {
      assert rows[k] in rows;
      EveryEventAppears(steps, calls, events, rows[k]);
    }
    forall m, n, i, j | 0 <= m < n < |rows| && 0 <= i < |timeline| && 0 <= j < |timeline|
      ensures timeline[i] == EventEntry(rows[m]) && timeline[j] == EventEntry(rows[n]) ==> i < j
    {
      if timeline[i] == EventEntry(rows[m]) && timeline[j] == EventEntry(rows[n]) {
        EventsKeepInsertionOrder(steps, calls, events, rows[m], rows[n], i, j);
      }
    }
  }

  /**
   Whatever a tool call came to, a timeline of any rows that contain those of its events shows them all, and in
   causal order: selected first, completed last, and called in between exactly when its handler was entered.
   */
  lemma ToolCallsAreInOrder(w: Tools.World, call: Tools.Call, pick: Option<nat>, firstId: nat, at: int,
                            details: seq<Redaction.Json>,
                            steps: seq<StepRow>, calls: seq<ToolCallRow>, events: seq<EventRow>)
    requires |details| == |Tools.Execute(w, call, pick).world.events[|w.events|..]|
    requires var inserted := Tools.Execute(w, call, pick).world.events[|w.events|..];
             forall row :: row in RowsFor(inserted, firstId, at, details) ==> row in events
    ensures var o := Tools.Execute(w, call, pick);
            var rows := RowsFor(o.world.events[|w.events|..], firstId, at, details);
            && ShowsInOrder(Built(steps, calls, events), rows)
            && |rows| == (if o.called then 3 else 2)
            && rows[0].eventType == "tool_selected" && rows[|rows| - 1].eventType == "tool_completed"
            && (o.called ==> rows[1].eventType == "tool_called")
  {
    hide Redaction.Redacted, Built, Tools.Execute, EventEntry, ShowsInOrder;
    Tools.EveryAttemptIsRecorded(w, call, pick);
    var inserted := Tools.Execute(w, call, pick).world.events[|w.events|..];
    InsertedTogether(steps, calls, events, inserted, firstId, at, details);
  }

  // ---- The order, in terms of the rows ------------------------------------------------------------------------

  /** A row of any of the three sources; a tool call counts by its place in its list. */
  datatype Row = OfStep(step: StepRow) | OfToolCall(call: ToolCallRow, index: nat) | OfEvent(event: EventRow)
  {
    /** When it happened. */
    function Instant(): int {
      match this
      case OfStep(step) => step.startedAt
      case OfToolCall(call, _) => call.startedAt
      case OfEvent(event) => event.occurredAt
    }

    /** What its own source counts it by; an event without an identifier comes before all others. */
    function Counter(): int {
      match this
      case OfStep(step) => step.sequence
      case OfToolCall(_, index) => index
      case OfEvent(event) => if event.id == None then 0 else event.id.value
    }

    function KindName(): string {
      match this case OfStep(_) => "step" case OfToolCall(_, _) => "tool_call" case OfEvent(_) => "event"
    }
  }

  /** The row is one of those the timeline was built from. */
  predicate Given(row: Row, steps: seq<StepRow>, calls: seq<ToolCallRow>, events: seq<EventRow>) {
    match row
    case OfStep(step) => step in steps
    case OfToolCall(call, index) => index < |calls| && calls[index] == call
    case OfEvent(event) => event in events
  }

  /** The entry says of the row what it is called, when it happened, and its detail, redacted. */
  predicate Shows(e: Entry, row: Row) {
    && e.at == row.Instant() && e.tiebreak == row.Counter()
    && match row
       case OfStep(step) =>
         e.kind == Step && e.name == step.node && e.detail == Redaction.Redacted(step.detail, 0)
       case OfToolCall(call, _) =>
         e.kind == ToolCall && e.name == call.tool && e.detail == Redaction.Redacted(call.detail, 0)
       case OfEvent(event) =>
         e.kind == Event && e.name == event.eventType && e.detail == Redaction.Redacted(event.detail, 0)
  }

  /** By instant, then by the source's own counter, then by the name of the kind. */
  ghost predicate Earlier(a: Row, b: Row) {
    || a.Instant() < b.Instant()
    || (a.Instant() == b.Instant()
        && (a.Counter() < b.Counter()
            || (a.Counter() == b.Counter() && a.KindName() != b.KindName()
                && Redaction.Precedes(a.KindName(), b.KindName()))))
  }

  lemma ShownInOrder(a: Row, b: Row, e: Entry, f: Entry)
    requires Shows(e, a) && Shows(f, b) && Earlier(a, b)
    ensures Before(e, f)
  {
    hide Redaction.Redacted;
  }

  /** Each row has its entry, and there are as many entries as rows. */
  lemma EveryRowAppears(steps: seq<StepRow>, calls: seq<ToolCallRow>, events: seq<EventRow>, row: Row)
    returns (p: nat)
    requires Given(row, steps, calls, events)
    ensures |Built(steps, calls, events)| == |steps| + |calls| + |events|
    ensures p < |Built(steps, calls, events)| && Shows(Built(steps, calls, events)[p], row)
  {
    hide Redaction.Redacted, Sort, AllEntries;
    var all := AllEntries(steps, calls, events);
    EntriesInOrder(steps, calls, events);
    SortSorts(all);
    SameSize(Sort(all), all);
    var k: nat;
    match row {
      case OfStep(step) => k :| 0 <= k < |steps| && steps[k] == step;
      case OfToolCall(_, index) => k := |steps| + index;
      case OfEvent(event) =>
        var i :| 0 <= i < |events| && events[i] == event;
        k := |steps| + |calls| + i;
    }
    assert Shows(all[k], row);
    assert all[k] in multiset(all);
    p :| 0 <= p < |Sort(all)| && Sort(all)[p] == all[k];
  }

  /**
   Of any two rows, whatever their kinds, the earlier comes first: the one with the earlier instant; of two at one
   instant the one its own source counts first; and of two with one number the one whose kind's name comes first.
   */
  lemma RowsAreInOrder(steps: seq<StepRow>, calls: seq<ToolCallRow>, events: seq<EventRow>,
                       a: Row, b: Row, i: nat, j: nat)
    requires Earlier(a, b)
    requires i < |Built(steps, calls, events)| && Shows(Built(steps, calls, events)[i], a)
    requires j < |Built(steps, calls, events)| && Shows(Built(steps, calls, events)[j], b)
    ensures i < j
  {
    hide Redaction.Redacted, Sort, Before, Earlier, Shows;
    SortSorts(AllEntries(steps, calls, events));
    var e, f := Built(steps, calls, events)[i], Built(steps, calls, events)[j];
    ShownInOrder(a, b, e, f);
    Asymmetric(e, f);
    Transitive(e, e, e);
  }
}
