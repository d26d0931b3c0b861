/**
 What may be written into an audit payload: reasoning is dropped by key name, credentials are masked, and
 strings, lists and nesting are bounded. Payloads are trees; an object's fields carry the string form of
 their keys, so two fields may collide, and the later one then takes the earlier one's place.
 */
module Redaction {
  import opened Common
  import Chunking

  datatype Field = Field(key: string, value: Json)

  /** `Other` is any value outside JSON, with its string form. */
  datatype Json =
    | Null | Bool(b: bool) | Number(n: real) | Str(s: string)
    | Arr(items: seq<Json>) | Obj(fields: seq<Field>) | Other(text: string)

  const THOUGHT_KEYS: set<string> := {
    "chain_of_thought", "cot", "deliberation", "inner_monologue", "raw_completion", "raw_response",
    "reasoning", "reasoning_trace", "scratchpad", "thinking", "thought", "thoughts" }

  const SECRET_KEYS: set<string> := {
    "access_token", "api_key", "apikey", "authorization", "client_secret", "credential", "credentials", "dsn",
    "password", "private_key", "refresh_token", "secret", "session_token", "token" }

  const REDACTED := Str("***")
  const DROPPED_MARKER := "__redacted_keys__"
  const TOO_DEEP := Str("\U{2026}[max depth exceeded]")
  const TRUNCATION_SUFFIX := "\U{2026}[truncated]"
  const MAX_STRING_LENGTH := 2000
  const MAX_COLLECTION_ITEMS := 50
  const MAX_DEPTH := 6

  // ---- Keys -----------------------------------------------------------------------------------------------

  /**
   Lower case, as far as it matters here. Outside ASCII only the Kelvin sign lowers to an ASCII letter; every
   other character outside ASCII lowers to something outside ASCII, which no key name contains.
   */
  function LowerChar(c: char): char {
    if 'A' <= c <= 'Z' then c + ('a' - 'A') else if c == '\U{212A}' then 'k' else c
  }

  function Lower(s: string): (t: string)
    ensures |t| == |s|
  {
    seq(|s|, i requires 0 <= i < |s| => LowerChar(s[i]))
  }

  function Normalised(key: string): string {
    Lower(Chunking.Strip(key))
  }

  predicate IsThought(key: string) {
    Normalised(key) in THOUGHT_KEYS
  }

  predicate EndsWith(s: string, suffix: string) {
    |suffix| <= |s| && s[|s| - |suffix|..] == suffix
  }

  /** A secret's name, or a qualified name that ends in one after an underscore or a dot. */
  predicate IsSecret(key: string) {
    var lowered := Normalised(key);
    lowered in SECRET_KEYS
    || exists secret :: secret in SECRET_KEYS && (EndsWith(lowered, "_" + secret) || EndsWith(lowered, "." + secret))
  }

  // ---- Bounds -----------------------------------------------------------------------------------------------

  function Truncate(s: string): (t: string)
    ensures |t| <= MAX_STRING_LENGTH + 12
  {
    if |s| <= MAX_STRING_LENGTH then s else s[..MAX_STRING_LENGTH] + TRUNCATION_SUFFIX
  }

  function Digits(n: nat): string {
    if n < 10 then ["0123456789"[n]] else Digits(n / 10) + ["0123456789"[n % 10]]
  }

  function More(n: nat): Json {
    Str("\U{2026}[" + Digits(n) + " more]")
  }

  // ---- Sorting the dropped keys -----------------------------------------------------------------------------

  /** Code point order. */
  predicate Precedes(a: string, b: string) {
    a == [] || (b != [] && (a[0] < b[0] || (a[0] == b[0] && Precedes(a[1..], b[1..]))))
  }

  function Insert(s: string, sorted: seq<string>): seq<string> {
    if sorted == [] || Precedes(s, sorted[0]) then [s] + sorted else [sorted[0]] + Insert(s, sorted[1..])
  }

  function Sorted(keys: seq<string>): seq<string> {
    if keys == [] then [] else Insert(keys[0], Sorted(keys[1..]))
  }

  lemma {:induction false} PrecedesIsTotal(a: string, b: string)
    ensures Precedes(a, b) || Precedes(b, a)
  {
    if a != [] && b != [] { PrecedesIsTotal(a[1..], b[1..]); }
  }

  predicate InOrder(keys: seq<string>) {
    forall i :: 0 < i < |keys| ==> Precedes(keys[i - 1], keys[i])
  }

  lemma {:induction false} InsertKeepsOrder(s: string, sorted: seq<string>)
    requires InOrder(sorted)
    ensures InOrder(Insert(s, sorted)) && multiset(Insert(s, sorted)) == multiset{s} + multiset(sorted)
    ensures sorted != [] ==> Insert(s, sorted)[0] in {s, sorted[0]}
  {
    if sorted != [] && !Precedes(s, sorted[0]) {
      PrecedesIsTotal(s, sorted[0]);
      assert sorted == [sorted[0]] + sorted[1..];
      forall i | 0 < i < |sorted| - 1 ensures Precedes(sorted[1..][i - 1], sorted[1..][i]) {
        assert Precedes(sorted[i + 1 - 1], sorted[i + 1]);
      }
      InsertKeepsOrder(s, sorted[1..]);
    }
  }

  /** The same keys, in order. */
  lemma {:induction false} SortedSorts(keys: seq<string>)
    ensures InOrder(Sorted(keys)) && multiset(Sorted(keys)) == multiset(keys)
  {
    if keys != [] {
      SortedSorts(keys[1..]);
      InsertKeepsOrder(keys[0], Sorted(keys[1..]));
      assert keys == [keys[0]] + keys[1..];
    }
  }

  // ---- What redaction does, as one function -----------------------------------------------------------------

  /** What stands under a key of a redacted object. */
  datatype Slot = Masked | Kept(value: Json) | Withheld(keys: seq<string>)

  datatype Entry<T> = Entry(key: string, content: T)

  /** Set a key: in place if it is there, else at the end. */
  function Put<T>(entries: seq<Entry<T>>, key: string, content: T): seq<Entry<T>> {
    if entries == [] then [Entry(key, content)]
    else if entries[0].key == key then [Entry(key, content)] + entries[1..]
    else [entries[0]] + Put(entries[1..], key, content)
  }

  /** The slots of the first `n` fields. */
  function SlotsOfFirst(fields: seq<Field>, n: nat): seq<Entry<Slot>>
    requires n <= |fields|
  {
    if n == 0 then []
    else
      var f := fields[n - 1];
      if IsThought(f.key) then SlotsOfFirst(fields, n - 1)
      else Put(SlotsOfFirst(fields, n - 1), f.key, if IsSecret(f.key) then Masked else Kept(f.value))
  }

  function DroppedOfFirst(fields: seq<Field>, n: nat): seq<string>
    requires n <= |fields|
  {
    if n == 0 then []
    else if IsThought(fields[n - 1].key) then DroppedOfFirst(fields, n - 1) + [fields[n - 1].key]
    else DroppedOfFirst(fields, n - 1)
  }

  function Dropped(fields: seq<Field>): seq<string> {
    DroppedOfFirst(fields, |fields|)
  }

  function Slots(fields: seq<Field>): seq<Entry<Slot>> {
    if Dropped(fields) == [] then SlotsOfFirst(fields, |fields|)
    else Put(SlotsOfFirst(fields, |fields|), DROPPED_MARKER, Withheld(Sorted(Dropped(fields))))
  }

  function Strings(keys: seq<string>): (items: seq<Json>)
    ensures |items| == |keys| && forall i :: 0 <= i < |keys| ==> items[i] == Str(keys[i])
  {
    seq(|keys|, i requires 0 <= i < |keys| => Str(keys[i]))
  }

  function SlotValue(slot: Slot, depth: nat): Json
    requires depth < MAX_DEPTH
    decreases MAX_DEPTH - depth, 0
  {
    match slot
    case Masked => REDACTED
    case Kept(value) => Redacted(value, depth + 1)
    case Withheld(keys) => Arr(Strings(keys))
  }

  function Fields(slots: seq<Entry<Slot>>, depth: nat): (fields: seq<Field>)
    requires depth < MAX_DEPTH
    ensures |fields| == |slots|
    ensures forall i :: 0 <= i < |slots| ==> fields[i] == Field(slots[i].key, SlotValue(slots[i].content, depth))
    decreases MAX_DEPTH - depth, 1
  {
    seq(|slots|, i requires 0 <= i < |slots| => Field(slots[i].key, SlotValue(slots[i].content, depth)))
  }

  function Items(items: seq<Json>, n: nat, depth: nat): (r: seq<Json>)
    requires n <= |items| && depth < MAX_DEPTH
    ensures |r| == n && forall i :: 0 <= i < n ==> r[i] == Redacted(items[i], depth + 1)
    decreases MAX_DEPTH - depth, 1
  {
    seq(n, i requires 0 <= i < n => Redacted(items[i], depth + 1))
  }

  function Redacted(x: Json, depth: nat): Json
    decreases MAX_DEPTH - depth, 2
  {
    if depth >= MAX_DEPTH then TOO_DEEP
    else
      match x
      case Obj(fields) => Obj(Fields(Slots(fields), depth))
      case Arr(items) =>
        Arr(Items(items, Min(|items|, MAX_COLLECTION_ITEMS), depth)
            + if |items| > MAX_COLLECTION_ITEMS then [More(|items| - MAX_COLLECTION_ITEMS)] else [])
      case Str(s) => Str(Truncate(s))
      case Other(text) => Str(Truncate(text))
      case _ => x
  }

  // ---- The implementation -----------------------------------------------------------------------------------

  function PutField(fields: seq<Field>, key: string, value: Json): seq<Field> {
    if fields == [] then [Field(key, value)]
    else if fields[0].key == key then [Field(key, value)] + fields[1..]
    else [fields[0]] + PutField(fields[1..], key, value)
  }

  /** Setting a key commutes with computing the slots' values. */
  lemma {:induction false} PutCommutes(slots: seq<Entry<Slot>>, key: string, slot: Slot, depth: nat)
    requires depth < MAX_DEPTH
    ensures Fields(Put(slots, key, slot), depth) == PutField(Fields(slots, depth), key, SlotValue(slot, depth))
  {
    hide Fields;
    if slots == [] {
      FieldsCons(Entry(key, slot), slots, depth);
    } else {
      var head, tail := slots[0], slots[1..];
      assert slots == [head] + tail;
      FieldsCons(head, tail, depth);
      FieldsCons(Entry(key, slot), tail, depth);
      FieldsCons(head, Put(tail, key, slot), depth);
      if head.key != key { PutCommutes(tail, key, slot, depth); }
    }
  }

  lemma FieldsCons(e: Entry<Slot>, rest: seq<Entry<Slot>>, depth: nat)
    requires depth < MAX_DEPTH
    ensures Fields([e] + rest, depth) == [Field(e.key, SlotValue(e.content, depth))] + Fields(rest, depth)
  {
    hide SlotValue, Redacted, Fields;
    var all, tail := Fields([e] + rest, depth), Fields(rest, depth);
    forall i | 0 <= i < |rest| ensures all[i + 1] == tail[i] {
      assert ([e] + rest)[i + 1] == rest[i];
    }
  }

  method Redact(payload: Json, depth: nat) returns (r: Json)
    ensures r == Redacted(payload, depth)
    decreases MAX_DEPTH - depth, 1
  {
    hide Slots, IsThought, IsSecret, More, Truncate;
    if depth >= MAX_DEPTH {
      return TOO_DEEP;
    }
    match payload
    case Obj(fields) =>
      r := RedactMapping(fields, depth);
    case Arr(items) =>
      var n := Min(|items|, MAX_COLLECTION_ITEMS);
      var redacted: seq<Json> := [];
      for i := 0 to n
        invariant redacted == Items(items, i, depth)
      {
        var item := Redact(items[i], depth + 1);
        redacted := redacted + [item];
      }
      if |items| > MAX_COLLECTION_ITEMS {
        redacted := redacted + [More(|items| - MAX_COLLECTION_ITEMS)];
      }
      r := Arr(redacted);
    case Str(s) =>
      r := Str(Truncate(s));
    case Other(text) =>
      r := Str(Truncate(text));
    case _ =>
      r := payload;
  }

  method RedactMapping(payload: seq<Field>, depth: nat) returns (r: Json)
    requires depth < MAX_DEPTH
    ensures r == Redacted(Obj(payload), depth)
    decreases MAX_DEPTH - depth, 0
  {
    var cleaned: seq<Field>, dropped: seq<string> := [], [];
    for i := 0 to |payload|
      invariant cleaned == Fields(SlotsOfFirst(payload, i), depth)
      invariant dropped == DroppedOfFirst(payload, i)
    {
      var key := payload[i].key;
      if IsThought(key) {
        dropped := dropped + [key];
        continue;
      }
      if IsSecret(key) {
        PutCommutes(SlotsOfFirst(payload, i), key, Masked, depth);
        cleaned := PutField(cleaned, key, REDACTED);
        continue;
      }
      PutCommutes(SlotsOfFirst(payload, i), key, Kept(payload[i].value), depth);
      var value := Redact(payload[i].value, depth + 1);
      cleaned := PutField(cleaned, key, value);
    }
    if dropped != [] {
      PutCommutes(SlotsOfFirst(payload, |payload|), DROPPED_MARKER, Withheld(Sorted(dropped)), depth);
      cleaned := PutField(cleaned, DROPPED_MARKER, Arr(Strings(Sorted(dropped))));
    }
    r := Obj(cleaned);
  }

  // ---- The slots of an object -------------------------------------------------------------------------------

  ghost predicate Distinct<T>(entries: seq<Entry<T>>) {
    forall i, j :: 0 <= i < j < |entries| ==> entries[i].key != entries[j].key
  }

  lemma {:induction false} PutEntries<T>(entries: seq<Entry<T>>, key: string, content: T)
    ensures forall e :: e in Put(entries, key, content) ==> e == Entry(key, content) || e in entries
    ensures Distinct(entries) ==> Distinct(Put(entries, key, content))
    ensures |entries| <= |Put(entries, key, content)|
    ensures Entry(key, content) in Put(entries, key, content)
  {
    if entries != [] && entries[0].key != key {
      PutEntries(entries[1..], key, content);
      assert Put(entries, key, content) == [entries[0]] + Put(entries[1..], key, content);
      if Distinct(entries) {
        var tail := Put(entries[1..], key, content);
        forall j | 0 <= j < |tail| ensures tail[j].key != entries[0].key {
          assert tail[j] in tail;
        }
      }
    }
  }

  /** The marker's own name is neither dropped nor masked. */
  lemma MarkerIsOrdinary()
    ensures !IsThought(DROPPED_MARKER) && !IsSecret(DROPPED_MARKER)
  {
    hide Normalised, EndsWith;
    MarkerStaysItself();
    assert forall key :: key in THOUGHT_KEYS ==> |key| != |DROPPED_MARKER|;
    assert forall key :: key in SECRET_KEYS ==> |key| != |DROPPED_MARKER|;
    forall secret | secret in SECRET_KEYS
      ensures !EndsWith(DROPPED_MARKER, "_" + secret) && !EndsWith(DROPPED_MARKER, "." + secret)
    {
      assert secret[|secret| - 1] != '_';
      OtherEnding(DROPPED_MARKER, "_", secret);
      OtherEnding(DROPPED_MARKER, ".", secret);
    }
  }

  lemma OtherEnding(s: string, mark: string, secret: string)
    requires s != [] && secret != [] && s[|s| - 1] != secret[|secret| - 1]
    ensures !EndsWith(s, mark + secret)
  {
    var suffix := mark + secret;
    assert suffix[|suffix| - 1] == secret[|secret| - 1];
    assert |suffix| <= |s| ==> s[|s| - |suffix|..][|suffix| - 1] == s[|s| - 1];
  }

  lemma MarkerStaysItself()
    ensures Normalised(DROPPED_MARKER) == DROPPED_MARKER
  {
    Chunking.NothingToStrip(DROPPED_MARKER);
    NothingToLower(DROPPED_MARKER);
  }

  lemma NothingToLower(s: string)
    requires forall i :: 0 <= i < |s| ==> LowerChar(s[i]) == s[i]
    ensures Lower(s) == s
  {
  }

  /** What a slot's key says about its content. */
  ghost predicate SlotFits(e: Entry<Slot>, fields: seq<Field>) {
    && !IsThought(e.key)
    && (e.content.Masked? <==> IsSecret(e.key))
    && (e.content.Kept? ==> Field(e.key, e.content.value) in fields)
    && (e.content.Withheld? ==>
          e.key == DROPPED_MARKER && e.content.keys == Sorted(Dropped(fields)) && Dropped(fields) != [])
  }

  lemma {:induction false} SlotsOfFirstFit(fields: seq<Field>, n: nat)
    requires n <= |fields|
    ensures Distinct(SlotsOfFirst(fields, n))
    ensures forall e :: e in SlotsOfFirst(fields, n) ==> SlotFits(e, fields) && !e.content.Withheld?
  {
    hide IsThought, IsSecret, Distinct, SlotFits, Put;
    if n == 0 {
      assert Distinct<Slot>([]) by { NoEntries<Slot>(); }
    } else {
      SlotsOfFirstFit(fields, n - 1);
      var f := fields[n - 1];
      var slot := if IsSecret(f.key) then Masked else Kept(f.value);
      PutEntries(SlotsOfFirst(fields, n - 1), f.key, slot);
      if !IsThought(f.key) { OwnSlotFits(fields, n - 1); }
    }
  }

  lemma OwnSlotFits(fields: seq<Field>, k: nat)
    requires k < |fields| && !IsThought(fields[k].key)
    ensures SlotFits(Entry(fields[k].key, if IsSecret(fields[k].key) then Masked else Kept(fields[k].value)), fields)
  {
    hide IsThought, IsSecret;
    assert fields[k] in fields;
  }

  lemma NoEntries<T>()
    ensures Distinct<T>([])
  {
  }

  lemma SlotsFit(fields: seq<Field>)
    ensures Distinct(Slots(fields)) && forall e :: e in Slots(fields) ==> SlotFits(e, fields)
    ensures Dropped(fields) != [] ==> Entry(DROPPED_MARKER, Withheld(Sorted(Dropped(fields)))) in Slots(fields)
    ensures Dropped(fields) == [] ==> forall e :: e in Slots(fields) ==> !e.content.Withheld?
  {
    hide IsThought, IsSecret, Distinct, SlotsOfFirst, Dropped, Sorted;
    SlotsOfFirstFit(fields, |fields|);
    MarkerIsOrdinary();
    PutEntries(SlotsOfFirst(fields, |fields|), DROPPED_MARKER, Withheld(Sorted(Dropped(fields))));
  }

  // ---- Nothing dangerous is left ----------------------------------------------------------------------------

  /** No reasoning key at any depth, every secret masked, and no key twice in one object. */
  ghost predicate Clean(x: Json)
    decreases x
  {
    match x
    case Obj(fields) =>
      && (forall i, j :: 0 <= i < j < |fields| ==> fields[i].key != fields[j].key)
      && (forall i :: 0 <= i < |fields| ==>
            && !IsThought(fields[i].key)
            && (IsSecret(fields[i].key) ==> fields[i].value == REDACTED)
            && Clean(fields[i].value))
    case Arr(items) => forall i :: 0 <= i < |items| ==> Clean(items[i])
    case _ => true
  }

  lemma {:induction false} RedactedIsClean(x: Json, depth: nat)
    ensures Clean(Redacted(x, depth))
    decreases MAX_DEPTH - depth
  {
    hide IsThought, IsSecret, Slots;
    if depth < MAX_DEPTH {
      match x
      case Obj(fields) =>
        SlotsFit(fields);
        var slots := Slots(fields);
        forall i | 0 <= i < |slots|
          ensures SlotFits(slots[i], fields) && Clean(SlotValue(slots[i].content, depth))
        {
          assert slots[i] in slots;
          if slots[i].content.Kept? { RedactedIsClean(slots[i].content.value, depth + 1); }
        }
      case Arr(items) =>
        forall i | 0 <= i < |items| ensures Clean(Redacted(items[i], depth + 1)) {
          RedactedIsClean(items[i], depth + 1);
        }
      case _ =>
    }
  }

  // ---- Everything left is bounded ---------------------------------------------------------------------------

  /** The list of withheld keys: outside the bounds, and the only thing that is. */
  ghost predicate IsWithheldList(f: Field) {
    f.key == DROPPED_MARKER && f.value.Arr? && forall i :: 0 <= i < |f.value.items| ==> f.value.items[i].Str?
  }

  /** Strings, lists and nesting are within the fixed bounds for a value that stands at this depth. */
  ghost predicate Bounded(x: Json, depth: nat)
    decreases x
  {
    match x
    case Str(s) => |s| <= MAX_STRING_LENGTH + 12
    case Other(_) => false
    case Arr(items) =>
      && depth < MAX_DEPTH && |items| <= MAX_COLLECTION_ITEMS + 1
      && (forall i :: 0 <= i < |items| && i < MAX_COLLECTION_ITEMS ==> Bounded(items[i], depth + 1))
      && (|items| > MAX_COLLECTION_ITEMS ==> exists n: nat :: n > 0 && items[MAX_COLLECTION_ITEMS] == More(n))
    case Obj(fields) =>
      && depth < MAX_DEPTH
      && forall i :: 0 <= i < |fields| ==> IsWithheldList(fields[i]) || Bounded(fields[i].value, depth + 1)
    case _ => true
  }

  lemma {:induction false} RedactedIsBounded(x: Json, depth: nat)
    ensures Bounded(Redacted(x, depth), depth)
    decreases MAX_DEPTH - depth
  {
    hide Slots, More, SlotFits;
    if depth < MAX_DEPTH {
      match x
      case Obj(fields) =>
        SlotsFit(fields);
        var slots := Slots(fields);
        forall i | 0 <= i < |slots|
          ensures var f := Field(slots[i].key, SlotValue(slots[i].content, depth));
                  IsWithheldList(f) || Bounded(f.value, depth + 1)
        {
          assert slots[i] in slots;
          SlotIsBounded(slots[i], fields, depth);
          if slots[i].content.Kept? { RedactedIsBounded(slots[i].content.value, depth + 1); }
        }
      case Arr(items) =>
        forall i | 0 <= i < |items| ensures Bounded(Redacted(items[i], depth + 1), depth + 1) {
          RedactedIsBounded(items[i], depth + 1);
        }
      case _ =>
    }
  }

  lemma SlotIsBounded(e: Entry<Slot>, fields: seq<Field>, depth: nat)
    requires SlotFits(e, fields) && depth < MAX_DEPTH
    ensures e.content.Withheld? ==> IsWithheldList(Field(e.key, SlotValue(e.content, depth)))
    ensures e.content.Masked? ==> Bounded(SlotValue(e.content, depth), depth + 1)
  {
  }

  // ---- Nothing harmless is touched --------------------------------------------------------------------------

  /** A payload that holds nothing to redact, for a value that stands at this depth. */
  ghost predicate Harmless(x: Json, depth: nat)
    decreases x
  {
    if depth >= MAX_DEPTH then x == TOO_DEEP
    else
      match x
      case Str(s) =>
        || |s| <= MAX_STRING_LENGTH
        || (|s| == MAX_STRING_LENGTH + 12 && s[MAX_STRING_LENGTH..] == TRUNCATION_SUFFIX)
      case Other(_) => false
      case Arr(items) =>
        && |items| <= MAX_COLLECTION_ITEMS + 1
        && (forall i :: 0 <= i < |items| && i < MAX_COLLECTION_ITEMS ==> Harmless(items[i], depth + 1))
        && (|items| > MAX_COLLECTION_ITEMS ==> items[MAX_COLLECTION_ITEMS] == More(1))
      case Obj(fields) =>
        && PlainKeys(fields)
        && (forall i :: 0 <= i < |fields| ==>
              if IsSecret(fields[i].key) then fields[i].value == REDACTED else Harmless(fields[i].value, depth + 1))
      case _ => true
  }

  ghost predicate PlainKeys(fields: seq<Field>) {
    && (forall i, j :: 0 <= i < j < |fields| ==> fields[i].key != fields[j].key)
    && (forall i :: 0 <= i < |fields| ==> !IsThought(fields[i].key))
  }

  lemma {:induction false} PutAppends<T>(entries: seq<Entry<T>>, key: string, content: T)
    requires forall i :: 0 <= i < |entries| ==> entries[i].key != key
    ensures Put(entries, key, content) == entries + [Entry(key, content)]
  {
    if entries != [] {
      PutAppends(entries[1..], key, content);
      assert entries == [entries[0]] + entries[1..];
    }
  }

  lemma {:induction false} PlainSlotsOfFirst(fields: seq<Field>, n: nat)
    requires n <= |fields| && PlainKeys(fields)
    ensures DroppedOfFirst(fields, n) == [] && |SlotsOfFirst(fields, n)| == n
    ensures forall i :: 0 <= i < n ==>
              SlotsOfFirst(fields, n)[i]
              == Entry(fields[i].key, if IsSecret(fields[i].key) then Masked else Kept(fields[i].value))
  {
    hide IsThought, IsSecret, Put;
    if n > 0 {
      PlainSlotsOfFirst(fields, n - 1);
      var f := fields[n - 1];
      PutAppends(SlotsOfFirst(fields, n - 1), f.key, if IsSecret(f.key) then Masked else Kept(f.value));
    }
  }

  /** Redaction leaves a payload alone exactly when there is nothing in it to redact. */
  lemma {:induction false} UntouchedIffHarmless(x: Json, depth: nat)
    ensures Redacted(x, depth) == x <==> Harmless(x, depth)
    decreases MAX_DEPTH - depth
  {
    hide IsThought, IsSecret, SlotsOfFirst, DroppedOfFirst, More;
    if depth < MAX_DEPTH {
      match x
      case Obj(fields) =>
        RedactedIsClean(x, depth);
        if PlainKeys(fields) { UntouchedFields(fields, depth); }
      case Arr(items) =>
        UntouchedItems(items, depth);
      case _ =>
    }
  }

  lemma {:induction false} UntouchedFields(fields: seq<Field>, depth: nat)
    requires depth < MAX_DEPTH && PlainKeys(fields)
    ensures Redacted(Obj(fields), depth) == Obj(fields) <==>
            forall i :: 0 <= i < |fields| ==>
              if IsSecret(fields[i].key) then fields[i].value == REDACTED else Harmless(fields[i].value, depth + 1)
    decreases MAX_DEPTH - depth, 0
  {
    hide IsThought, IsSecret, SlotsOfFirst, DroppedOfFirst, Harmless;
    PlainSlotsOfFirst(fields, |fields|);
    var out := Fields(Slots(fields), depth);
    forall i | 0 <= i < |fields|
      ensures out[i] == fields[i] <==>
              if IsSecret(fields[i].key) then fields[i].value == REDACTED else Harmless(fields[i].value, depth + 1)
    {
      if !IsSecret(fields[i].key) { UntouchedIffHarmless(fields[i].value, depth + 1); }
    }
    assert out == fields <==> forall i :: 0 <= i < |fields| ==> out[i] == fields[i];
  }

  lemma {:induction false} UntouchedItems(items: seq<Json>, depth: nat)
    requires depth < MAX_DEPTH
    ensures Redacted(Arr(items), depth) == Arr(items) <==> Harmless(Arr(items), depth)
    decreases MAX_DEPTH - depth, 0
  {
    hide More, Harmless;
    var n := Min(|items|, MAX_COLLECTION_ITEMS);
    var out := Redacted(Arr(items), depth).items;
    forall i | 0 <= i < n ensures out[i] == items[i] <==> Harmless(items[i], depth + 1) {
      assert out[i] == Redacted(items[i], depth + 1);
      UntouchedIffHarmless(items[i], depth + 1);
    }
    HarmlessItems(items, depth);
    if |items| <= MAX_COLLECTION_ITEMS + 1 {
      assert |out| == |items|;
      SameItems(out, items);
    }
  }

  lemma SameItems(a: seq<Json>, b: seq<Json>)
    requires |a| == |b|
    ensures a == b <==> forall i :: 0 <= i < |a| ==> a[i] == b[i]
  {
  }

  lemma HarmlessItems(items: seq<Json>, depth: nat)
    requires depth < MAX_DEPTH
    ensures Harmless(Arr(items), depth) <==>
            && |items| <= MAX_COLLECTION_ITEMS + 1
            && (forall i :: 0 <= i < |items| && i < MAX_COLLECTION_ITEMS ==> Harmless(items[i], depth + 1))
            && (|items| > MAX_COLLECTION_ITEMS ==> items[MAX_COLLECTION_ITEMS] == More(1))
  {
    hide More;
  }

  // ---- Redacting twice --------------------------------------------------------------------------------------

  /**
   Lists of at most 51 items, and reasoning keys only in objects at depth 3 or less, at most 50 in one object
   and each at most 2000 characters long.
   */
  ghost predicate Stable(x: Json, depth: nat)
    decreases MAX_DEPTH - depth
  {
    depth >= MAX_DEPTH ||
    match x
    case Arr(items) =>
      && |items| <= MAX_COLLECTION_ITEMS + 1
      && (forall i :: 0 <= i < |items| && i < MAX_COLLECTION_ITEMS ==> Stable(items[i], depth + 1))
    case Obj(fields) =>
      && (Dropped(fields) != [] ==>
            depth <= MAX_DEPTH - 3 && |Dropped(fields)| <= MAX_COLLECTION_ITEMS
            && forall key :: key in Dropped(fields) ==> |key| <= MAX_STRING_LENGTH)
      && (forall e :: e in Slots(fields) && e.content.Kept? ==> Stable(e.content.value, depth + 1))
    case _ => true
  }

  lemma DigitsOfOne(n: nat)
    requires Digits(n) == Digits(1)
    ensures n == 1
  {
    assert |Digits(1)| == 1;
  }

  lemma MoreThanOne(n: nat)
    requires More(n) == More(1)
    ensures n == 1
  {
    hide Digits;
    var prefix, suffix := "\U{2026}[", " more]";
    var a, b := prefix + Digits(n) + suffix, prefix + Digits(1) + suffix;
    assert a[|prefix|..|a| - |suffix|] == Digits(n) && b[|prefix|..|b| - |suffix|] == Digits(1);
    DigitsOfOne(n);
  }

  lemma {:induction false} DroppedAreThoughts(fields: seq<Field>, n: nat)
    requires n <= |fields|
    ensures forall key :: key in DroppedOfFirst(fields, n) ==> IsThought(key)
  {
    hide IsThought;
    if n > 0 { DroppedAreThoughts(fields, n - 1); }
  }

  /** No reasoning key ends in a bracket, as every marker this module writes does. */
  lemma MarkersAreNotThoughts(key: string)
    requires key != [] && key[|key| - 1] == ']'
    ensures !IsThought(key)
  {
    hide Chunking.Leading;
    var left := Chunking.LStrip(key);
    BracketSurvives(key);
    var lowered := Normalised(key);
    assert lowered[|lowered| - 1] == ']';
    assert forall k :: k in THOUGHT_KEYS ==> k[|k| - 1] != ']';
  }

  lemma BracketSurvives(key: string)
    requires key != [] && key[|key| - 1] == ']'
    ensures var stripped := Chunking.Strip(key); stripped != [] && stripped[|stripped| - 1] == ']'
  {
    var left, n := Chunking.LStrip(key), Chunking.Leading(key);
    assert left[|left| - 1] == key[|key| - 1];
  }

  lemma KeyIsHarmlessIff(key: string, depth: nat)
    requires IsThought(key)
    ensures Harmless(Str(key), depth) <==> depth < MAX_DEPTH && |key| <= MAX_STRING_LENGTH
    ensures Str(key) != More(1)
  {
    hide IsThought, Digits;
    if key != [] && key[|key| - 1] == ']' { MarkersAreNotThoughts(key); }
    MarkersEndInBrackets(key);
  }

  /** The list of withheld keys survives a second redaction only within the bounds of Stable. */
  lemma WithheldIsHarmlessIff(keys: seq<string>, depth: nat)
    requires depth < MAX_DEPTH && keys != [] && forall key :: key in keys ==> IsThought(key)
    ensures Harmless(Arr(Strings(keys)), depth + 1)
            <==> depth <= MAX_DEPTH - 3 && |keys| <= MAX_COLLECTION_ITEMS
                 && forall key :: key in keys ==> |key| <= MAX_STRING_LENGTH
  {
    hide IsThought, More;
    var items := Strings(keys);
    forall i | 0 <= i < |keys|
      ensures Harmless(items[i], depth + 2) <==> depth + 2 < MAX_DEPTH && |keys[i]| <= MAX_STRING_LENGTH
      ensures items[i] != More(1)
    {
      assert keys[i] in keys;
      KeyIsHarmlessIff(keys[i], depth + 2);
    }
    assert keys[0] in keys;
  }

  lemma MarkersEndInBrackets(key: string)
    ensures Str(key) == TOO_DEEP || Str(key) == More(1) ==> key != [] && key[|key| - 1] == ']'
    ensures |key| == MAX_STRING_LENGTH + 12 && key[MAX_STRING_LENGTH..] == TRUNCATION_SUFFIX ==> key[|key| - 1] == ']'
  {
    if |key| == MAX_STRING_LENGTH + 12 && key[MAX_STRING_LENGTH..] == TRUNCATION_SUFFIX {
      assert key[MAX_STRING_LENGTH..][11] == key[|key| - 1];
    }
  }

  lemma {:induction false} RedactedIsHarmlessIff(x: Json, depth: nat)
    ensures Harmless(Redacted(x, depth), depth) <==> Stable(x, depth)
    decreases MAX_DEPTH - depth
  {
    hide IsThought, IsSecret, Slots, SlotFits, Digits;
    if depth < MAX_DEPTH {
      match x
      case Obj(fields) => FieldsHarmlessIff(fields, depth);
      case Arr(items) => ItemsHarmlessIff(items, depth);
      case _ =>
    }
  }

  lemma {:induction false} ItemsHarmlessIff(items: seq<Json>, depth: nat)
    requires depth < MAX_DEPTH
    ensures Harmless(Redacted(Arr(items), depth), depth) <==> Stable(Arr(items), depth)
    decreases MAX_DEPTH - depth, 0
  {
    hide Digits;
    var n := Min(|items|, MAX_COLLECTION_ITEMS);
    var out := Redacted(Arr(items), depth).items;
    forall i | 0 <= i < n ensures Harmless(out[i], depth + 1) <==> Stable(items[i], depth + 1) {
      assert out[i] == Redacted(items[i], depth + 1);
      RedactedIsHarmlessIff(items[i], depth + 1);
    }
    if |items| > MAX_COLLECTION_ITEMS {
      assert out[MAX_COLLECTION_ITEMS] == More(|items| - MAX_COLLECTION_ITEMS);
      if out[MAX_COLLECTION_ITEMS] == More(1) { MoreThanOne(|items| - MAX_COLLECTION_ITEMS); }
    }
  }

  lemma {:induction false} FieldsHarmlessIff(fields: seq<Field>, depth: nat)
    requires depth < MAX_DEPTH
    ensures Harmless(Redacted(Obj(fields), depth), depth) <==> Stable(Obj(fields), depth)
    decreases MAX_DEPTH - depth, 0
  {
    hide IsThought, IsSecret, Slots, Dropped, Sorted;
    SlotsFit(fields);
    RedactedIsClean(Obj(fields), depth);
    var slots, keys := Slots(fields), Dropped(fields);
    var out := Fields(slots, depth);
    SortedSorts(keys);
    SameMembers(Sorted(keys), keys);
    ThoughtsWithheld(fields);
    forall e | e in slots && !IsSecret(e.key)
      ensures Harmless(SlotValue(e.content, depth), depth + 1) <==>
              if e.content.Kept? then Stable(e.content.value, depth + 1)
              else depth <= MAX_DEPTH - 3 && |keys| <= MAX_COLLECTION_ITEMS
                   && forall key :: key in keys ==> |key| <= MAX_STRING_LENGTH
    {
      assert SlotFits(e, fields);
      if e.content.Kept? {
        RedactedIsHarmlessIff(e.content.value, depth + 1);
      } else {
        WithheldIsHarmlessIff(Sorted(keys), depth);
      }
    }
    HarmlessBySlots(fields, depth);
  }

  lemma ThoughtsWithheld(fields: seq<Field>)
    ensures forall key :: key in Dropped(fields) ==> IsThought(key)
  {
    DroppedAreThoughts(fields, |fields|);
  }

  lemma SameMembers(a: seq<string>, b: seq<string>)
    requires multiset(a) == multiset(b)
    ensures |a| == |b| && forall key :: key in a <==> key in b
  {
    assert |multiset(a)| == |multiset(b)|;
    forall key ensures key in a <==> key in b {
      assert key in multiset(a) <==> key in multiset(b);
    }
  }

  /** A redacted object is harmless exactly when each of its unmasked slots' values is. */
  lemma HarmlessBySlots(fields: seq<Field>, depth: nat)
    requires depth < MAX_DEPTH
    ensures Harmless(Redacted(Obj(fields), depth), depth)
            <==> forall e :: e in Slots(fields) && !IsSecret(e.key) ==> Harmless(SlotValue(e.content, depth), depth + 1)
  {
    hide IsThought, IsSecret, Slots, SlotValue;
    RedactedIsClean(Obj(fields), depth);
    var slots := Slots(fields);
    var out := Fields(slots, depth);
    assert Redacted(Obj(fields), depth) == Obj(out) && PlainKeys(out);
    forall i | 0 <= i < |slots|
      ensures out[i] == Field(slots[i].key, SlotValue(slots[i].content, depth)) && slots[i] in slots
    {}
  }

  /** Redacting what was already redacted changes nothing exactly when the payload was within these bounds. */
  lemma IdempotentIffStable(x: Json, depth: nat)
    ensures Redacted(Redacted(x, depth), depth) == Redacted(x, depth) <==> Stable(x, depth)
  {
    hide Redacted, Harmless, Stable;
    UntouchedIffHarmless(Redacted(x, depth), depth);
    RedactedIsHarmlessIff(x, depth);
  }

  /** A list of 52 items is one that a second redaction shortens once more. */
  lemma FiftyTwoItemsAreUnstable(depth: nat)
    requires depth < MAX_DEPTH
    ensures var x := Arr(seq(52, _ => Null));
            Redacted(Redacted(x, depth), depth) != Redacted(x, depth)
  {
    hide Redacted;
    var x := Arr(seq(52, _ => Null));
    IdempotentIffStable(x, depth);
  }

  /** A reasoning key at depth 4 leaves a list of withheld keys that a second redaction finds too deep. */
  lemma DeepThoughtsAreUnstable(value: Json)
    ensures var x := Arr([Arr([Arr([Arr([Obj([Field("thought", value)])])])])]);
            Redacted(Redacted(x, 0), 0) != Redacted(x, 0)
  {
    hide Redacted, IsThought, Slots;
    var fields := [Field("thought", value)];
    var x1 := Arr([Obj(fields)]);
    var x2 := Arr([x1]);
    var x3 := Arr([x2]);
    var x4 := Arr([x3]);
    ThoughtIsAThought();
    assert DroppedOfFirst(fields, 0) == [];
    assert Dropped(fields) == ["thought"];
    assert !Stable(Obj(fields), 4);
    UnstableInside(x1, 3);
    UnstableInside(x2, 2);
    UnstableInside(x3, 1);
    UnstableInside(x4, 0);
    IdempotentIffStable(x4, 0);
  }

  lemma UnstableInside(x: Json, depth: nat)
    requires depth < MAX_DEPTH && x.Arr? && |x.items| == 1 && !Stable(x.items[0], depth + 1)
    ensures !Stable(x, depth)
  {
  }

  lemma ThoughtIsAThought()
    ensures IsThought("thought")
  {
    Chunking.NothingToStrip("thought");
    NothingToLower("thought");
  }

  // ---- Nothing leaks ----------------------------------------------------------------------------------------

  /** The two payloads differ at most in what stands under reasoning keys and secrets. */
  ghost predicate SameInPublic(x: Json, y: Json)
    decreases x
  {
    match (x, y)
    case (Obj(f), Obj(g)) =>
      |f| == |g| && forall i :: 0 <= i < |f| ==>
        f[i].key == g[i].key && (IsThought(f[i].key) || IsSecret(f[i].key) || SameInPublic(f[i].value, g[i].value))
    case (Arr(a), Arr(b)) => |a| == |b| && forall i :: 0 <= i < |a| ==> SameInPublic(a[i], b[i])
    case _ => x == y
  }

  ghost predicate SameSlot(e: Entry<Slot>, e': Entry<Slot>) {
    e.key == e'.key &&
    if e.content.Kept? && e'.content.Kept? then SameInPublic(e.content.value, e'.content.value)
    else e.content == e'.content
  }

  ghost predicate SameSlots(a: seq<Entry<Slot>>, b: seq<Entry<Slot>>) {
    |a| == |b| && forall i :: 0 <= i < |a| ==> SameSlot(a[i], b[i])
  }

  lemma {:induction false} PutKeepsSame(a: seq<Entry<Slot>>, b: seq<Entry<Slot>>, key: string, slot: Slot, slot': Slot)
    requires SameSlots(a, b) && SameSlot(Entry(key, slot), Entry(key, slot'))
    ensures SameSlots(Put(a, key, slot), Put(b, key, slot'))
  {
    hide SameSlot;
    if a != [] {
      assert SameSlot(a[0], b[0]);
      SameKey(a[0], b[0]);
      if a[0].key != key { PutKeepsSame(a[1..], b[1..], key, slot, slot'); }
    }
  }

  lemma SameKey(e: Entry<Slot>, e': Entry<Slot>)
    requires SameSlot(e, e')
    ensures e.key == e'.key
  {
  }

  lemma {:induction false} SameSlotsOfFirst(f: seq<Field>, g: seq<Field>, n: nat)
    requires SameInPublic(Obj(f), Obj(g)) && n <= |f|
    ensures SameSlots(SlotsOfFirst(f, n), SlotsOfFirst(g, n)) && DroppedOfFirst(f, n) == DroppedOfFirst(g, n)
  {
    hide IsThought, IsSecret, Put;
    if n > 0 {
      SameSlotsOfFirst(f, g, n - 1);
      var a, b := f[n - 1], g[n - 1];
      if !IsThought(a.key) {
        PutKeepsSame(SlotsOfFirst(f, n - 1), SlotsOfFirst(g, n - 1), a.key,
                     if IsSecret(a.key) then Masked else Kept(a.value),
                     if IsSecret(b.key) then Masked else Kept(b.value));
      }
    }
  }

  /** No value under a reasoning key or a secret influences the result in any way. */
  lemma {:induction false} NothingLeaks(x: Json, y: Json, depth: nat)
    requires SameInPublic(x, y)
    ensures Redacted(x, depth) == Redacted(y, depth)
    decreases MAX_DEPTH - depth
  {
    hide IsThought, IsSecret, SlotsOfFirst, DroppedOfFirst, Sorted, More;
    if depth < MAX_DEPTH {
      if x.Obj? {
        FieldsDoNotLeak(x.fields, y.fields, depth);
      } else if x.Arr? {
        ItemsDoNotLeak(x.items, y.items, depth);
      }
    }
  }

  lemma {:induction false} ItemsDoNotLeak(a: seq<Json>, b: seq<Json>, depth: nat)
    requires SameInPublic(Arr(a), Arr(b)) && depth < MAX_DEPTH
    ensures Redacted(Arr(a), depth) == Redacted(Arr(b), depth)
    decreases MAX_DEPTH - depth, 0
  {
    hide IsThought, IsSecret, More;
    var n := Min(|a|, MAX_COLLECTION_ITEMS);
    forall i | 0 <= i < n ensures Redacted(a[i], depth + 1) == Redacted(b[i], depth + 1) {
      NothingLeaks(a[i], b[i], depth + 1);
    }
    assert Items(a, n, depth) == Items(b, n, depth);
  }

  lemma {:induction false} FieldsDoNotLeak(f: seq<Field>, g: seq<Field>, depth: nat)
    requires SameInPublic(Obj(f), Obj(g)) && depth < MAX_DEPTH
    ensures Redacted(Obj(f), depth) == Redacted(Obj(g), depth)
    decreases MAX_DEPTH - depth, 0
  {
    hide IsThought, IsSecret, SlotsOfFirst, DroppedOfFirst, Sorted, SameInPublic;
    SameSlotsOfFirst(f, g, |f|);
    SameLength(f, g);
    var withheld := Withheld(Sorted(Dropped(f)));
    PutKeepsSame(SlotsOfFirst(f, |f|), SlotsOfFirst(g, |g|), DROPPED_MARKER, withheld, withheld);
    var a, b := Slots(f), Slots(g);
    assert SameSlots(a, b);
    forall i | 0 <= i < |a| ensures SlotValue(a[i].content, depth) == SlotValue(b[i].content, depth) {
      assert SameSlot(a[i], b[i]);
      if a[i].content.Kept? && b[i].content.Kept? { NothingLeaks(a[i].content.value, b[i].content.value, depth + 1); }
    }
    assert Fields(a, depth) == Fields(b, depth);
  }

  lemma SameLength(f: seq<Field>, g: seq<Field>)
    requires SameInPublic(Obj(f), Obj(g))
    ensures |f| == |g|
  {
  }
}
