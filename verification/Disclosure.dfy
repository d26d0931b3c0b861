/**
 What redaction withholds and what it discloses, said of the payload alone: which names count as reasoning and as
 secrets, however they are written and qualified, and what becomes of each kind of value.
 */
module Disclosure {
  import opened Common
  import opened Redaction
  import Chunking

  // ---- Names ------------------------------------------------------------------------------------------------

  const REASONING: seq<string> := [
    "chain_of_thought", "cot", "deliberation", "inner_monologue", "raw_completion", "raw_response",
    "reasoning", "reasoning_trace", "scratchpad", "thinking", "thought", "thoughts"]

  const CREDENTIALS: seq<string> := [
    "access_token", "api_key", "apikey", "authorization", "client_secret", "credential", "credentials", "dsn",
    "password", "private_key", "refresh_token", "secret", "session_token", "token"]

  ghost predicate Blank(s: string) {
    forall i :: 0 <= i < |s| ==> Chunking.IsSpace(s[i])
  }

  /** The same letter in either case; the Kelvin sign is a K. */
  predicate SameLetter(c: char, n: char) {
    c == n || ('a' <= n <= 'z' && (c as int) + 32 == n as int) || (n == 'k' && c == '\U{212A}')
  }

  /** The name, in any letter case. */
  ghost predicate Spells(s: string, name: string) {
    |s| == |name| && forall i :: 0 <= i < |s| ==> SameLetter(s[i], name[i])
  }

  /** The key is this name but for white space around it. */
  ghost predicate Is(key: string, pre: string, spelled: string, post: string, name: string) {
    key == pre + spelled + post && Spells(spelled, name) && Blank(pre) && Blank(post)
  }

  /** The key ends in this name but for white space after it, and before the name stands an underscore or a dot. */
  ghost predicate EndsIn(key: string, pre: string, spelled: string, post: string, name: string) {
    key == pre + spelled + post && Spells(spelled, name) && Blank(post) && pre != [] && pre[|pre| - 1] in {'_', '.'}
  }

  ghost predicate NamesReasoning(key: string) {
    exists pre, spelled, post, name :: name in REASONING && Is(key, pre, spelled, post, name)
  }

  /** The key is this name, or a qualified one that ends in it. */
  ghost predicate IsOrEndsIn(key: string, name: string) {
    exists pre, spelled, post :: Is(key, pre, spelled, post, name) || EndsIn(key, pre, spelled, post, name)
  }

  ghost predicate NamesASecret(key: string) {
    exists name :: name in CREDENTIALS && IsOrEndsIn(key, name)
  }

  predicate Plain(name: string) {
    name != [] && forall i :: 0 <= i < |name| ==> 'a' <= name[i] <= 'z' || name[i] == '_'
  }

  lemma ListedReasoning()
    ensures forall name :: name in REASONING <==> name in THOUGHT_KEYS
    ensures forall name :: name in REASONING ==> Plain(name)
  {
    forall i | 0 <= i < |REASONING| ensures Plain(REASONING[i]) && REASONING[i] in THOUGHT_KEYS {}
  }

  lemma ListedCredentials()
    ensures forall name :: name in CREDENTIALS <==> name in SECRET_KEYS
    ensures forall name :: name in CREDENTIALS ==> Plain(name)
  {
    forall i | 0 <= i < |CREDENTIALS| ensures Plain(CREDENTIALS[i]) && CREDENTIALS[i] in SECRET_KEYS {}
  }

  /** Lowering a text gives a name exactly when the text spells it. */
  lemma LoweredIffSpelled(s: string, name: string)
    requires Plain(name)
    ensures Lower(s) == name <==> Spells(s, name)
  {
    if |s| == |name| {
      forall i | 0 <= i < |s| ensures LowerChar(s[i]) == name[i] <==> SameLetter(s[i], name[i]) {}
      assert Lower(s) == name <==> forall i :: 0 <= i < |s| ==> Lower(s)[i] == name[i];
    }
  }

  lemma SpelledIsInk(s: string, name: string, i: nat)
    requires Plain(name) && Spells(s, name) && i < |s|
    ensures !Chunking.IsSpace(s[i])
  {
  }

  /** Where the stripped key lies in the key. */
  lemma Stripped(key: string) returns (n: nat, m: nat)
    ensures n + m <= |key| && Chunking.Strip(key) == key[n..n + m] && Blank(key[..n]) && Blank(key[n + m..])
    ensures forall p :: 0 <= p < |key| && !Chunking.IsSpace(key[p]) ==> n <= p < n + m
    ensures m > 0 ==> !Chunking.IsSpace(key[n]) && !Chunking.IsSpace(key[n + m - 1])
  {
    hide Chunking.IsSpace, Chunking.Strip;
    n, m := Chunking.Leading(key), |Chunking.Strip(key)|;
    Chunking.StripKeeps(key);
  }

  lemma NormalisedIff(key: string, name: string)
    requires Plain(name)
    ensures Normalised(key) == name <==> exists pre, spelled, post :: Is(key, pre, spelled, post, name)
  {
    hide Chunking.IsSpace, Chunking.Strip, Spells, Lower;
    var n, m := Stripped(key);
    LoweredIffSpelled(key[n..n + m], name);
    if Normalised(key) == name {
      assert key == key[..n] + key[n..n + m] + key[n + m..];
      assert Is(key, key[..n], key[n..n + m], key[n + m..], name);
    }
    if pre, spelled, post :| Is(key, pre, spelled, post, name) {
      Located(key, pre, spelled, post, name);
      assert Blank(pre);
      NothingBefore(key, pre, spelled, post, n, m);
    }
  }

  /** Where a spelled name stands in the key, and that its ends are not white space. */
  lemma Located(key: string, pre: string, spelled: string, post: string, name: string)
    requires key == pre + spelled + post && Plain(name) && Spells(spelled, name)
    ensures spelled != [] && key[|pre|..|pre| + |spelled|] == spelled
    ensures !Chunking.IsSpace(key[|pre|]) && !Chunking.IsSpace(key[|pre| + |spelled| - 1])
  {
    hide Chunking.IsSpace;
    SpelledIsInk(spelled, name, 0);
    SpelledIsInk(spelled, name, |spelled| - 1);
    assert key[|pre|] == spelled[0] && key[|pre| + |spelled| - 1] == spelled[|spelled| - 1];
  }

  lemma NothingBefore(key: string, pre: string, spelled: string, post: string, n: nat, m: nat)
    requires key == pre + spelled + post && spelled != [] && Blank(pre) && Blank(post) && n + m <= |key|
    requires !Chunking.IsSpace(key[|pre|]) && !Chunking.IsSpace(key[|pre| + |spelled| - 1])
    requires forall p :: 0 <= p < |key| && !Chunking.IsSpace(key[p]) ==> n <= p < n + m
    requires m > 0 ==> !Chunking.IsSpace(key[n]) && !Chunking.IsSpace(key[n + m - 1])
    ensures n == |pre| && m == |spelled|
  {
    hide Chunking.IsSpace;
    assert forall k :: 0 <= k < |pre| ==> key[k] == pre[k];
    EndsThere(key, pre, spelled, post, n, m);
  }

  lemma EndsThere(key: string, pre: string, spelled: string, post: string, n: nat, m: nat)
    requires key == pre + spelled + post && spelled != [] && Blank(post) && n + m <= |key|
    requires !Chunking.IsSpace(key[|pre| + |spelled| - 1])
    requires forall p :: 0 <= p < |key| && !Chunking.IsSpace(key[p]) ==> n <= p < n + m
    requires m > 0 ==> !Chunking.IsSpace(key[n + m - 1])
    ensures n + m == |pre| + |spelled|
  {
    hide Chunking.IsSpace;
    var end := |pre| + |spelled|;
    assert forall k :: 0 <= k < |post| ==> key[end + k] == post[k];
    assert forall p :: end <= p < |key| ==> key[p] == post[p - end];
  }

  /** A key counts as reasoning exactly when it is one of the listed names, in any case, with any white space around. */
  lemma ReasoningIff(key: string)
    ensures IsThought(key) <==> NamesReasoning(key)
  {
    hide Normalised, Is, Plain;
    ListedReasoning();
    forall name | name in REASONING
      ensures Normalised(key) == name <==> exists pre, spelled, post :: Is(key, pre, spelled, post, name)
    {
      NormalisedIff(key, name);
    }
  }

  /** The stripped, lowered key ends in a mark and a name exactly when the key does. */
  lemma QualifiedIff(key: string, name: string)
    requires Plain(name)
    ensures EndsWith(Normalised(key), "_" + name) || EndsWith(Normalised(key), "." + name)
            <==> exists pre, spelled, post :: EndsIn(key, pre, spelled, post, name)
  {
    hide Chunking.IsSpace, Chunking.Strip, EndsIn, Lower, EndsWith;
    var n, m := Stripped(key);
    SuffixIff(key[n..n + m], name);
    if EndsWith(Normalised(key), "_" + name) || EndsWith(Normalised(key), "." + name) {
      SuffixMeansQualified(key, name, n, m);
    }
    if pre, spelled, post :| EndsIn(key, pre, spelled, post, name) {
      QualifiedMeansSuffix(key, pre, spelled, post, name, n, m);
    }
  }

  lemma SuffixMeansQualified(key: string, name: string, n: nat, m: nat)
    requires n + m <= |key| && Blank(key[n + m..]) && m > |name|
    requires var s := key[n..n + m]; s[m - |name| - 1] in {'_', '.'} && Spells(s[m - |name|..], name)
    ensures exists pre, spelled, post :: EndsIn(key, pre, spelled, post, name)
  {
    hide Chunking.IsSpace, Spells, Blank;
    var at, stripped := n + m - |name|, key[n..n + m];
    assert key == key[..at] + key[at..n + m] + key[n + m..];
    assert key[at..n + m] == stripped[m - |name|..] && key[..at][at - 1] == stripped[m - |name| - 1];
    assert EndsIn(key, key[..at], key[at..n + m], key[n + m..], name);
  }

  lemma QualifiedMeansSuffix(key: string, pre: string, spelled: string, post: string, name: string, n: nat, m: nat)
    requires EndsIn(key, pre, spelled, post, name) && Plain(name) && n + m <= |key|
    requires forall p :: 0 <= p < |key| && !Chunking.IsSpace(key[p]) ==> n <= p < n + m
    requires m > 0 ==> !Chunking.IsSpace(key[n + m - 1])
    ensures m > |name|
    ensures var s := key[n..n + m]; s[m - |name| - 1] in {'_', '.'} && Spells(s[m - |name|..], name)
  {
    hide Chunking.IsSpace, Spells;
    var stripped := key[n..n + m];
    Located(key, pre, spelled, post, name);
    SpelledLength(spelled, name);
    EndsThere(key, pre, spelled, post, n, m);
    assert key[|pre| - 1] == pre[|pre| - 1];
    MarksAreInk(pre[|pre| - 1]);
    assert stripped[m - |name|..] == spelled && stripped[m - |name| - 1] == pre[|pre| - 1];
  }

  lemma SpelledLength(s: string, name: string)
    requires Spells(s, name)
    ensures |s| == |name|
  {
  }

  lemma MarksAreInk(c: char)
    requires c in {'_', '.'}
    ensures !Chunking.IsSpace(c)
  {
  }

  /** The same of a text that has been stripped. */
  lemma SuffixIff(s: string, name: string)
    requires Plain(name)
    ensures EndsWith(Lower(s), "_" + name) || EndsWith(Lower(s), "." + name)
            <==> && |s| > |name| && s[|s| - |name| - 1] in {'_', '.'}
                 && Spells(s[|s| - |name|..], name)
  {
    hide Spells, Plain;
    if |s| > |name| {
      var k := |s| - |name|;
      LoweredIffSpelled(s[k..], name);
      assert Lower(s)[k..] == Lower(s[k..]);
      SplitSuffix(Lower(s), "_", name);
      SplitSuffix(Lower(s), ".", name);
      assert LowerChar(s[k - 1]) == '_' <==> s[k - 1] == '_';
      assert LowerChar(s[k - 1]) == '.' <==> s[k - 1] == '.';
    }
  }

  lemma SplitSuffix(s: string, mark: string, name: string)
    requires |mark| == 1 && |s| > |name|
    ensures EndsWith(s, mark + name) <==> s[|s| - |name|..] == name && s[|s| - |name| - 1] == mark[0]
  {
    var k := |s| - |name|;
    assert s[k - 1..] == [s[k - 1]] + s[k..];
    assert (mark + name)[1..] == name && (mark + name)[0] == mark[0];
    assert s[k - 1..][1..] == s[k..];
  }

  /**
   A key counts as a secret exactly when it is one of the listed names or ends in one after an underscore or a dot,
   in any case, with any white space around.
   */
  lemma SecretIff(key: string)
    ensures IsSecret(key) <==> NamesASecret(key)
  {
    hide Normalised, IsOrEndsIn, Plain, EndsWith;
    ListedCredentials();
    forall name | name in CREDENTIALS
      ensures IsOrEndsIn(key, name) <==>
              || Normalised(key) == name
              || EndsWith(Normalised(key), "_" + name) || EndsWith(Normalised(key), "." + name)
    {
      SecretNameIff(key, name);
    }
  }

  lemma SecretNameIff(key: string, name: string)
    requires Plain(name)
    ensures IsOrEndsIn(key, name) <==>
            || Normalised(key) == name
            || EndsWith(Normalised(key), "_" + name) || EndsWith(Normalised(key), "." + name)
  {
    hide Normalised, Is, EndsIn, EndsWith, Plain;
    NormalisedIff(key, name);
    QualifiedIff(key, name);
  }

  // ---- One field --------------------------------------------------------------------------------------------

  /**
   A single field under a reasoning name leaves only the marker that lists the name; under a secret name it keeps the
   name but not the value; under any other name it keeps its value, redacted in turn.
   */
  lemma OneField(key: string, value: Json, depth: nat)
    requires depth < 6
    ensures Redacted(Obj([Field(key, value)]), depth) == Obj([
              if NamesReasoning(key) then Field("__redacted_keys__", Arr([Str(key)]))
              else if NamesASecret(key) then Field(key, Str("***"))
              else Field(key, Redacted(value, depth + 1))])
  {
    hide IsThought, IsSecret, NamesReasoning, NamesASecret, Redacted;
    var fields := [Field(key, value)];
    ReasoningIff(key);
    SecretIff(key);
    OneSlot(fields);
    assert Redacted(Obj(fields), depth) == Obj(Fields(Slots(fields), depth)) by { ObjectsBySlots(fields, depth); }
    var out := Fields(Slots(fields), depth);
    assert |out| == 1;
    OneWithheld(key);
    assert out[0] == Field(Slots(fields)[0].key, SlotValue(Slots(fields)[0].content, depth));
  }

  lemma ObjectsBySlots(fields: seq<Field>, depth: nat)
    requires depth < MAX_DEPTH
    ensures Redacted(Obj(fields), depth) == Obj(Fields(Slots(fields), depth))
  {
  }

  lemma OneWithheld(key: string)
    ensures Sorted([key]) == [key] && Arr(Strings([key])) == Arr([Str(key)])
  {
    assert Strings([key]) == [Str(key)];
  }

  lemma OneSlot(fields: seq<Field>)
    requires |fields| == 1
    ensures Slots(fields) == [
              if IsThought(fields[0].key) then Entry(DROPPED_MARKER, Withheld(Sorted([fields[0].key])))
              else Entry(fields[0].key, if IsSecret(fields[0].key) then Masked else Kept(fields[0].value))]
  {
    hide IsThought, IsSecret, Sorted;
    assert SlotsOfFirst(fields, 0) == [] && DroppedOfFirst(fields, 0) == [];
    assert DroppedOfFirst(fields, 1) == if IsThought(fields[0].key) then [fields[0].key] else [];
  }

  /** How the names of reasoning end. */
  predicate EndsLikeReasoning(s: string) {
    var n := |s|;
    && n >= 3
    && (s[n - 1] == 'n' ==> (s[n - 2] == 'o' && (n == 12 || (n == 14 && s[n - 5] == 'e'))))
    && (s[n - 1] == 't' ==> s[n - 2] != 'e') && (s[n - 1] == 's' ==> s[n - 2] == 't')
    && (s[n - 1] == 'd' ==> s[n - 2] == 'a') && s[n - 1] !in {'y', 'l'}
  }

  /** How the names of secrets end. */
  predicate EndsLikeASecret(s: string) {
    var n := |s|;
    && n >= 3
    && (s[n - 1] == 'n' ==> s[n - 2] != 'o' || (n == 13 && s[n - 5] == 'a'))
    && (s[n - 1] == 't' ==> s[n - 2] == 'e') && (s[n - 1] == 's' ==> s[n - 2] == 'l')
    && (s[n - 1] == 'd' ==> s[n - 2] == 'r') && s[n - 1] in {'n', 't', 's', 'd', 'y', 'l'}
  }

  lemma ReasoningEndings(name: string)
    ensures name in THOUGHT_KEYS ==> EndsLikeReasoning(name)
  {
  }

  lemma SecretEndings(name: string)
    ensures name in SECRET_KEYS ==> EndsLikeASecret(name)
  {
  }

  lemma EndOtherwise(thought: string, mark: string, secret: string)
    requires EndsLikeReasoning(thought) && EndsLikeASecret(secret) && |mark| == 1
    ensures thought != secret && !EndsWith(thought, mark + secret)
  {
    hide EndsWith;
    var m, n := |thought|, |secret|;
    if thought[m - 1] != secret[n - 1] {
      OtherCharacter(thought, mark, secret, 1);
    } else if thought[m - 2] != secret[n - 2] {
      OtherCharacter(thought, mark, secret, 2);
    } else if m > n {
      OtherCharacter(thought, mark, secret, 5);
    } else {
      TooShort(thought, mark, secret);
    }
  }

  lemma TooShort(s: string, mark: string, secret: string)
    requires |mark| == 1 && |s| <= |secret|
    ensures !EndsWith(s, mark + secret)
  {
  }

  /** No key names both reasoning and a secret. */
  lemma NotBoth(key: string)
    ensures !(NamesReasoning(key) && NamesASecret(key))
  {
    hide EndsLikeReasoning, EndsLikeASecret, NamesReasoning, NamesASecret;
    ReasoningIff(key);
    SecretIff(key);
    NotBothListed(Normalised(key));
  }

  lemma NotBothListed(lowered: string)
    ensures lowered in THOUGHT_KEYS ==>
              lowered !in SECRET_KEYS
              && forall secret :: secret in SECRET_KEYS ==>
                   !EndsWith(lowered, "_" + secret) && !EndsWith(lowered, "." + secret)
  {
    hide EndsLikeReasoning, EndsLikeASecret, EndsWith;
    ReasoningEndings(lowered);
    forall secret | secret in SECRET_KEYS
      ensures EndsLikeReasoning(lowered) ==>
                lowered != secret && !EndsWith(lowered, "_" + secret) && !EndsWith(lowered, "." + secret)
    {
      SecretEndings(secret);
      if EndsLikeReasoning(lowered) {
        EndOtherwise(lowered, "_", secret);
        EndOtherwise(lowered, ".", secret);
      }
    }
  }

  /**
   However a secret's name is written and qualified, its value is masked: any listed name, in any letter case, with any
   white space around, alone or after any prefix that ends in an underscore or a dot.
   */
  lemma SecretsAreMasked(pre: string, spelled: string, post: string, name: string, value: Json, depth: nat)
    requires name in CREDENTIALS && Spells(spelled, name) && Blank(post) && depth < 6
    requires Blank(pre) || (pre != [] && pre[|pre| - 1] in {'_', '.'})
    ensures Redacted(Obj([Field(pre + spelled + post, value)]), depth) == Obj([Field(pre + spelled + post, Str("***"))])
  {
    hide Redacted, NamesReasoning, Spells, Blank;
    var key := pre + spelled + post;
    assert Is(key, pre, spelled, post, name) || EndsIn(key, pre, spelled, post, name);
    assert IsOrEndsIn(key, name);
    NotBoth(key);
    OneField(key, value, depth);
  }

  /** A name that only begins like a secret's is not one: the version of a password policy is disclosed. */
  lemma PolicyVersionIsDisclosed(value: Json, depth: nat)
    requires depth < 6
    ensures Redacted(Obj([Field("password_policy_version", value)]), depth)
            == Obj([Field("password_policy_version", Redacted(value, depth + 1))])
  {
    hide Redacted, NamesReasoning, NamesASecret;
    var key := "password_policy_version";
    VersionIsUnlisted(key);
    OneField(key, value, depth);
  }

  lemma VersionIsUnlisted(key: string)
    requires key == "password_policy_version"
    ensures !NamesReasoning(key) && !NamesASecret(key)
  {
    hide IsThought, IsSecret, NamesReasoning, NamesASecret;
    VersionIsPlain(key);
    ReasoningIff(key);
    SecretIff(key);
  }

  lemma VersionIsPlain(key: string)
    requires key == "password_policy_version"
    ensures !IsThought(key) && !IsSecret(key)
  {
    hide EndsWith, Normalised;
    Chunking.NothingToStrip(key);
    NothingToLower(key);
    NormalisedIs(key);
    forall secret | secret in SECRET_KEYS ensures !EndsWith(key, "_" + secret) && !EndsWith(key, "." + secret) {
      NotAVersion(key, "_", secret);
      NotAVersion(key, ".", secret);
    }
  }

  lemma NormalisedIs(key: string)
    requires Chunking.Strip(key) == key && Lower(key) == key
    ensures Normalised(key) == key
  {
  }

  lemma NotAVersion(key: string, mark: string, secret: string)
    requires key == "password_policy_version" && secret in SECRET_KEYS && |mark| == 1
    ensures !EndsWith(key, mark + secret)
  {
    var n := |secret|;
    CredentialEndings(secret);
    if secret[n - 1] != 'n' {
      OtherCharacter(key, mark, secret, 1);
    } else if secret[n - 2] != 'o' {
      OtherCharacter(key, mark, secret, 2);
    } else {
      OtherCharacter(key, mark, secret, 4);
    }
  }

  lemma OtherCharacter(s: string, mark: string, secret: string, k: nat)
    requires |mark| == 1 && 1 <= k <= |secret| && k <= |s| && s[|s| - k] != secret[|secret| - k]
    ensures !EndsWith(s, mark + secret)
  {
    var suffix := mark + secret;
    assert suffix[|suffix| - k] == secret[|secret| - k];
    assert |suffix| <= |s| ==> s[|s| - |suffix|..][|suffix| - k] == s[|s| - k];
  }

  /** No listed name ends like a version does. */
  lemma CredentialEndings(secret: string)
    requires secret in SECRET_KEYS
    ensures var n := |secret|;
            n >= 2 && (secret[n - 1] != 'n' || secret[n - 2] != 'o' || (n >= 4 && secret[n - 4] != 's'))
  {
  }

  // ---- Whole objects ----------------------------------------------------------------------------------------

  /** The last of the first `n` fields under this key. */
  function LastUnder(fields: seq<Field>, key: string, n: nat): (last: Option<nat>)
    requires n <= |fields|
    ensures last.Some? ==> last.value < n && fields[last.value].key == key
    ensures last.Some? ==> forall i :: last.value < i < n ==> fields[i].key != key
    ensures last.None? ==> forall i :: 0 <= i < n ==> fields[i].key != key
  {
    if n == 0 then None else if fields[n - 1].key == key then Some(n - 1) else LastUnder(fields, key, n - 1)
  }

  /** The keys among the first `n` that name reasoning, in the order they come. */
  ghost function ReasoningKeys(fields: seq<Field>, n: nat): seq<string>
    requires n <= |fields|
  {
    if n == 0 then []
    else if NamesReasoning(fields[n - 1].key) then ReasoningKeys(fields, n - 1) + [fields[n - 1].key]
    else ReasoningKeys(fields, n - 1)
  }

  lemma {:induction false} DroppedAre(fields: seq<Field>, n: nat)
    requires n <= |fields|
    ensures DroppedOfFirst(fields, n) == ReasoningKeys(fields, n)
  {
    hide IsThought, NamesReasoning;
    if n > 0 {
      DroppedAre(fields, n - 1);
      ReasoningIff(fields[n - 1].key);
    }
  }

  /** Setting a key gives it its content and leaves the others theirs. */
  lemma {:induction false} PutLooksUp<T>(entries: seq<Entry<T>>, key: string, content: T, e: Entry<T>)
    requires Distinct(entries)
    ensures e in Put(entries, key, content) <==> if e.key == key then e.content == content else e in entries
  {
    if entries != [] {
      var tail := entries[1..];
      assert entries == [entries[0]] + tail;
      assert Distinct(tail);
      if entries[0].key == key {
        assert forall i :: 0 <= i < |tail| ==> tail[i] == entries[i + 1];
        assert e in [Entry(key, content)] + tail <==> e == Entry(key, content) || e in tail;
      } else {
        PutLooksUp(tail, key, content, e);
        assert e in [entries[0]] + Put(tail, key, content) <==> e == entries[0] || e in Put(tail, key, content);
      }
    }
  }

  /** What the first `n` fields leave under a key: the last of its values, or its mask, unless it names reasoning. */
  lemma {:induction false} SlotUnder(fields: seq<Field>, n: nat, e: Entry<Slot>)
    requires n <= |fields|
    ensures e in SlotsOfFirst(fields, n)
            <==> && LastUnder(fields, e.key, n).Some? && !IsThought(e.key)
                 && e.content == if IsSecret(e.key) then Masked
                                 else Kept(fields[LastUnder(fields, e.key, n).value].value)
  {
    hide IsThought, IsSecret, Distinct, Put;
    if n > 0 {
      SlotUnder(fields, n - 1, e);
      SlotsOfFirstFit(fields, n - 1);
      var f := fields[n - 1];
      if !IsThought(f.key) {
        PutLooksUp(SlotsOfFirst(fields, n - 1), f.key, if IsSecret(f.key) then Masked else Kept(f.value), e);
      }
    }
  }

  /** Code point order: a text comes before those it begins, and before those larger where the two first differ. */
  lemma {:induction false} OrderIs(a: string, b: string)
    ensures Precedes(a, b) <==> a <= b || exists k :: 0 <= k < |a| && k < |b| && a[..k] == b[..k] && a[k] < b[k]
  {
    if a != [] && b != [] && a[0] == b[0] {
      OrderIs(a[1..], b[1..]);
      assert a == [a[0]] + a[1..] && b == [b[0]] + b[1..];
      if k :| 0 <= k < |a| && k < |b| && a[..k] == b[..k] && a[k] < b[k] {
        PartLater(a, b, k);
      }
      if k :| 0 <= k < |a[1..]| && k < |b[1..]| && a[1..][..k] == b[1..][..k] && a[1..][k] < b[1..][k] {
        assert a[..k + 1] == [a[0]] + a[1..][..k] && b[..k + 1] == [b[0]] + b[1..][..k];
        assert a[k + 1] < b[k + 1];
      }
    } else if a != [] && b != [] && a[0] < b[0] {
      assert a[..0] == b[..0];
    }
  }

  lemma PartLater(a: string, b: string, k: nat)
    requires k < |a| && k < |b| && a[..k] == b[..k] && a[k] < b[k] && a[0] == b[0]
    ensures k > 0 && a[1..][..k - 1] == b[1..][..k - 1] && a[1..][k - 1] < b[1..][k - 1]
  {
    assert a[1..][..k - 1] == a[..k][1..] && b[1..][..k - 1] == b[..k][1..];
  }

  /** The list of the keys that were withheld: in order, and each as often as it occurred. */
  ghost predicate ListsWithheld(value: Json, fields: seq<Field>) {
    exists keys :: value == Arr(Strings(keys)) && InOrder(keys)
                   && multiset(keys) == multiset(ReasoningKeys(fields, |fields|))
  }

  /**
   What an object discloses. If any of its keys names reasoning there is a marker that lists those keys, whatever the
   object itself held under that name; no other such key is left. Under every other key stands a mask, if it names a
   secret, or the last value the object held there, redacted in turn. Nothing else is added.
   */
  lemma ObjectDiscloses(fields: seq<Field>, depth: nat, f: Field)
    requires depth < 6
    ensures Redacted(Obj(fields), depth).Obj?
    ensures var out, last := Redacted(Obj(fields), depth).fields, LastUnder(fields, f.key, |fields|);
            if f.key == "__redacted_keys__" && ReasoningKeys(fields, |fields|) != []
            then (f in out ==> ListsWithheld(f.value, fields)) && exists g :: g in out && g.key == f.key
            else f in out <==>
                 && last.Some? && !NamesReasoning(f.key)
                 && f.value == if NamesASecret(f.key) then Str("***")
                               else Redacted(fields[last.value].value, depth + 1)
    ensures var out := Redacted(Obj(fields), depth).fields;
            forall i, j :: 0 <= i < j < |out| ==> out[i].key != out[j].key
  {
    hide IsThought, IsSecret, NamesReasoning, NamesASecret, Redacted, Sorted, ListsWithheld;
    ObjectsBySlots(fields, depth);
    ReasoningIff(f.key);
    SecretIff(f.key);
    DroppedAre(fields, |fields|);
    SlotsFit(fields);
    MarkerIsOrdinary();
    FieldsUnder(fields, depth, f);
    if ReasoningKeys(fields, |fields|) != [] { WithheldAreListed(fields); }
  }

  lemma WithheldAreListed(fields: seq<Field>)
    ensures ListsWithheld(Arr(Strings(Sorted(Dropped(fields)))), fields)
  {
    hide Sorted, InOrder, ReasoningKeys;
    DroppedAre(fields, |fields|);
    SortedSorts(Dropped(fields));
  }

  /** Which fields an object's slots give rise to. */
  lemma FieldsUnder(fields: seq<Field>, depth: nat, f: Field)
    requires depth < MAX_DEPTH
    ensures var out, last := Fields(Slots(fields), depth), LastUnder(fields, f.key, |fields|);
            if f.key == DROPPED_MARKER && Dropped(fields) != []
            then && (f in out ==> f.value == Arr(Strings(Sorted(Dropped(fields)))))
                 && exists g :: g in out && g.key == f.key
            else f in out <==>
                 && last.Some? && !IsThought(f.key)
                 && f.value == if IsSecret(f.key) then REDACTED else Redacted(fields[last.value].value, depth + 1)
    ensures Distinct(Slots(fields)) ==>
              var out := Fields(Slots(fields), depth);
              forall i, j :: 0 <= i < j < |out| ==> out[i].key != out[j].key
  {
    hide IsThought, IsSecret, Redacted, Sorted, Dropped, SlotsOfFirst, LastUnder;
    SlotsFit(fields);
    var slots, out := Slots(fields), Fields(Slots(fields), depth);
    if f in out {
      var i :| 0 <= i < |out| && out[i] == f;
      assert slots[i] in slots;
      OneOfTheSlots(fields, slots[i]);
    }
    if f.key == DROPPED_MARKER && Dropped(fields) != [] {
      var k :| 0 <= k < |slots| && slots[k] == Entry(DROPPED_MARKER, Withheld(Sorted(Dropped(fields))));
      assert out[k] in out && out[k].key == f.key;
    } else if LastUnder(fields, f.key, |fields|).Some? && !IsThought(f.key) {
      var slot := if IsSecret(f.key) then Masked else Kept(fields[LastUnder(fields, f.key, |fields|).value].value);
      OneOfTheSlots(fields, Entry(f.key, slot));
      var k :| 0 <= k < |slots| && slots[k] == Entry(f.key, slot);
      assert out[k] == Field(f.key, SlotValue(slot, depth));
    }
  }

  lemma OneOfTheSlots(fields: seq<Field>, e: Entry<Slot>)
    ensures e in Slots(fields) <==>
            if e.key == DROPPED_MARKER && Dropped(fields) != [] then e.content == Withheld(Sorted(Dropped(fields)))
            else && LastUnder(fields, e.key, |fields|).Some? && !IsThought(e.key)
                 && e.content == if IsSecret(e.key) then Masked
                                 else Kept(fields[LastUnder(fields, e.key, |fields|).value].value)
  {
    hide IsThought, IsSecret, Sorted, Dropped, SlotsOfFirst, Put, Distinct;
    SlotUnder(fields, |fields|, e);
    SlotsOfFirstFit(fields, |fields|);
    if Dropped(fields) != [] {
      PutLooksUp(SlotsOfFirst(fields, |fields|), DROPPED_MARKER, Withheld(Sorted(Dropped(fields))), e);
    }
  }

  // ---- Other values -----------------------------------------------------------------------------------------

  /** The number a text of digits stands for. */
  function Parsed(s: string): nat
    requires forall i :: 0 <= i < |s| ==> '0' <= s[i] <= '9'
  {
    if s == [] then 0 else 10 * Parsed(s[..|s| - 1]) + (s[|s| - 1] as int - '0' as int)
  }

  /** A number's digits read back as the number, without leading zeros. */
  lemma {:induction false} DigitsRoundTrip(n: nat)
    ensures var s := Digits(n);
            && s != [] && (forall i :: 0 <= i < |s| ==> '0' <= s[i] <= '9')
            && Parsed(s) == n && (|s| > 1 ==> s[0] != '0')
  {
    OneDigit(n % 10);
    if n >= 10 {
      DigitsRoundTrip(n / 10);
      var s := Digits(n);
      assert s[..|s| - 1] == Digits(n / 10);
    }
  }

  lemma OneDigit(d: nat)
    requires d < 10
    ensures "0123456789"[d] as int == '0' as int + d && Digits(d) == ["0123456789"[d]] && Parsed(Digits(d)) == d
  {
    assert Digits(d)[..0] == [];
  }

  /** A long text is cut after 2000 characters and says so; a short one, and what is not text, is disclosed as it is. */
  lemma ScalarsAre(x: Json, depth: nat)
    requires depth < 6
    ensures x.Str? || x.Other? ==>
              var s := if x.Str? then x.s else x.text;
              Redacted(x, depth) == Str(if |s| <= 2000 then s else s[..2000] + "\U{2026}[truncated]")
    ensures x.Null? || x.Bool? || x.Number? ==> Redacted(x, depth) == x
  {
  }

  /** Six levels down nothing is disclosed any more, whatever it is. */
  lemma TooDeepIs(x: Json, depth: nat)
    requires depth >= 6
    ensures Redacted(x, depth) == Str("\U{2026}[max depth exceeded]")
  {
  }

  /** Of a list the first 50 items are disclosed, in order and each redacted in turn, and how many more there were. */
  lemma ListsAre(items: seq<Json>, depth: nat)
    requires depth < 6
    ensures Redacted(Arr(items), depth).Arr?
    ensures var out := Redacted(Arr(items), depth).items;
            && |out| == (if |items| <= 50 then |items| else 51)
            && (forall i :: 0 <= i < |items| && i < 50 ==> out[i] == Redacted(items[i], depth + 1))
            && (|items| > 50 ==> out[50] == Str("\U{2026}[" + Digits(|items| - 50) + " more]"))
  {
    hide Digits;
  }
}
