/** Scrubbing JSON for the support bundle: members with secret-shaped keys are dropped and
    long strings replaced by their length. */
module Scrub {
  import opened Basics
  import Chunked = ChunkedBody

  datatype Json =
    | Null
    | Bool(flag: bool)
    | Number(text: string)
    | Str(value: string)
    | Arr(items: seq<Json>)
    | Obj(members: seq<Member>)

  datatype Member = Member(key: string, value: Json)

  // ---------------------------------------------------------------- secret-shaped keys

  function LowerChar(c: char): char {
    if 'A' <= c <= 'Z' then (c as int + 32) as char else c
  }

  function Lower(s: string): string {
    if s == "" then "" else [LowerChar(s[0])] + Lower(s[1..])
  }

  predicate StartsWith(s: string, prefix: string) {
    prefix <= s
  }

  predicate EndsWith(s: string, suffix: string) {
    |suffix| <= |s| && s[|s| - |suffix|..] == suffix
  }

  predicate Contains(s: string, part: string) {
    exists i :: 0 <= i <= |s| && part <= s[i..]
  }

  predicate SecretShaped(key: string) {
    var k := Lower(key);
    || EndsWith(k, "_key") || k == "key" || EndsWith(k, "_token") || k == "token"
    || Contains(k, "secret") || Contains(k, "password") || Contains(k, "credential")
    || StartsWith(k, "everyaios_") || EndsWith(k, "_api") || k == "authorization"
  }

  /** The two characters are one ASCII letter in some case, or the same. */
  predicate SameLetter(a: char, b: char) {
    a == b || ('A' <= a <= 'Z' && b as int == a as int + 32) || ('A' <= b <= 'Z' && a as int == b as int + 32)
  }

  /** The word stands at this place of the key, in any case. */
  predicate WordAt(key: string, word: string, at: int) {
    0 <= at <= |key| - |word| && forall i :: 0 <= i < |word| ==> SameLetter(key[at + i], word[i])
  }

  ghost predicate WordIn(key: string, word: string) {
    exists at :: WordAt(key, word, at)
  }

  predicate WordLast(key: string, word: string) {
    WordAt(key, word, |key| - |word|)
  }

  predicate IsWord(key: string, word: string) {
    |key| == |word| && WordAt(key, word, 0)
  }

  /** What no bundle may hold: a key, a token, anything called secret, password or credential,
      an API entry, an authorization, or one of the app's own variables, in any case. */
  ghost predicate NamesSecret(key: string) {
    || WordIn(key, "secret") || WordIn(key, "password") || WordIn(key, "credential")
    || WordAt(key, "everyaios_", 0)
    || WordLast(key, "_key") || WordLast(key, "_token") || WordLast(key, "_api")
    || IsWord(key, "key") || IsWord(key, "token") || IsWord(key, "authorization")
  }

  lemma {:induction false} Lowered(s: string)
    ensures |Lower(s)| == |s| && forall i :: 0 <= i < |s| ==> Lower(s)[i] == LowerChar(s[i])
  {
    if s != "" {
      Lowered(s[1..]);
    }
  }

  /** A word that has no capital letters. */
  predicate Small(word: string) {
    forall i :: 0 <= i < |word| ==> !('A' <= word[i] <= 'Z')
  }

  lemma WordPlace(key: string, word: string, at: int)
    requires Small(word) && 0 <= at <= |key| - |word|
    ensures |Lower(key)| == |key| && (WordAt(key, word, at) <==> word <= Lower(key)[at..])
  {
    Lowered(key);
    if word <= Lower(key)[at..] {
      forall i | 0 <= i < |word| ensures SameLetter(key[at + i], word[i]) {
        assert word[i] == Lower(key)[at..][i];
      }
    }
    if WordAt(key, word, at) {
      forall i | 0 <= i < |word| ensures word[i] == Lower(key)[at..][i] {
        assert SameLetter(key[at + i], word[i]);
      }
    }
  }

  lemma Inside(key: string, word: string)
    requires Small(word)
    ensures Contains(Lower(key), word) <==> WordIn(key, word)
  {
    Lowered(key);
    if Contains(Lower(key), word) {
      var i :| 0 <= i <= |Lower(key)| && word <= Lower(key)[i..];
      WordPlace(key, word, i);
    }
    if WordIn(key, word) {
      var at :| WordAt(key, word, at);
      WordPlace(key, word, at);
    }
  }

  lemma AtEnd(key: string, word: string)
    requires Small(word)
    ensures EndsWith(Lower(key), word) <==> WordLast(key, word)
  {
    Lowered(key);
    if |word| <= |key| {
      WordPlace(key, word, |key| - |word|);
    }
  }

  lemma AtStart(key: string, word: string)
    requires Small(word)
    ensures StartsWith(Lower(key), word) <==> WordAt(key, word, 0)
  {
    Lowered(key);
    if |word| <= |key| {
      WordPlace(key, word, 0);
      assert Lower(key)[0..] == Lower(key);
    }
  }

  lemma Whole(key: string, word: string)
    requires Small(word)
    ensures Lower(key) == word <==> IsWord(key, word)
  {
    Lowered(key);
    AtStart(key, word);
  }

  /** The words are written small. */
  lemma SmallWords()
    ensures Small("secret") && Small("password") && Small("credential") && Small("everyaios_")
    ensures Small("_key") && Small("_token") && Small("_api")
    ensures Small("key") && Small("token") && Small("authorization")
  {
  }

  /** The test on the lower-cased key finds exactly these. */
  lemma SecretExactly(key: string)
    ensures SecretShaped(key) <==> NamesSecret(key)
  {
    SmallWords();
    Inside(key, "secret");
    Inside(key, "password");
    Inside(key, "credential");
    AtStart(key, "everyaios_");
    AtEnd(key, "_key");
    AtEnd(key, "_token");
    AtEnd(key, "_api");
    Whole(key, "key");
    Whole(key, "token");
    Whole(key, "authorization");
  }

  // ---------------------------------------------------------------- scrubbing

  /** The length of a text in UTF-8. */
  function ByteLength(s: string): nat {
    if s == "" then 0
    else
      var c := s[0] as int;
      (if c < 0x80 then 1 else if c < 0x800 then 2 else if c < 0x10000 then 3 else 4) + ByteLength(s[1..])
  }

  function LengthMark(bytes: nat): string {
    "<" + Decimal(bytes) + " bytes>"
  }

  function ScrubText(s: string, maxLength: nat): string {
    if ByteLength(s) > maxLength then LengthMark(ByteLength(s)) else s
  }

  function ScrubJson(v: Json, maxLength: nat): Json
    decreases v
  {
    match v
    case Obj(members) => Obj(ScrubMembers(members, maxLength))
    case Arr(items) => Arr(ScrubItems(items, maxLength))
    case Str(s) => Str(ScrubText(s, maxLength))
    case _ => v
  }

  function ScrubItems(items: seq<Json>, maxLength: nat): (r: seq<Json>)
    ensures |r| == |items|
    decreases items
  {
    if items == [] then [] else [ScrubJson(items[0], maxLength)] + ScrubItems(items[1..], maxLength)
  }

  function ScrubMembers(members: seq<Member>, maxLength: nat): seq<Member>
    decreases members
  {
    if members == [] then []
    else
      var rest := ScrubMembers(members[1..], maxLength);
      if SecretShaped(members[0].key) then rest
      else [Member(members[0].key, ScrubJson(members[0].value, maxLength))] + rest
  }

  // ---------------------------------------------------------------- lookup

  datatype Step = Key(name: string) | Index(i: nat)

  function Find(members: seq<Member>, name: string): Option<Json> {
    if members == [] then None
    else if members[0].key == name then Some(members[0].value)
    else Find(members[1..], name)
  }

  function Child(v: Json, step: Step): Option<Json> {
    match step
    case Key(name) => if v.Obj? then Find(v.members, name) else None
    case Index(i) => if v.Arr? && i < |v.items| then Some(v.items[i]) else None
  }

  function Lookup(v: Json, path: seq<Step>): Option<Json>
    decreases |path|
  {
    if path == [] then Some(v)
    else
      match Child(v, path[0])
      case None => None
      case Some(child) => Lookup(child, path[1..])
  }

  ghost predicate ThroughSecret(path: seq<Step>) {
    exists i :: 0 <= i < |path| && path[i].Key? && NamesSecret(path[i].name)
  }

  lemma {:induction false} ScrubbedItem(items: seq<Json>, maxLength: nat, i: nat)
    requires i < |items|
    ensures ScrubItems(items, maxLength)[i] == ScrubJson(items[i], maxLength)
  {
    if i > 0 {
      ScrubbedItem(items[1..], maxLength, i - 1);
    }
  }

  lemma {:induction false} ScrubbedMember(members: seq<Member>, maxLength: nat, name: string)
    ensures Find(ScrubMembers(members, maxLength), name) ==
            if SecretShaped(name) || Find(members, name).None? then None
            else Some(ScrubJson(Find(members, name).value, maxLength))
  {
    if members != [] {
      ScrubbedMember(members[1..], maxLength, name);
      var rest := ScrubMembers(members[1..], maxLength);
      if !SecretShaped(members[0].key) {
        assert ScrubMembers(members, maxLength)[1..] == rest;
      }
    }
  }

  lemma {:induction false} ScrubbedChild(v: Json, maxLength: nat, step: Step)
    ensures Child(ScrubJson(v, maxLength), step) ==
            if (step.Key? && SecretShaped(step.name)) || Child(v, step).None? then None
            else Some(ScrubJson(Child(v, step).value, maxLength))
  {
    match step
    case Key(name) =>
      if v.Obj? {
        ScrubbedMember(v.members, maxLength, name);
      }
    case Index(i) =>
      if v.Arr? && i < |v.items| {
        ScrubbedItem(v.items, maxLength, i);
      }
  }

  /** Scrubbing commutes with lookup along every path that names no secret-shaped key, and a
      path that names one leads nowhere afterwards. */
  lemma {:induction false} ScrubCommutesWithLookup(v: Json, maxLength: nat, path: seq<Step>)
    ensures Lookup(ScrubJson(v, maxLength), path) ==
            if ThroughSecret(path) || Lookup(v, path).None? then None
              else Some(ScrubJson(Lookup(v, path).value, maxLength))
    decreases |path|
  {
    if path != [] {
      ScrubbedChild(v, maxLength, path[0]);
      if path[0].Key? {
        SecretExactly(path[0].name);
      }
      var child := Child(v, path[0]);
      assert ThroughSecret(path) <==> (path[0].Key? && NamesSecret(path[0].name)) || ThroughSecret(path[1..]) by {
        assert forall i :: 0 < i < |path| ==> path[i] == path[1..][i - 1];
        assert forall i :: 0 <= i < |path[1..]| ==> path[1..][i] == path[i + 1];
      }
      if child.Some? {
        ScrubCommutesWithLookup(child.value, maxLength, path[1..]);
      }
    }
  }

  // ---------------------------------------------------------------- what is left

  /** No secret-shaped key anywhere, and every string at most `longest` bytes. */
  ghost predicate Clean(v: Json, longest: nat)
    decreases v
  {
    match v
    case Obj(members) => forall i ::
      0 <= i < |members| ==> !NamesSecret(members[i].key) && Clean(members[i].value, longest)
    case Arr(items) => forall i :: 0 <= i < |items| ==> Clean(items[i], longest)
    case Str(s) => ByteLength(s) <= longest
    case _ => true
  }

  /** Every string is shorter than 2^64 bytes. */
  predicate Sized(v: Json)
    decreases v
  {
    match v
    case Obj(members) => forall i :: 0 <= i < |members| ==> Sized(members[i].value)
    case Arr(items) => forall i :: 0 <= i < |items| ==> Sized(items[i])
    case Str(s) => ByteLength(s) < 0x1_0000_0000_0000_0000
    case _ => true
  }

  function Power(n: nat): nat {
    if n == 0 then 1 else 10 * Power(n - 1)
  }

  lemma {:induction false} DecimalLength(n: nat, digits: nat)
    requires 1 <= digits && n < Power(digits)
    ensures |Decimal(n)| <= digits
  {
    if n >= 10 {
      DecimalLength(n / 10, digits - 1);
    }
  }

  lemma {:induction false} AsciiLength(s: string)
    requires forall i :: 0 <= i < |s| ==> s[i] as int < 0x80
    ensures ByteLength(s) == |s|
  {
    if s != "" {
      AsciiLength(s[1..]);
    }
  }

  /** The length counts the bytes of the text's UTF-8 form. */
  lemma {:induction false} ByteLengthIsUtf8(b: seq<Chunked.Byte>)
    requires Chunked.Utf8(b).Some?
    ensures ByteLength(Chunked.Utf8(b).value) == |b|
  {
    if b != [] {
      var n := Chunked.Width(b[0]);
      ByteLengthIsUtf8(b[n..]);
      var text := Chunked.Utf8(b).value;
      assert text[1..] == Chunked.Utf8(b[n..]).value;
    }
  }

  /** A short text is kept; of a long one nothing is told but its length. */
  lemma OnlyLengthIsTold(s: string, t: string, maxLength: nat)
    ensures ByteLength(s) <= maxLength ==> ScrubText(s, maxLength) == s
    ensures ByteLength(s) > maxLength ==> ScrubText(s, maxLength) == "<" + Decimal(ByteLength(s)) + " bytes>"
    ensures ByteLength(s) > maxLength && ByteLength(t) > maxLength ==>
              (ScrubText(s, maxLength) == ScrubText(t, maxLength) <==> ByteLength(s) == ByteLength(t))
  {
    if ByteLength(s) > maxLength && ByteLength(t) > maxLength && ScrubText(s, maxLength) == ScrubText(t, maxLength) {
      var a, b := Decimal(ByteLength(s)), Decimal(ByteLength(t));
      var mark := "<" + a + " bytes>";
      assert mark == "<" + b + " bytes>" && |a| == |b|;
      assert mark[1..|a| + 1] == a && mark[1..|a| + 1] == b;
      DecimalInjective(ByteLength(s), ByteLength(t));
    }
  }

  /** The mark that replaces a string of less than 2^64 bytes has at most 28. */
  lemma {:induction false} MarkLength(bytes: nat)
    requires bytes < 0x1_0000_0000_0000_0000
    ensures ByteLength(LengthMark(bytes)) <= 28
  {
    assert Power(20) == 100000000000000000000 by {
      assert Power(5) == 100000;
      assert Power(10) == 10000000000;
      assert Power(15) == 1000000000000000;
    }
    DecimalLength(bytes, 20);
    AsciiLength(LengthMark(bytes));
  }

  lemma {:induction false} ScrubbedTextFits(s: string, maxLength: nat)
    requires ByteLength(s) < 0x1_0000_0000_0000_0000
    ensures ByteLength(ScrubText(s, maxLength)) <= if maxLength < 28 then 28 else maxLength
  {
    MarkLength(ByteLength(s));
  }

  /** After scrubbing no secret-shaped key survives at any depth, and no string is longer than
      the limit or the 28 bytes of a mark. */
  lemma {:induction false} ScrubCleans(v: Json, maxLength: nat)
    requires Sized(v)
    ensures Clean(ScrubJson(v, maxLength), if maxLength < 28 then 28 else maxLength)
    decreases v, 0
  {
    match v
    case Obj(members) => ScrubCleansMembers(members, maxLength);
    case Arr(items) =>
      forall i | 0 <= i < |items|
        ensures Clean(ScrubItems(items, maxLength)[i],
                if maxLength < 28 then 28 else maxLength)
      {
        ScrubbedItem(items, maxLength, i);
        ScrubCleans(items[i], maxLength);
      }
    case Str(s) => ScrubbedTextFits(s, maxLength);
    case _ =>
  }

  lemma {:induction false} ScrubCleansMembers(members: seq<Member>, maxLength: nat)
    requires forall i :: 0 <= i < |members| ==> Sized(members[i].value)
    ensures Clean(Obj(ScrubMembers(members, maxLength)), if maxLength < 28 then 28 else maxLength)
    decreases members
  {
    if members != [] {
      SecretExactly(members[0].key);
      ScrubCleansMembers(members[1..], maxLength);
      ScrubCleans(members[0].value, maxLength);
    }
  }

  /** What is clean for the limit is not changed. */
  lemma {:induction false} CleanUnchanged(v: Json, maxLength: nat)
    requires Clean(v, maxLength)
    ensures ScrubJson(v, maxLength) == v
    decreases v, 0
  {
    match v
    case Obj(members) => CleanMembersUnchanged(members, maxLength);
    case Arr(items) =>
      forall i | 0 <= i < |items| ensures ScrubItems(items, maxLength)[i] == items[i] {
        ScrubbedItem(items, maxLength, i);
        CleanUnchanged(items[i], maxLength);
      }
    case _ =>
  }

  lemma {:induction false} CleanMembersUnchanged(members: seq<Member>, maxLength: nat)
    requires forall i :: 0 <= i < |members| ==> !NamesSecret(members[i].key) && Clean(members[i].value, maxLength)
    ensures ScrubMembers(members, maxLength) == members
    decreases members
  {
    if members != [] {
      SecretExactly(members[0].key);
      CleanMembersUnchanged(members[1..], maxLength);
      CleanUnchanged(members[0].value, maxLength);
    }
  }

  /** Scrubbing twice is scrubbing once, for limits that a mark fits in. */
  lemma {:induction false} ScrubIdempotent(v: Json, maxLength: nat)
    requires Sized(v) && maxLength >= 28
    ensures ScrubJson(ScrubJson(v, maxLength), maxLength) == ScrubJson(v, maxLength)
  {
    ScrubCleans(v, maxLength);
    CleanUnchanged(ScrubJson(v, maxLength), maxLength);
  }

  // ---------------------------------------------------------------- the audit summary

  /** The readable lines, newest first. */
  function Newest(lines: seq<Option<Json>>): seq<Json> {
    if lines == [] then []
    else (if lines[|lines| - 1].Some? then [lines[|lines| - 1].value] else []) + Newest(lines[..|lines| - 1])
  }

  function Readable(lines: seq<Option<Json>>): nat {
    if lines == [] then 0 else Readable(lines[..|lines| - 1]) + if lines[|lines| - 1].Some? then 1 else 0
  }

  /** Every readable line is there, behind as many as follow it. */
  lemma {:induction false} NewestAt(lines: seq<Option<Json>>, p: nat)
    requires p < |lines| && lines[p].Some?
    ensures |Newest(lines)| == Readable(lines) && Readable(lines[p + 1..]) < |Newest(lines)|
    ensures Newest(lines)[Readable(lines[p + 1..])] == lines[p].value
  {
    var n := |lines| - 1;
    NewestLength(lines);
    if p == n {
      assert lines[p + 1..] == [];
    } else {
      NewestAt(lines[..n], p);
      assert lines[p + 1..][..|lines[p + 1..]| - 1] == lines[..n][p + 1..];
    }
  }

  lemma {:induction false} NewestLength(lines: seq<Option<Json>>)
    ensures |Newest(lines)| == Readable(lines)
  {
    if lines != [] {
      NewestLength(lines[..|lines| - 1]);
    }
  }

  /** What the summary keeps of an event. */
  datatype AuditEvent = AuditEvent(time: Json, kind: Json, payload: Json)

  function FieldOr(v: Json, name: string, missing: Json): Json {
    match Child(v, Key(name))
    case Some(value) => value
    case None => missing
  }

  /** Only the payload is scrubbed; time and kind are copied. */
  function Preview(v: Json): AuditEvent {
    AuditEvent(FieldOr(v, "ts_ms", Null), FieldOr(v, "kind", Str("?")), ScrubJson(FieldOr(v, "payload", Obj([])), 80))
  }

  /** Along any path the preview shows the event's payload as scrubbing leaves it, and its time
      and kind untouched. */
  lemma PreviewShows(v: Json, path: seq<Step>, payload: Json)
    requires Lookup(v, [Key("payload")]) == Some(payload)
    ensures Lookup(Preview(v).payload, path) == if ThroughSecret(path) || Lookup(payload, path).None? then None
            else Some(ScrubJson(Lookup(payload, path).value, 80))
    ensures Lookup(v, [Key("ts_ms")]).Some? ==> Some(Preview(v).time) == Lookup(v, [Key("ts_ms")])
    ensures Lookup(v, [Key("ts_ms")]).None? ==> Preview(v).time == Null
    ensures Lookup(v, [Key("kind")]).Some? ==> Some(Preview(v).kind) == Lookup(v, [Key("kind")])
    ensures Lookup(v, [Key("kind")]).None? ==> Preview(v).kind == Str("?")
  {
    assert forall name: string :: [Key(name)][1..] == [];
    ScrubCommutesWithLookup(payload, 80, path);
  }

  /** `lines` holds what each line of the ledger parses to. */
  method AuditSummary(lines: seq<Option<Json>>, last: nat) returns (total: nat, events: seq<AuditEvent>)
    ensures total == |Newest(lines)| && |events| == if last < total then last else total
    ensures forall i :: 0 <= i < |events| ==> events[i] == Preview(Newest(lines)[i])
  {
    total, events := 0, [];
    var i := |lines|;
    ghost var seen: seq<Json> := [];
    assert lines[..|lines|] == lines;
    while i > 0
      invariant 0 <= i <= |lines| && seen + Newest(lines[..i]) == Newest(lines)
      invariant total == |seen| && |events| == if last < total then last else total
      invariant forall k :: 0 <= k < |events| ==> events[k] == Preview(seen[k])
    {
      i := i - 1;
      assert lines[..i + 1][..i] == lines[..i];
      if lines[i].Some? {
        total := total + 1;
        if |events| < last {
          events := events + [Preview(lines[i].value)];
        }
        assert Newest(lines[..i + 1]) == [lines[i].value] + Newest(lines[..i]);
        seen := seen + [lines[i].value];
      }
    }
    assert lines[..0] == [];
  }

  /** No secret-shaped key and no string over 80 bytes is left in a payload of the summary. */
  lemma PreviewIsClean(v: Json)
    requires Sized(v)
    ensures Clean(Preview(v).payload, 80)
  {
    if v.Obj? {
      FindSized(v.members, "payload");
    }
    ScrubCleans(FieldOr(v, "payload", Obj([])), 80);
  }

  lemma {:induction false} FindSized(members: seq<Member>, name: string)
    requires forall i :: 0 <= i < |members| ==> Sized(members[i].value)
    ensures Find(members, name).Some? ==> Sized(Find(members, name).value)
  {
    if members != [] && members[0].key != name {
      FindSized(members[1..], name);
    }
  }
}
