/** Reading the OAuth callback off the first line of an HTTP request: the query is split,
    each value percent-decoded. Text is kept as bytes; a decoded byte stands for the Latin-1
    character of that number. */
module OAuthCallback {
  import opened Basics

  type Byte = b: int | 0 <= b < 256

  const CODE: seq<Byte> := [99, 111, 100, 101]
  const STATE: seq<Byte> := [115, 116, 97, 116, 101]
  const SPACE: Byte := 0x20
  const QUESTION: Byte := 0x3F
  const AMPERSAND: Byte := 0x26
  const EQUALS: Byte := 0x3D
  const NEWLINE: Byte := 0x0A
  const RETURN: Byte := 0x0D
  const PERCENT: Byte := 0x25

  /** The keys and separators as characters. */
  lemma AsCharacters()
    ensures |CODE| == |"code"| && forall i :: 0 <= i < |CODE| ==> CODE[i] as int == "code"[i] as int
    ensures |STATE| == |"state"| && forall i :: 0 <= i < |STATE| ==> STATE[i] as int == "state"[i] as int
    ensures [SPACE as int, QUESTION as int, AMPERSAND as int, EQUALS as int, PERCENT as int]
            == [' ' as int, '?' as int, '&' as int, '=' as int, '%' as int]
    ensures NEWLINE as int == '\n' as int && RETURN as int == '\r' as int
  {
  }

  // ---------------------------------------------------------------- splitting

  /** Everything up to the first separator. */
  function Before(s: seq<Byte>, sep: Byte): (head: seq<Byte>)
    ensures |head| <= |s| && sep !in head && s[..|head|] == head && (|head| < |s| ==> s[|head|] == sep)
  {
    if s == [] || s[0] == sep then [] else [s[0]] + Before(s[1..], sep)
  }

  /** Everything after the first separator, if there is one. */
  function After(s: seq<Byte>, sep: Byte): Option<seq<Byte>> {
    var n := |Before(s, sep)|;
    if n < |s| then Some(s[n + 1..]) else None
  }

  /** `s.split(sep)`. */
  function Split(s: seq<Byte>, sep: Byte): seq<seq<Byte>>
    decreases |s|
  {
    match After(s, sep)
    case None => [s]
    case Some(rest) => [Before(s, sep)] + Split(rest, sep)
  }

  /** `s.split(sep).nth(1).unwrap_or("")`. */
  function Second(s: seq<Byte>, sep: Byte): seq<Byte> {
    match After(s, sep)
    case None => []
    case Some(rest) => Before(rest, sep)
  }

  /** `s.lines().next().unwrap_or("")`. */
  function FirstLine(s: seq<Byte>): seq<Byte> {
    var line := Before(s, NEWLINE);
    if |line| < |s| && line != [] && line[|line| - 1] == RETURN then line[..|line| - 1] else line
  }

  /** A line ends at a newline, and a carriage return before that belongs to the end. */
  lemma FirstLineEnds(line: seq<Byte>, rest: seq<Byte>)
    requires NEWLINE !in line
    ensures FirstLine(line + [RETURN, NEWLINE] + rest) == line
    ensures line == [] || line[|line| - 1] != RETURN ==> FirstLine(line + [NEWLINE] + rest) == line
    ensures FirstLine(line) == line
  {
    CutBefore(line + [RETURN], NEWLINE, rest);
    assert line + [RETURN, NEWLINE] + rest == line + [RETURN] + [NEWLINE] + rest;
    CutBefore(line, NEWLINE, rest);
    NothingToCut(line, NEWLINE);
  }

  // ---------------------------------------------------------------- percent-decoding

  function HexNibble(b: Byte): (n: Option<Byte>)
    ensures n.Some? ==> n.value <= 15
  {
    if 0x30 <= b <= 0x39 then Some(b - 0x30) else if 0x61 <= b <= 0x66 then Some(b - 0x61 + 10)
    else if 0x41 <= b <= 0x46 then Some(b - 0x41 + 10) else None
  }

  lemma HexNibbleExactly(b: Byte, n: Byte)
    requires n <= 15
    ensures HexNibble(b) == Some(n) <==>
            (b as int) as char == "0123456789abcdef"[n] || (b as int) as char == "0123456789ABCDEF"[n]
  {
  }

  /** `u8::from_str_radix` of two characters: two hexadecimal digits, or `+` and one. */
  function HexPair(hi: Byte, lo: Byte): Option<Byte> {
    if HexNibble(lo).None? then None
    else if hi == 0x2B then HexNibble(lo)
    else if HexNibble(hi).None? then None
    else
      var value: int := 16 * Number(HexNibble(hi).value) + Number(HexNibble(lo).value);
      Some(value)
  }

  function Number(b: Byte): (n: int)
    ensures n == b && 0 <= n < 256
  {
    b
  }

  predicate EscapeAt(s: seq<Byte>, i: nat)
    requires i < |s|
  {
    s[i] == PERCENT && i + 2 < |s| && HexPair(s[i + 1], s[i + 2]).Some?
  }

  /** What decoding appends from position `i` on. */
  function DecodeFrom(s: seq<Byte>, i: nat): seq<Byte>
    decreases |s| - i
  {
    if i >= |s| then []
    else if EscapeAt(s, i) then [HexPair(s[i + 1], s[i + 2]).value] + DecodeFrom(s, i + 3)
    else [s[i]] + DecodeFrom(s, i + 1)
  }

  method UrlDecode(s: seq<Byte>) returns (out: seq<Byte>)
    ensures out == DecodeFrom(s, 0)
  {
    out := [];
    var i := 0;
    while i < |s|
      invariant out + DecodeFrom(s, i) == DecodeFrom(s, 0)
      decreases |s| - i
    {
      if s[i] == PERCENT && i + 2 < |s| {
        var h := HexPair(s[i + 1], s[i + 2]);
        if h.Some? {
          OneMore(out, h.value, DecodeFrom(s, i + 3));
          out := out + [h.value];
          i := i + 3;
          continue;
        }
      }
      OneMore(out, s[i], DecodeFrom(s, i + 1));
      out := out + [s[i]];
      i := i + 1;
    }
  }

  lemma {:induction false} OneMore(out: seq<Byte>, b: Byte, more: seq<Byte>)
    ensures out + ([b] + more) == out + [b] + more
  {
  }

  // ---------------------------------------------------------------- what a sign does

  /** The escape of a percent-encoding proper: two hexadecimal digits. */
  predicate StrictEscapeAt(s: seq<Byte>, i: nat)
    requires i < |s|
  {
    s[i] == PERCENT && i + 2 < |s| && HexNibble(s[i + 1]).Some? && HexNibble(s[i + 2]).Some?
  }

  /** Decoding that takes such escapes and leaves every other character alone. */
  function StrictFrom(s: seq<Byte>, i: nat): seq<Byte>
    decreases |s| - i
  {
    if i >= |s| then []
    else if StrictEscapeAt(s, i) then
      [HexPair(s[i + 1], s[i + 2]).value] + StrictFrom(s, i + 3)
    else [s[i]] + StrictFrom(s, i + 1)
  }

  /** A percent sign, a plus sign and one hexadecimal digit. */
  predicate SignedEscapeAt(s: seq<Byte>, i: nat)
    requires i < |s|
  {
    s[i] == PERCENT && i + 2 < |s| && s[i + 1] == 0x2B && HexNibble(s[i + 2]).Some?
  }

  /** Decoding from position `i` comes to such a place. */
  predicate MeetsSign(s: seq<Byte>, i: nat)
    decreases |s| - i
  {
    i < |s| && (SignedEscapeAt(s, i) || MeetsSign(s, if EscapeAt(s, i) then i + 3 else i + 1))
  }

  /** The number parser behind the decoder takes a sign: `%+5` is read like `%05`. */
  lemma SignIsDecoded()
    ensures var signed: seq<Byte> := [PERCENT, 0x2B, 0x35]; var plain: seq<Byte> := [PERCENT, 0x30, 0x35];
            DecodeFrom(signed, 0) == DecodeFrom(plain, 0) == [5] && StrictFrom(signed, 0) == signed
  {
    var signed: seq<Byte> := [PERCENT, 0x2B, 0x35];
    var plain: seq<Byte> := [PERCENT, 0x30, 0x35];
    assert DecodeFrom(signed, 3) == [] && DecodeFrom(plain, 3) == [];
    assert StrictFrom(signed, 3) == [] && StrictFrom(signed, 2) == [0x35] && StrictFrom(signed, 1) == [0x2B, 0x35];
  }

  /** The decoder is strict percent-decoding exactly on the texts where it meets no sign. */
  lemma {:induction false} StrictUnlessSigned(s: seq<Byte>, i: nat)
    ensures DecodeFrom(s, i) == StrictFrom(s, i) <==> !MeetsSign(s, i)
    decreases |s| - i
  {
    if i < |s| {
      var next := if EscapeAt(s, i) then i + 3 else i + 1;
      StrictUnlessSigned(s, next);
      if SignedEscapeAt(s, i) {
        assert DecodeFrom(s, i)[0] <= 15 && StrictFrom(s, i)[0] == PERCENT;
      } else {
        SameHead(DecodeFrom(s, i)[0], DecodeFrom(s, next), StrictFrom(s, next));
      }
    }
  }

  lemma SameHead(b: Byte, x: seq<Byte>, y: seq<Byte>)
    ensures [b] + x == [b] + y <==> x == y
  {
    assert ([b] + x)[1..] == x && ([b] + y)[1..] == y;
  }

  // ---------------------------------------------------------------- the callback

  predicate KeyIs(pair: seq<Byte>, key: seq<Byte>) {
    Before(pair, EQUALS) == key
  }

  function ValueOf(pair: seq<Byte>): seq<Byte> {
    match After(pair, EQUALS)
    case None => []
    case Some(value) => DecodeFrom(value, 0)
  }

  /** The value of the last pair with this key. */
  function LastValue(pairs: seq<seq<Byte>>, key: seq<Byte>): Option<seq<Byte>> {
    if pairs == [] then None
    else if KeyIs(pairs[|pairs| - 1], key) then Some(ValueOf(pairs[|pairs| - 1]))
    else LastValue(pairs[..|pairs| - 1], key)
  }

  lemma LastValueNext(pairs: seq<seq<Byte>>, i: nat, key: seq<Byte>)
    requires i < |pairs|
    ensures LastValue(pairs[..i + 1], key)
            == if KeyIs(pairs[i], key) then Some(ValueOf(pairs[i])) else LastValue(pairs[..i], key)
  {
    assert pairs[..i + 1][..i] == pairs[..i];
  }

  function QueryPairs(request: seq<Byte>): seq<seq<Byte>> {
    Split(Second(Second(FirstLine(request), SPACE), QUESTION), AMPERSAND)
  }

  method ParseCallback(request: seq<Byte>) returns (code: Option<seq<Byte>>, state: Option<seq<Byte>>)
    ensures code == LastValue(QueryPairs(request), CODE) && state == LastValue(QueryPairs(request), STATE)
  {
    code, state := None, None;
    var pairs := QueryPairs(request);
    for i := 0 to |pairs|
      invariant code == LastValue(pairs[..i], CODE) && state == LastValue(pairs[..i], STATE)
    {
      var pair := pairs[i];
      var key := Before(pair, EQUALS);
      var raw := After(pair, EQUALS);
      var value := UrlDecode(if raw.Some? then raw.value else []);
      if key == CODE {
        code := Some(value);
      } else if key == STATE {
        state := Some(value);
      }
      LastValueNext(pairs, i, CODE);
      LastValueNext(pairs, i, STATE);
    }
    assert pairs[..|pairs|] == pairs;
  }

  // ---------------------------------------------------------------- percent-encoding

  /** One character of a percent-encoded text (section 2.1 of RFC 3986): an unreserved
      character, or a byte written with two hexadecimal digits of either case. */
  datatype Token = Plain(byte: Byte) | Escaped(byte: Byte, upperHigh: bool, upperLow: bool)

  predicate Unreserved(b: Byte) {
    0x41 <= b <= 0x5A || 0x61 <= b <= 0x7A || 0x30 <= b <= 0x39 || b == 0x2D || b == 0x2E || b == 0x5F || b == 0x7E
  }

  predicate Encodes(tokens: seq<Token>) {
    forall i :: 0 <= i < |tokens| ==> tokens[i].Plain? ==> Unreserved(tokens[i].byte)
  }

  function Digit16(n: int, upper: bool): (b: Byte)
    requires 0 <= n < 16
    ensures HexNibble(b) == Some(n) && b != 0x2B && (0x30 <= b <= 0x39 || 0x41 <= b <= 0x46 || 0x61 <= b <= 0x66)
  {
    if n < 10 then 0x30 + n else if upper then 0x41 + n - 10 else 0x61 + n - 10
  }

  function Write(t: Token): seq<Byte> {
    match t
    case Plain(b) => [b]
    case Escaped(b, upperHigh, upperLow) =>
      [PERCENT, Digit16(Number(b) / 16, upperHigh), Digit16(Number(b) % 16, upperLow)]
  }

  function Text(tokens: seq<Token>): seq<Byte> {
    if tokens == [] then [] else Write(tokens[0]) + Text(tokens[1..])
  }

  function Meant(tokens: seq<Token>): seq<Byte> {
    if tokens == [] then [] else [tokens[0].byte] + Meant(tokens[1..])
  }

  lemma {:induction false} EscapeReads(b: Byte, upperHigh: bool, upperLow: bool)
    ensures var w := Write(Escaped(b, upperHigh, upperLow)); HexPair(w[1], w[2]) == Some(b)
  {
    assert 16 * (Number(b) / 16) + Number(b) % 16 == b;
  }

  /** Decoding starts over at any position. */
  lemma {:induction false} DecodeSuffix(s: seq<Byte>, i: nat)
    requires i <= |s|
    ensures DecodeFrom(s, i) == DecodeFrom(s[i..], 0)
  {
    DecodeShift(s, i, 0);
  }

  lemma {:induction false} DecodeShift(s: seq<Byte>, i: nat, j: nat)
    requires i <= |s|
    ensures DecodeFrom(s, i + j) == DecodeFrom(s[i..], j)
    decreases |s| - i - j
  {
    if i + j < |s| {
      EscapeShift(s, i, j);
      if EscapeAt(s, i + j) {
        DecodeShift(s, i, j + 3);
      } else {
        DecodeShift(s, i, j + 1);
      }
    }
  }

  lemma EscapeShift(s: seq<Byte>, i: nat, j: nat)
    requires i + j < |s|
    ensures s[i..][j] == s[i + j] && (EscapeAt(s[i..], j) <==> EscapeAt(s, i + j))
    ensures EscapeAt(s, i + j) ==> s[i..][j + 1] == s[i + j + 1] && s[i..][j + 2] == s[i + j + 2]
  {
    if i + j + 2 < |s| {
      assert s[i..][j + 1] == s[i + j + 1] && s[i..][j + 2] == s[i + j + 2];
    }
  }

  /** Percent-decoding undoes every percent-encoding of every byte string. */
  lemma {:induction false} DecodesText(tokens: seq<Token>)
    requires Encodes(tokens)
    ensures DecodeFrom(Text(tokens), 0) == Meant(tokens)
  {
    if tokens != [] {
      var text, rest := Text(tokens), Text(tokens[1..]);
      var first := Write(tokens[0]);
      assert forall i :: 0 <= i < |tokens[1..]| ==> tokens[1..][i] == tokens[i + 1];
      DecodesText(tokens[1..]);
      assert text == first + rest && text[|first|..] == rest;
      DecodeSuffix(text, |first|);
      match tokens[0]
      case Plain(b) =>
        assert text[0] == b && Unreserved(tokens[0].byte);
      case Escaped(b, upperHigh, upperLow) =>
        EscapeReads(b, upperHigh, upperLow);
        assert text[0] == PERCENT && text[1] == first[1] && text[2] == first[2];
    }
  }

  // ---------------------------------------------------------------- the authorization response

  function Join(pairs: seq<seq<Byte>>): seq<Byte>
    requires pairs != []
  {
    if |pairs| == 1 then pairs[0] else pairs[0] + [AMPERSAND] + Join(pairs[1..])
  }

  /** The request line of the redirect, and whatever follows it. */
  function Request(verb: seq<Byte>, path: seq<Byte>, query: seq<Byte>, rest: seq<Byte>): seq<Byte> {
    verb + [SPACE] + (path + [QUESTION] + query + [SPACE] + rest)
  }

  predicate Free(s: seq<Byte>, bytes: set<Byte>) {
    forall b :: b in bytes ==> b !in s
  }

  lemma {:induction false} Cut(a: seq<Byte>, sep: Byte, b: seq<Byte>)
    requires sep !in a
    ensures Before(a + [sep] + b, sep) == a && After(a + [sep] + b, sep) == Some(b)
  {
    CutBefore(a, sep, b);
    assert (a + [sep] + b)[|a| + 1..] == b;
  }

  lemma {:induction false} CutBefore(a: seq<Byte>, sep: Byte, b: seq<Byte>)
    requires sep !in a
    ensures Before(a + [sep] + b, sep) == a
  {
    var s := a + [sep] + b;
    if a != [] {
      assert s[1..] == a[1..] + [sep] + b;
      CutBefore(a[1..], sep, b);
    }
  }

  lemma {:induction false} NothingToCut(a: seq<Byte>, sep: Byte)
    requires sep !in a
    ensures Before(a, sep) == a && After(a, sep) == None
  {
    if a != [] {
      NothingToCut(a[1..], sep);
    }
  }

  lemma {:induction false} SplitsJoined(pairs: seq<seq<Byte>>)
    requires pairs != [] && forall i :: 0 <= i < |pairs| ==> AMPERSAND !in pairs[i]
    ensures Split(Join(pairs), AMPERSAND) == pairs
    decreases |pairs|
  {
    if |pairs| == 1 {
      NothingToCut(pairs[0], AMPERSAND);
    } else {
      Cut(pairs[0], AMPERSAND, Join(pairs[1..]));
      SplitsJoined(pairs[1..]);
    }
  }

  lemma {:induction false} JoinFree(pairs: seq<seq<Byte>>, b: Byte)
    requires pairs != [] && b != AMPERSAND && forall i :: 0 <= i < |pairs| ==> b !in pairs[i]
    ensures b !in Join(pairs)
    decreases |pairs|
  {
    if |pairs| > 1 {
      JoinFree(pairs[1..], b);
    }
  }

  /** The second word of the first line ends before anything the rest of the request holds. */
  lemma {:induction false} SecondWord(verb: seq<Byte>, target: seq<Byte>, rest: seq<Byte>)
    requires Free(verb, {SPACE, NEWLINE}) && Free(target, {SPACE, NEWLINE})
    ensures Second(FirstLine(verb + [SPACE] + (target + [SPACE] + rest)), SPACE) == target
  {
    var request := verb + [SPACE] + (target + [SPACE] + rest);
    var head := verb + [SPACE] + (target + [SPACE]);
    assert request == head + rest;
    FirstLineKeeps(head, rest);
    var line := FirstLine(request);
    var more := line[|head|..];
    assert line == head + more;
    assert line == verb + [SPACE] + (target + [SPACE] + more);
    Cut(verb, SPACE, target + [SPACE] + more);
    Cut(target, SPACE, more);
  }

  /** A newline-free beginning that does not end in a return is part of the first line. */
  lemma {:induction false} FirstLineKeeps(head: seq<Byte>, rest: seq<Byte>)
    requires NEWLINE !in head && head != [] && head[|head| - 1] != RETURN
    ensures head <= FirstLine(head + rest)
  {
    var request := head + rest;
    var line := Before(request, NEWLINE);
    assert forall k :: 0 <= k < |head| ==> request[k] == head[k] && head[k] in head;
    assert |head| <= |line|;
    assert line[|head| - 1] == head[|head| - 1];
  }

  /** One pair with the key, wherever it stands: its value is the one found. */
  lemma {:induction false} LastValueAt(pairs: seq<seq<Byte>>, key: seq<Byte>, i: nat)
    requires i < |pairs| && KeyIs(pairs[i], key) && forall k :: 0 <= k < |pairs| && k != i ==> !KeyIs(pairs[k], key)
    ensures LastValue(pairs, key) == Some(ValueOf(pairs[i]))
    decreases |pairs|
  {
    if i < |pairs| - 1 {
      LastValueAt(pairs[..|pairs| - 1], key, i);
    }
  }

  /** The pairs of a query are found again. */
  lemma {:induction false} PairsFound(verb: seq<Byte>, path: seq<Byte>, pairs: seq<seq<Byte>>, rest: seq<Byte>)
    requires Free(verb, {SPACE, NEWLINE}) && Free(path, {SPACE, NEWLINE, QUESTION})
    requires pairs != [] && forall k :: 0 <= k < |pairs| ==> Free(pairs[k], {SPACE, NEWLINE, QUESTION, AMPERSAND})
    ensures QueryPairs(Request(verb, path, Join(pairs), rest)) == pairs
  {
    var query := Join(pairs);
    JoinFree(pairs, SPACE);
    JoinFree(pairs, NEWLINE);
    JoinFree(pairs, QUESTION);
    SecondWord(verb, path + [QUESTION] + query, rest);
    Cut(path, QUESTION, query);
    NothingToCut(query, QUESTION);
    SplitsJoined(pairs);
  }

  lemma {:induction false} ValueRead(key: seq<Byte>, tokens: seq<Token>)
    requires Encodes(tokens) && EQUALS !in key
    ensures var pair := key + [EQUALS] + Text(tokens); KeyIs(pair, key) && ValueOf(pair) == Meant(tokens)
  {
    Cut(key, EQUALS, Text(tokens));
    DecodesText(tokens);
  }

  /** The callback round trip (section 4.1.2 of RFC 6749): any code and any state, in any
      percent-encoding, at any two places among any other parameters, come back exactly. */
  lemma {:induction false} CallbackRoundTrip(verb: seq<Byte>, path: seq<Byte>, pairs: seq<seq<Byte>>,
                                             rest: seq<Byte>, i: nat, code: seq<Token>, j: nat, state: seq<Token>)
    requires Free(verb, {SPACE, NEWLINE}) && Free(path, {SPACE, NEWLINE, QUESTION})
    requires forall k :: 0 <= k < |pairs| ==> Free(pairs[k], {SPACE, NEWLINE, QUESTION, AMPERSAND})
    requires i < |pairs| && j < |pairs| && Encodes(code) && Encodes(state)
    requires pairs[i] == CODE + [EQUALS] + Text(code) && pairs[j] == STATE + [EQUALS] + Text(state)
    requires forall k :: 0 <= k < |pairs| && k != i ==> !KeyIs(pairs[k], CODE)
    requires forall k :: 0 <= k < |pairs| && k != j ==> !KeyIs(pairs[k], STATE)
    ensures var found := QueryPairs(Request(verb, path, Join(pairs), rest));
            LastValue(found, CODE) == Some(Meant(code)) && LastValue(found, STATE) == Some(Meant(state))
  {
    PairsFound(verb, path, pairs, rest);
    ValueRead(CODE, code);
    ValueRead(STATE, state);
    LastValueAt(pairs, CODE, i);
    LastValueAt(pairs, STATE, j);
  }

  /** A second question mark, which a query may hold as it is (section 3.4 of RFC 3986), ends
      the query: nothing behind it is read. */
  lemma {:induction false} SecondQuestionMarkCuts(verb: seq<Byte>, path: seq<Byte>, query: seq<Byte>,
                                                  lost: seq<Byte>, rest: seq<Byte>)
    requires Free(verb, {SPACE, NEWLINE}) && Free(path, {SPACE, NEWLINE, QUESTION})
    requires Free(query, {SPACE, NEWLINE, QUESTION}) && Free(lost, {SPACE, NEWLINE})
    ensures QueryPairs(Request(verb, path, query + [QUESTION] + lost, rest))
            == QueryPairs(Request(verb, path, query, rest))
  {
    var longer := path + [QUESTION] + (query + [QUESTION] + lost);
    SecondWord(verb, longer, rest);
    SecondWord(verb, path + [QUESTION] + query, rest);
    Cut(path, QUESTION, query + [QUESTION] + lost);
    Cut(query, QUESTION, lost);
    Cut(path, QUESTION, query);
    NothingToCut(query, QUESTION);
  }
}
