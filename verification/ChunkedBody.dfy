/** Decoding an HTTP body in chunked coding (section 7.1 of RFC 9112). */
module ChunkedBody {
  import opened Basics

  type Byte = b: int | 0 <= b < 256

  const MAX_RESPONSE: nat := 1024 * 1024
  const USIZE_MAX: nat := 0xFFFF_FFFF_FFFF_FFFF
  const CRLF: seq<Byte> := [13, 10]

  // ---------------------------------------------------------------- the size line

  /** The text of a byte string, if it is UTF-8. */
  function Utf8(b: seq<Byte>): Option<string> {
    if b == [] then Some("")
    else
      var n := Width(b[0]);
      if n == 0 || |b| < n || !Continues(b[1..n]) then None
      else
        var code := CodePoint(b[..n]);
        if n == 3 && (code < 0x800 || 0xD800 <= code < 0xE000) then None
        else if n == 4 && (code < 0x10000 || code >= 0x110000) then None
        else
          var rest := Utf8(b[n..]);
          if rest.None? then None else Some([code as char] + rest.value)
  }

  /** How many bytes a character with this first byte takes; 0 for no first byte. */
  function Width(lead: Byte): nat {
    if lead < 0x80 then 1
    else if 0xC2 <= lead < 0xE0 then 2
    else if 0xE0 <= lead < 0xF0 then 3
    else if 0xF0 <= lead < 0xF5 then 4
    else 0
  }

  function CodePoint(b: seq<Byte>): (code: int)
    requires b != [] && |b| == Width(b[0]) && Continues(b[1..])
    ensures 0 <= code < 0x140000 && (|b| == 1 ==> code == b[0]) && (|b| == 2 ==> 0x80 <= code < 0x800)
            && (|b| == 3 ==> code < 0x10000)
  {
    var lead: int := b[0];
    if |b| == 1 then lead
    else if |b| == 2 then (lead - 0xC0) * 64 + Low(b[1])
    else if |b| == 3 then (lead - 0xE0) * 4096 + Low(b[1]) * 64 + Low(b[2])
    else (lead - 0xF0) * 262144 + Low(b[1]) * 4096 + Low(b[2]) * 64 + Low(b[3])
  }

  function Low(b: Byte): (low: int)
    ensures 0x80 <= b < 0xC0 ==> 0 <= low < 64
  {
    var value: int := b;
    value - 0x80
  }

  predicate Continues(b: seq<Byte>) {
    forall i :: 0 <= i < |b| ==> 0x80 <= b[i] < 0xC0
  }

  // The form of a text that section 3 of RFC 3629 lays down.

  function Follow(n: int): Byte
    requires 0 <= n
  {
    0x80 + n % 64
  }

  function CharBytes(c: char): seq<Byte> {
    var n := c as int;
    if n < 0x80 then [n]
    else if n < 0x800 then [0xC0 + n / 64, Follow(n)]
    else if n < 0x10000 then [0xE0 + n / 4096, Follow(n / 64), Follow(n)]
    else [0xF0 + n / 262144, Follow(n / 4096), Follow(n / 64), Follow(n)]
  }

  function TextBytes(s: string): seq<Byte> {
    if s == "" then [] else CharBytes(s[0]) + TextBytes(s[1..])
  }

  lemma CharReads(c: char, rest: seq<Byte>)
    ensures var b := CharBytes(c) + rest; var n := Width(b[0]);
            n == |CharBytes(c)| && b[..n] == CharBytes(c) && b[n..] == rest && Continues(b[1..n])
  {
    var b := CharBytes(c) + rest;
    assert b[..|CharBytes(c)|] == CharBytes(c) && b[|CharBytes(c)|..] == rest;
  }

  lemma CharCoded(c: char)
    ensures var b := CharBytes(c); |b| == Width(b[0]) && Continues(b[1..]) && CodePoint(b) == c as int
  {
    var n := c as int;
    assert n / 4096 == n / 64 / 64 && n / 262144 == n / 4096 / 64;
  }

  /** Every text is read back from its form, */
  lemma {:induction false} Utf8Reads(s: string)
    ensures Utf8(TextBytes(s)) == Some(s)
  {
    if s != "" {
      Utf8Reads(s[1..]);
      CharReads(s[0], TextBytes(s[1..]));
      CharCoded(s[0]);
      assert [CodePoint(CharBytes(s[0])) as char] + s[1..] == s;
    }
  }

  lemma Split64(high: int, low: int)
    requires 0 <= low < 64
    ensures (high * 64 + low) / 64 == high && (high * 64 + low) % 64 == low
  {
  }

  lemma CharWritten(b: seq<Byte>)
    requires b != [] && |b| == Width(b[0]) && Continues(b[1..])
    requires var code := CodePoint(b);
             !(|b| == 3 && (code < 0x800 || 0xD800 <= code < 0xE000))
             && !(|b| == 4 && (code < 0x10000 || code >= 0x110000))
    ensures CharBytes(CodePoint(b) as char) == b
  {
    assert forall i :: 1 <= i < |b| ==> b[i] == b[1..][i - 1];
    var lead: int := b[0];
    if |b| == 2 {
      Split64(lead - 0xC0, Low(b[1]));
    } else if |b| == 3 {
      Split64((lead - 0xE0) * 64 + Low(b[1]), Low(b[2]));
      Split64(lead - 0xE0, Low(b[1]));
    } else if |b| == 4 {
      FourWritten(b);
    }
  }

  lemma FourWritten(b: seq<Byte>)
    requires |b| == 4 == Width(b[0]) && Continues(b[1..]) && 0x10000 <= CodePoint(b) < 0x110000
    ensures CharBytes(CodePoint(b) as char) == b
  {
    assert forall i :: 1 <= i < |b| ==> b[i] == b[1..][i - 1];
    var lead: int := b[0];
    var three := ((lead - 0xF0) * 64 + Low(b[1])) * 64 + Low(b[2]);
    Split64(three, Low(b[3]));
    Split64((lead - 0xF0) * 64 + Low(b[1]), Low(b[2]));
    Split64(lead - 0xF0, Low(b[1]));
    var n := CodePoint(b);
    assert n == three * 64 + Low(b[3]);
    assert n / 64 == three && n / 4096 == n / 64 / 64 && n / 262144 == n / 4096 / 64;
  }

  /** What is read has a first character. */
  lemma FirstRead(b: seq<Byte>)
    requires b != [] && Utf8(b).Some?
    ensures var n := Width(b[0]);
            && 0 < n <= |b| && |b[..n]| == Width(b[..n][0]) && Continues(b[..n][1..]) && Utf8(b[n..]).Some?
            && Utf8(b).value == [CodePoint(b[..n]) as char] + Utf8(b[n..]).value
            && CharBytes(CodePoint(b[..n]) as char) == b[..n]
  {
    var n := Width(b[0]);
    assert b[..n][1..] == b[1..n];
    CharWritten(b[..n]);
  }

  lemma TextGrows(c: char, s: string)
    ensures TextBytes([c] + s) == CharBytes(c) + TextBytes(s)
  {
    assert ([c] + s)[1..] == s;
  }

  predicate OnlyForm(b: seq<Byte>) {
    Utf8(b).Some? ==> TextBytes(Utf8(b).value) == b
  }

  lemma OnlyFormGrows(b: seq<Byte>, c: char, text: string, n: nat)
    requires n <= |b| && CharBytes(c) == b[..n] && TextBytes(text) == b[n..] && Utf8(b) == Some([c] + text)
    ensures OnlyForm(b)
  {
    TextGrows(c, text);
    assert b == b[..n] + b[n..];
  }

  /** and nothing else is read. */
  lemma {:induction false} Utf8Only(b: seq<Byte>)
    ensures OnlyForm(b)
    decreases |b|
  {
    if b != [] && Utf8(b).Some? {
      var n := Width(b[0]);
      FirstRead(b);
      Utf8Only(b[n..]);
      OnlyFormGrows(b, CodePoint(b[..n]) as char, Utf8(b[n..]).value, n);
    }
  }

  function BeforeSemicolon(s: string): string {
    if s == "" || s[0] == ';' then "" else [s[0]] + BeforeSemicolon(s[1..])
  }

  function HexDigit(c: char): Option<nat> {
    if '0' <= c <= '9' then Some(c as int - '0' as int)
    else if 'a' <= c <= 'f' then Some(c as int - 'a' as int + 10)
    else if 'A' <= c <= 'F' then Some(c as int - 'A' as int + 10)
    else None
  }

  lemma HexDigitExactly(c: char, d: nat)
    requires d < 16
    ensures HexDigit(c) == Some(d) <==> c == "0123456789abcdef"[d] || c == "0123456789ABCDEF"[d]
  {
  }

  function HexValue(s: string): Option<nat> {
    if s == "" then Some(0)
    else
      var high, low := HexValue(s[..|s| - 1]), HexDigit(s[|s| - 1]);
      if high.None? || low.None? then None else Some(high.value * 16 + low.value)
  }

  /** `usize::from_str_radix(_, 16)`: one leading `+` is allowed. */
  function ParseHex(s: string): Option<nat> {
    var digits := if s != "" && s[0] == '+' then s[1..] else s;
    if digits == "" then None
    else
      var value := HexValue(digits);
      if value.None? || value.value > USIZE_MAX then None else value
  }

  /** One plus sign before the digits is read over; a sign alone is nothing. */
  lemma PlusIsReadOver(digits: string)
    ensures digits != "" && digits[0] != '+' ==> ParseHex("+" + digits) == ParseHex(digits)
    ensures ParseHex("+") == None && ParseHex("") == None
  {
    assert ("+" + digits)[1..] == digits;
  }

  /** The chunk size a line announces: what stands before the first semicolon, trimmed. */
  function SizeOf(line: seq<Byte>): Option<nat> {
    var text := Utf8(line);
    if text.None? then None else ParseHex(Trim(BeforeSemicolon(text.value)))
  }

  // ---------------------------------------------------------------- the decoder

  predicate CrlfAt(body: seq<Byte>, i: nat) {
    i + 2 <= |body| && body[i] == 13 && body[i + 1] == 10
  }

  /** The first CRLF at or after `from`. */
  function FindCrlf(body: seq<Byte>, from: nat): (at: Option<nat>)
    ensures at.Some? ==> from <= at.value && CrlfAt(body, at.value)
    ensures forall i :: from <= i && (at.Some? ==> i < at.value) ==> !CrlfAt(body, i)
    decreases |body| - from
  {
    if from + 2 > |body| then None
    else if CrlfAt(body, from) then Some(from)
    else FindCrlf(body, from + 1)
  }

  /** A way to read the size off a size line; the decoder uses `SizeOf`. */
  type SizeReader = seq<Byte> -> Option<nat>

  /** What remains to be decoded from `cursor`, given what has been decoded. */
  function DecodeFrom(read: SizeReader, body: seq<Byte>, cursor: nat, decoded: seq<Byte>): Option<seq<Byte>>
    requires cursor <= |body|
    decreases |body| - cursor
  {
    var lineEnd := FindCrlf(body, cursor);
    if lineEnd.None? then None
    else
      var size := read(body[cursor..lineEnd.value]);
      var start := lineEnd.value + 2;
      if size.None? then None
      else if size.value == 0 then Some(decoded)
      else
        var end := start + size.value;
        if end > USIZE_MAX || !CrlfAt(body, end) || |decoded| + size.value > MAX_RESPONSE then None
        else DecodeFrom(read, body, end + 2, decoded + body[start..end])
  }

  /** The loop: the cursor strictly grows, so it ends. */
  method DecodeWith(read: SizeReader, body: seq<Byte>) returns (r: Option<seq<Byte>>)
    ensures r == DecodeFrom(read, body, 0, [])
  {
    var decoded: seq<Byte> := [];
    var cursor := 0;
    while true
      invariant cursor <= |body| && DecodeFrom(read, body, 0, []) == DecodeFrom(read, body, cursor, decoded)
      decreases |body| - cursor
    {
      var lineEnd := FindCrlf(body, cursor);
      if lineEnd.None? {
        return None;
      }
      var size := read(body[cursor..lineEnd.value]);
      if size.None? {
        return None;
      }
      var start := lineEnd.value + 2;
      if size.value == 0 {
        return Some(decoded);
      }
      var end := start + size.value;
      if end > USIZE_MAX {
        return None;
      }
      if !CrlfAt(body, end) {
        return None;
      }
      if |decoded| + size.value > MAX_RESPONSE {
        return None;
      }
      decoded := decoded + body[start..end];
      cursor := end + 2;
    }
  }

  method DecodeChunked(body: seq<Byte>) returns (r: Option<seq<Byte>>)
    ensures r == DecodeFrom(SizeOf, body, 0, [])
  {
    r := DecodeWith(SizeOf, body);
  }

  // ---------------------------------------------------------------- chunked coding

  /** A chunk: its size line (size and extensions, without the line end) and its data. */
  datatype Chunk = Chunk(line: seq<Byte>, data: seq<Byte>)

  predicate CrlfFree(b: seq<Byte>) {
    forall i :: 0 <= i < |b| ==> !CrlfAt(b, i)
  }

  predicate WellFormed(read: SizeReader, chunks: seq<Chunk>) {
    forall i :: 0 <= i < |chunks| ==> GoodChunk(read, chunks[i])
  }

  predicate GoodChunk(read: SizeReader, c: Chunk) {
    |c.data| > 0 && CrlfFree(c.line) && read(c.line) == Some(|c.data|)
  }

  predicate LastLine(read: SizeReader, line: seq<Byte>) {
    CrlfFree(line) && read(line) == Some(0)
  }

  /** The chunks, the last-chunk line and whatever follows it; 13 and 10 end a line. */
  function Encode(chunks: seq<Chunk>, last: seq<Byte>, tail: seq<Byte>): seq<Byte> {
    if chunks == [] then last + CRLF + tail
    else chunks[0].line + CRLF + chunks[0].data + CRLF + Encode(chunks[1..], last, tail)
  }

  function Payload(chunks: seq<Chunk>): seq<Byte> {
    if chunks == [] then [] else chunks[0].data + Payload(chunks[1..])
  }

  lemma {:induction false} FindsLineEnd(body: seq<Byte>, cursor: nat, line: seq<Byte>)
    requires CrlfFree(line) && CrlfAt(body, cursor + |line|) && body[cursor..cursor + |line|] == line
    ensures FindCrlf(body, cursor) == Some(cursor + |line|)
  {
    var at := cursor + |line|;
    forall i | cursor <= i < at ensures !CrlfAt(body, i) {
      assert body[i] == line[i - cursor];
      if i + 1 < at {
        assert body[i + 1] == line[i + 1 - cursor];
        assert !CrlfAt(line, i - cursor);
      }
    }
    assert FindCrlf(body, cursor).Some?;
  }

  /** One turn of the loop, for a line end and a data end that are known. */
  lemma {:induction false} OneTurn(read: SizeReader, body: seq<Byte>, cursor: nat, decoded: seq<Byte>, lineEnd: nat,
                                   end: nat)
    requires cursor <= |body| <= USIZE_MAX && FindCrlf(body, cursor) == Some(lineEnd) && lineEnd + 2 < end
             && CrlfAt(body, end)
    requires read(body[cursor..lineEnd]) == Some(end - lineEnd - 2) && |decoded| + (end - lineEnd - 2) <= MAX_RESPONSE
    ensures DecodeFrom(read, body, cursor, decoded) == DecodeFrom(read, body, end + 2, decoded + body[lineEnd + 2..end])
  {
  }

  /** The last line at the cursor ends the decoding. */
  lemma {:induction false} StopsAtLast(read: SizeReader, body: seq<Byte>, cursor: nat, decoded: seq<Byte>,
                                       last: seq<Byte>, tail: seq<Byte>)
    requires LastLine(read, last) && cursor <= |body| && body[cursor..] == last + CRLF + tail
    ensures DecodeFrom(read, body, cursor, decoded) == Some(decoded)
  {
    LastLies(body, cursor, last, tail);
    FindsLineEnd(body, cursor, last);
  }

  lemma {:induction false} LastLies(body: seq<Byte>, cursor: nat, last: seq<Byte>, tail: seq<Byte>)
    requires cursor <= |body| && body[cursor..] == last + CRLF + tail
    ensures CrlfAt(body, cursor + |last|) && body[cursor..cursor + |last|] == last
  {
    var rest := body[cursor..];
    assert rest[..|last|] == last;
    assert rest[|last|] == CRLF[0] && rest[|last| + 1] == CRLF[1];
  }

  lemma {:induction false} Regroup(a: seq<Byte>, b: seq<Byte>, c: seq<Byte>)
    ensures a + (b + c) == a + b + c
  {
  }

  lemma {:induction false} WellFormedRest(read: SizeReader, chunks: seq<Chunk>)
    requires WellFormed(read, chunks) && chunks != []
    ensures GoodChunk(read, chunks[0]) && WellFormed(read, chunks[1..])
  {
    assert forall i :: 0 <= i < |chunks[1..]| ==> chunks[1..][i] == chunks[i + 1];
  }

  /** Decoding undoes chunked coding: whatever the size lines look like, as long as each
      announces its chunk, and whatever follows the last chunk. */
  lemma {:induction false} DecodesEncoded(read: SizeReader, body: seq<Byte>, cursor: nat, decoded: seq<Byte>,
                                          chunks: seq<Chunk>, last: seq<Byte>, tail: seq<Byte>)
    requires WellFormed(read, chunks) && LastLine(read, last) && |body| <= USIZE_MAX
    requires cursor <= |body| && body[cursor..] == Encode(chunks, last, tail)
    requires |decoded| + |Payload(chunks)| <= MAX_RESPONSE
    ensures DecodeFrom(read, body, cursor, decoded) == Some(decoded + Payload(chunks))
    decreases |chunks|
  {
    if chunks == [] {
      StopsAtLast(read, body, cursor, decoded, last, tail);
      NothingMore(decoded);
    } else {
      var more := chunks[1..];
      WellFormedRest(read, chunks);
      var lineEnd, end := FirstChunk(read, body, cursor, chunks[0], Encode(more, last, tail));
      OneTurn(read, body, cursor, decoded, lineEnd, end);
      DecodesEncoded(read, body, end + 2, decoded + chunks[0].data, more, last, tail);
      Regroup(decoded, chunks[0].data, Payload(more));
    }
  }

  /** Where the decoder finds the first chunk of an encoded body. */
  lemma {:induction false} FirstChunk(read: SizeReader, body: seq<Byte>, cursor: nat, c: Chunk, more: seq<Byte>)
    returns (lineEnd: nat, end: nat)
    requires GoodChunk(read, c) && cursor <= |body| && body[cursor..] == c.line + CRLF + c.data + CRLF + more
    ensures FindCrlf(body, cursor) == Some(lineEnd) && lineEnd + 2 < end && CrlfAt(body, end)
    ensures read(body[cursor..lineEnd]) == Some(end - lineEnd - 2)
    ensures body[lineEnd + 2..end] == c.data && body[end + 2..] == more
  {
    lineEnd, end := LayOut(body, cursor, c, more);
    FindsLineEnd(body, cursor, c.line);
  }

  lemma {:induction false} NothingMore(a: seq<Byte>)
    ensures a + [] == a
  {
  }

  /** Where the parts of a chunk lie in the body. */
  lemma {:induction false} LayOut(body: seq<Byte>, cursor: nat, c: Chunk, more: seq<Byte>)
    returns (lineEnd: nat, end: nat)
    requires cursor <= |body| && body[cursor..] == c.line + CRLF + c.data + CRLF + more
    ensures lineEnd == cursor + |c.line| && end == lineEnd + 2 + |c.data| && CrlfAt(body, lineEnd) && CrlfAt(body, end)
    ensures body[cursor..lineEnd] == c.line && body[lineEnd + 2..end] == c.data && body[end + 2..] == more
  {
    lineEnd, end := cursor + |c.line|, cursor + |c.line| + 2 + |c.data|;
    var rest := body[cursor..];
    var i := |c.line|;
    var j := i + 2 + |c.data|;
    assert rest[i] == CRLF[0] && rest[i + 1] == CRLF[1] && rest[j] == CRLF[0] && rest[j + 1] == CRLF[1];
    assert rest[..i] == c.line && rest[i + 2..j] == c.data && rest[j + 2..] == more;
  }

  /** A chunk cut out of the body. */
  lemma {:induction false} CutOut(body: seq<Byte>, cursor: nat, lineEnd: nat, end: nat)
    requires cursor <= lineEnd && lineEnd + 2 <= end && CrlfAt(body, lineEnd) && CrlfAt(body, end)
    ensures body[cursor..] == body[cursor..lineEnd] + CRLF + body[lineEnd + 2..end] + CRLF + body[end + 2..]
  {
    assert body[lineEnd..lineEnd + 2] == CRLF && body[end..end + 2] == CRLF;
    assert body[cursor..] == body[cursor..lineEnd] + body[lineEnd..lineEnd + 2] + body[lineEnd + 2..end]
                             + body[end..end + 2] + body[end + 2..];
  }

  lemma {:induction false} CutLast(body: seq<Byte>, cursor: nat, lineEnd: nat)
    requires cursor <= lineEnd && CrlfAt(body, lineEnd)
    ensures body[cursor..] == body[cursor..lineEnd] + CRLF + body[lineEnd + 2..]
  {
    assert body[lineEnd..lineEnd + 2] == CRLF;
    assert body[cursor..] == body[cursor..lineEnd] + body[lineEnd..lineEnd + 2] + body[lineEnd + 2..];
  }

  /** The chunk at the cursor put in front of the chunks behind it. */
  lemma {:induction false} Assemble(read: SizeReader, body: seq<Byte>, cursor: nat, lineEnd: nat, end: nat,
                                    more: seq<Chunk>, last: seq<Byte>, tail: seq<Byte>)
    returns (chunks: seq<Chunk>)
    requires cursor <= lineEnd && lineEnd + 2 < end && CrlfAt(body, lineEnd) && CrlfAt(body, end)
    requires CrlfFree(body[cursor..lineEnd]) && read(body[cursor..lineEnd]) == Some(end - lineEnd - 2)
    requires WellFormed(read, more) && body[end + 2..] == Encode(more, last, tail)
    ensures WellFormed(read, chunks) && body[cursor..] == Encode(chunks, last, tail)
    ensures Payload(chunks) == body[lineEnd + 2..end] + Payload(more)
  {
    CutOut(body, cursor, lineEnd, end);
    chunks := OneMoreChunk(read, Chunk(body[cursor..lineEnd], body[lineEnd + 2..end]), more, last, tail);
  }

  /** What a successful decoding found at the cursor: a last line, or one chunk and more. */
  lemma {:induction false} FoundAt(read: SizeReader, body: seq<Byte>, cursor: nat, decoded: seq<Byte>)
    returns (lineEnd: nat, end: nat)
    requires cursor <= |body| && DecodeFrom(read, body, cursor, decoded).Some?
    ensures cursor <= lineEnd && CrlfAt(body, lineEnd) && CrlfFree(body[cursor..lineEnd])
    ensures read(body[cursor..lineEnd]) == Some(if end == 0 then 0 else end - lineEnd - 2)
    ensures end == 0 ==> DecodeFrom(read, body, cursor, decoded) == Some(decoded)
    ensures end != 0 ==> lineEnd + 2 < end && CrlfAt(body, end)
                         && |decoded| + (end - lineEnd - 2) <= MAX_RESPONSE
                         && DecodeFrom(read, body, cursor, decoded)
                            == DecodeFrom(read, body, end + 2, decoded + body[lineEnd + 2..end])
  {
    lineEnd := FindCrlf(body, cursor).value;
    LineIsFree(body, cursor, lineEnd);
    var size := read(body[cursor..lineEnd]).value;
    end := if size == 0 then 0 else lineEnd + 2 + size;
  }

  /** The body from the cursor on is the chunked coding of what is decoded from there. */
  predicate WasEncoded(read: SizeReader, body: seq<Byte>, cursor: nat, decoded: seq<Byte>, chunks: seq<Chunk>,
                       last: seq<Byte>, tail: seq<Byte>)
    requires cursor <= |body|
  {
    && WellFormed(read, chunks) && LastLine(read, last) && body[cursor..] == Encode(chunks, last, tail)
    && DecodeFrom(read, body, cursor, decoded) == Some(decoded + Payload(chunks))
    && |decoded + Payload(chunks)| <= MAX_RESPONSE
  }

  lemma LastWasEncoded(read: SizeReader, body: seq<Byte>, cursor: nat, decoded: seq<Byte>, lineEnd: nat)
    requires cursor <= lineEnd && CrlfAt(body, lineEnd) && LastLine(read, body[cursor..lineEnd])
    requires DecodeFrom(read, body, cursor, decoded) == Some(decoded) && |decoded| <= MAX_RESPONSE
    ensures WasEncoded(read, body, cursor, decoded, [], body[cursor..lineEnd], body[lineEnd + 2..])
  {
    CutLast(body, cursor, lineEnd);
    NothingMore(decoded);
  }

  lemma MoreWasEncoded(read: SizeReader, body: seq<Byte>, cursor: nat, decoded: seq<Byte>, lineEnd: nat, end: nat,
                       more: seq<Chunk>, last: seq<Byte>, tail: seq<Byte>)
    returns (chunks: seq<Chunk>)
    requires cursor <= lineEnd && lineEnd + 2 < end && CrlfAt(body, lineEnd) && CrlfAt(body, end)
    requires CrlfFree(body[cursor..lineEnd]) && read(body[cursor..lineEnd]) == Some(end - lineEnd - 2)
    requires DecodeFrom(read, body, cursor, decoded)
             == DecodeFrom(read, body, end + 2, decoded + body[lineEnd + 2..end])
    requires WasEncoded(read, body, end + 2, decoded + body[lineEnd + 2..end], more, last, tail)
    ensures WasEncoded(read, body, cursor, decoded, chunks, last, tail)
  {
    chunks := Assemble(read, body, cursor, lineEnd, end, more, last, tail);
    Regroup(decoded, body[lineEnd + 2..end], Payload(more));
  }

  /** Whatever is decoded was chunked: the bytes consumed are well-formed chunks and a last
      line, and the result is their payload, at most the allowed size. */
  lemma {:induction false} DecodedWasEncoded(read: SizeReader, body: seq<Byte>, cursor: nat, decoded: seq<Byte>)
    returns (chunks: seq<Chunk>, last: seq<Byte>, tail: seq<Byte>)
    requires cursor <= |body| && DecodeFrom(read, body, cursor, decoded).Some? && |decoded| <= MAX_RESPONSE
    ensures WasEncoded(read, body, cursor, decoded, chunks, last, tail)
    decreases |body| - cursor
  {
    var lineEnd, end := FoundAt(read, body, cursor, decoded);
    if end == 0 {
      chunks, last, tail := [], body[cursor..lineEnd], body[lineEnd + 2..];
      LastWasEncoded(read, body, cursor, decoded, lineEnd);
    } else {
      var more;
      more, last, tail := DecodedWasEncoded(read, body, end + 2, decoded + body[lineEnd + 2..end]);
      chunks := MoreWasEncoded(read, body, cursor, decoded, lineEnd, end, more, last, tail);
    }
  }

  lemma {:induction false} LineIsFree(body: seq<Byte>, cursor: nat, lineEnd: nat)
    requires FindCrlf(body, cursor) == Some(lineEnd)
    ensures CrlfFree(body[cursor..lineEnd])
  {
    var line := body[cursor..lineEnd];
    forall i | 0 <= i < |line| ensures !CrlfAt(line, i) {
      assert !CrlfAt(body, cursor + i);
    }
  }

  lemma {:induction false} OneMoreChunk(read: SizeReader, c: Chunk, more: seq<Chunk>, last: seq<Byte>,
                                        tail: seq<Byte>) returns (chunks: seq<Chunk>)
    requires GoodChunk(read, c) && WellFormed(read, more)
    ensures chunks == [c] + more && WellFormed(read, chunks) && Payload(chunks) == c.data + Payload(more)
    ensures Encode(chunks, last, tail) == c.line + CRLF + c.data + CRLF + Encode(more, last, tail)
  {
    chunks := [c] + more;
    assert chunks[1..] == more;
  }

  /** `body` is the chunked coding of `payload`. */
  predicate Codes(chunks: seq<Chunk>, last: seq<Byte>, tail: seq<Byte>, body: seq<Byte>, payload: seq<Byte>) {
    WellFormed(SizeOf, chunks) && LastLine(SizeOf, last) && Encode(chunks, last, tail) == body
        && Payload(chunks) == payload
  }

  lemma {:induction false} DecodesCoded(chunks: seq<Chunk>, last: seq<Byte>, tail: seq<Byte>, body: seq<Byte>,
                                        payload: seq<Byte>)
    requires Codes(chunks, last, tail, body, payload) && |body| <= USIZE_MAX && |payload| <= MAX_RESPONSE
    ensures DecodeFrom(SizeOf, body, 0, []) == Some(payload)
  {
    WholeBody(body);
    DecodesEncoded(SizeOf, body, 0, [], chunks, last, tail);
    NothingBefore(payload);
  }

  lemma {:induction false} CodedIfDecodes(body: seq<Byte>, payload: seq<Byte>)
    returns (chunks: seq<Chunk>, last: seq<Byte>, tail: seq<Byte>)
    requires DecodeFrom(SizeOf, body, 0, []) == Some(payload)
    ensures Codes(chunks, last, tail, body, payload) && |payload| <= MAX_RESPONSE
  {
    chunks, last, tail := DecodedWasEncoded(SizeOf, body, 0, []);
    WholeBody(body);
    NothingBefore(Payload(chunks));
  }

  lemma {:induction false} WholeBody(body: seq<Byte>)
    ensures body[0..] == body
  {
  }

  lemma {:induction false} NothingBefore(a: seq<Byte>)
    ensures [] + a == a
  {
  }

  /** The decoder accepts exactly the chunked bodies of at most 1 MiB, read leniently (blanks
      around the size, a leading `+`, any tail), and gives back exactly their payload. */
  lemma {:induction false} DecodeIsExact(body: seq<Byte>, payload: seq<Byte>)
    requires |body| <= USIZE_MAX
    ensures DecodeFrom(SizeOf, body, 0, []) == Some(payload) <==>
            |payload| <= 1048576 && exists chunks, last, tail :: Codes(chunks, last, tail, body, payload)
  {
    if DecodeFrom(SizeOf, body, 0, []) == Some(payload) {
      var chunks, last, tail := CodedIfDecodes(body, payload);
    } else if |payload| <= MAX_RESPONSE && exists chunks, last, tail :: Codes(chunks, last, tail, body, payload) {
      var chunks, last, tail :| Codes(chunks, last, tail, body, payload);
      DecodesCoded(chunks, last, tail, body, payload);
    }
  }

  // ---------------------------------------------------------------- the size lines of RFC 9112

  function Ascii(s: string): seq<Byte>
    requires forall i :: 0 <= i < |s| ==> s[i] as int < 0x80
  {
    if s == "" then [] else [s[0] as int] + Ascii(s[1..])
  }

  lemma {:induction false} HexText(s: string)
    requires HexValue(s).Some?
    ensures forall i :: 0 <= i < |s| ==>
            HexDigit(s[i]).Some? && s[i] as int < 0x80 && s[i] != ';' && s[i] != '+' && !IsSpace(s[i])
  {
    if s != "" {
      HexText(s[..|s| - 1]);
    }
  }

  /** An ASCII byte is its own character. */
  lemma {:induction false} AsciiHead(b: seq<Byte>)
    requires b != [] && b[0] < 0x80
    ensures Utf8(b) == if Utf8(b[1..]).Some? then Some([b[0] as char] + Utf8(b[1..]).value) else None
  {
    assert b[1..1] == [] && b[..1] == [b[0]];
  }

  lemma {:induction false} AsciiPrefix(s: string, rest: seq<Byte>)
    requires forall i :: 0 <= i < |s| ==> s[i] as int < 0x80
    ensures Utf8(Ascii(s) + rest) == if Utf8(rest).Some? then Some(s + Utf8(rest).value) else None
    decreases |s|
  {
    if s == "" {
      assert Ascii(s) + rest == rest;
      assert Utf8(rest).Some? ==> s + Utf8(rest).value == Utf8(rest).value;
    } else {
      AsciiPrefix(s[1..], rest);
      var b := Ascii(s) + rest;
      assert b[0] == s[0] as int && b[1..] == Ascii(s[1..]) + rest;
      AsciiHead(b);
      if Utf8(rest).Some? {
        assert [s[0]] + (s[1..] + Utf8(rest).value) == s + Utf8(rest).value;
      }
    }
  }

  lemma {:induction false} StopsAtSemicolon(s: string, rest: string)
    requires ';' !in s && (rest == "" || rest[0] == ';')
    ensures BeforeSemicolon(s + rest) == s
    decreases |s|
  {
    if s == "" {
      assert s + rest == rest;
    } else {
      assert (s + rest)[1..] == s[1..] + rest;
      StopsAtSemicolon(s[1..], rest);
    }
  }

  lemma {:induction false} NotTrimmed(s: string)
    requires s != "" && !IsSpace(s[0]) && !IsSpace(s[|s| - 1])
    ensures Trim(s) == s
  {
  }

  /** A size line of RFC 9112: hexadecimal digits in any case and with any leading zeros, then
      nothing or an extension. It announces its size exactly if the extension is UTF-8; the
      obs-text bytes that the RFC allows in a quoted extension value make the line unreadable. */
  lemma {:induction false} SizeLine(digits: string, ext: seq<Byte>)
    requires digits != "" && HexValue(digits).Some? && HexValue(digits).value <= USIZE_MAX
             && (ext == [] || ext[0] == 0x3B)
    requires forall i :: 0 <= i < |digits| ==> digits[i] as int < 0x80
    ensures SizeOf(Ascii(digits) + ext) == if Utf8(ext).Some? then HexValue(digits) else None
  {
    HexText(digits);
    AsciiPrefix(digits, ext);
    if Utf8(ext).Some? {
      SemicolonStays(ext);
      StopsAtSemicolon(digits, Utf8(ext).value);
      NotTrimmed(digits);
    }
  }

  lemma {:induction false} SemicolonStays(ext: seq<Byte>)
    requires Utf8(ext).Some? && (ext == [] || ext[0] == 0x3B)
    ensures Utf8(ext).value == "" || Utf8(ext).value[0] == ';'
  {
    if ext != [] {
      assert CodePoint(ext[..1]) == 0x3B;
    }
  }

  function HexChar(d: nat): (c: char)
    requires d < 16
    ensures HexDigit(c) == Some(d)
  {
    if d < 10 then ('0' as int + d) as char else ('a' as int + d - 10) as char
  }

  function Hex(n: nat): string {
    if n < 16 then [HexChar(n)] else Hex(n / 16) + [HexChar(n % 16)]
  }

  lemma {:induction false} HexOfLast(s: string, c: char)
    ensures HexValue(s + [c])
            == if HexValue(s).Some? && HexDigit(c).Some? then Some(HexValue(s).value * 16 + HexDigit(c).value)
               else None
  {
    assert (s + [c])[..|s|] == s;
  }

  /** Every size has a size line. */
  lemma {:induction false} HexRoundTrip(n: nat)
    ensures Hex(n) != "" && HexValue(Hex(n)) == Some(n)
  {
    if n < 16 {
      HexOfLast("", HexChar(n));
      assert "" + [HexChar(n)] == Hex(n);
    } else {
      HexRoundTrip(n / 16);
      HexOfLast(Hex(n / 16), HexChar(n % 16));
    }
  }
}
