// The length-prefixed MCP frames of the agent-control server: what the writer
// prints, the reader reads back.  A byte is a char below 256.
module McpFrames {

  datatype Option<+T> = None | Some(value: T)

  type Bytes = string

  const USIZE := 0x1_0000_0000_0000_0000
  const LENGTH_KEY := "Content-Length:"

  // ----------------------------------------------------------------- decimals

  predicate IsDigit(c: char) {
    '0' <= c <= '9'
  }

  predicate AllDigits(s: string) {
    forall i :: 0 <= i < |s| ==> IsDigit(s[i])
  }

  function Value(s: string): nat
    requires AllDigits(s)
  {
    if s == [] then 0 else 10 * Value(s[..|s| - 1]) + (s[|s| - 1] as int - '0' as int)
  }

  function Decimal(n: nat): (s: string)
    ensures s != [] && AllDigits(s) && Value(s) == n
  {
    if n < 10 then ['0' + n as char] else Decimal(n / 10) + ['0' + (n % 10) as char]
  }

  /** `str::parse::<usize>`: an optional plus sign, at least one digit, no overflow. */
  function ParseUsize(s: string): Option<nat> {
    var digits := if s != [] && s[0] == '+' then s[1..] else s;
    if digits == [] || !AllDigits(digits) || Value(digits) >= USIZE then None else Some(Value(digits))
  }

  method ReadDecimal(s: string) returns (r: Option<nat>)
    ensures r == ParseUsize(s)
  {
    var digits := if s != [] && s[0] == '+' then s[1..] else s;
    if digits == [] {
      return None;
    }
    var n := 0;
    for i := 0 to |digits|
      invariant AllDigits(digits[..i]) && n == Value(digits[..i])
      invariant n < USIZE
    {
      if !IsDigit(digits[i]) {
        return None;
      }
      assert digits[..i + 1][..i] == digits[..i];
      assert AllDigits(digits[..i + 1]);
      n := 10 * n + (digits[i] as int - '0' as int);
      if n >= USIZE {
        ValueGrows(digits, i + 1);
        return None;
      }
    }
    assert digits[..|digits|] == digits;
    return Some(n);
  }

  lemma {:induction false} ValueGrows(s: string, i: nat)
    requires i <= |s| && AllDigits(s[..i])
    ensures AllDigits(s) ==> Value(s[..i]) <= Value(s)
  {
    if i == |s| {
      assert s[..i] == s;
    } else if AllDigits(s) {
      ValueGrows(s[..|s| - 1], i);
      assert s[..|s| - 1][..i] == s[..i];
    }
  }

  // ------------------------------------------------------------------- lines

  predicate IsSpace(c: char) {
    c == ' ' || ('\t' <= c <= '\r')
  }

  function TrimStart(s: string): string {
    if s != [] && IsSpace(s[0]) then TrimStart(s[1..]) else s
  }

  function TrimEnd(s: string): string {
    if s != [] && IsSpace(s[|s| - 1]) then TrimEnd(s[..|s| - 1]) else s
  }

  function TrimEol(s: string): string {
    if s != [] && s[|s| - 1] in {'\r', '\n'} then TrimEol(s[..|s| - 1]) else s
  }

  function Trim(s: string): string {
    TrimEnd(TrimStart(s))
  }

  /** Length of the first line with its newline, or of everything when there is no newline. */
  function LineLength(s: Bytes): (n: nat)
    ensures n <= |s| && (s != [] ==> n > 0)
    ensures forall i :: 0 <= i < n - 1 ==> s[i] != '\n'
    ensures n < |s| ==> s[n - 1] == '\n'
  {
    if s == [] then 0 else if s[0] == '\n' then 1 else 1 + LineLength(s[1..])
  }

  predicate IsBlank(line: string) {
    line == "\r\n" || line == "\n"
  }

  datatype Header = NotLength | BadLength | Length(n: nat)

  function ReadHeader(line: string): Header {
    var trimmed := TrimEol(line);
    if LENGTH_KEY <= trimmed then
      var r := ParseUsize(Trim(trimmed[|LENGTH_KEY|..]));
      if r.None? then BadLength else Length(r.value)
    else NotLength
  }

  datatype Headers = NoMore | Broken | Body(length: nat, rest: Bytes)

  /** The header loop.  Input that ends before any length was seen is a clean end. */
  function ReadHeaders(utf8: Bytes -> bool, input: Bytes, length: Option<nat>): Headers
    decreases |input|
  {
    if input == [] then (if length.None? then NoMore else Broken)
    else
      var n := LineLength(input);
      var line := input[..n];
      if !utf8(line) then Broken
      else if IsBlank(line) then (if length.None? then Broken else Body(length.value, input[n..]))
      else
        var h := ReadHeader(line);
        if h.BadLength? then Broken
        else ReadHeaders(utf8, input[n..], if h.Length? then Some(h.n) else length)
  }

  /** `Abort` is a body for which no buffer can be allocated. */
  datatype Outcome<V> = End | Error | Abort | Message(value: V, rest: Bytes)

  function ReadMessage<V>(utf8: Bytes -> bool, fits: nat -> bool, decode: Bytes -> Option<V>, input: Bytes): (r: Outcome<V>)
    ensures r.Message? ==> |r.rest| < |input|
  {
    HeadersShrink(utf8, input, None);
    match ReadHeaders(utf8, input, None)
    case NoMore => End
    case Broken => Error
    case Body(n, rest) =>
      if !fits(n) then Abort
      else if |rest| < n then Error
      else
        var v := decode(rest[..n]);
        if v.None? then Error else Message(v.value, rest[n..])
  }

  lemma {:induction false} HeadersShrink(utf8: Bytes -> bool, input: Bytes, length: Option<nat>)
    ensures var h := ReadHeaders(utf8, input, length); h.Body? ==> |h.rest| < |input|
    decreases |input|
  {
    if input != [] {
      var n := LineLength(input);
      var line := input[..n];
      var h := ReadHeader(line);
      HeadersShrink(utf8, input[n..], if h.Length? then Some(h.n) else length);
    }
  }

  method Read<V>(utf8: Bytes -> bool, fits: nat -> bool, decode: Bytes -> Option<V>, input: Bytes) returns (r: Outcome<V>)
    ensures r == ReadMessage(utf8, fits, decode, input)
  {
    var length: Option<nat> := None;
    var rest := input;
    while true
      invariant ReadHeaders(utf8, input, None) == ReadHeaders(utf8, rest, length)
      decreases |rest|
    {
      if rest == [] {
        return if length.None? then End else Error;
      }
      var n := LineLength(rest);
      var line := rest[..n];
      if !utf8(line) {
        return Error;
      }
      rest := rest[n..];
      if IsBlank(line) {
        break;
      }
      var trimmed := TrimEol(line);
      if LENGTH_KEY <= trimmed {
        var parsed := ReadDecimal(Trim(trimmed[|LENGTH_KEY|..]));
        if parsed.None? {
          return Error;
        }
        length := parsed;
      }
    }
    if length.None? {
      return Error;
    }
    if !fits(length.value) {
      return Abort;
    }
    if |rest| < length.value {
      return Error;
    }
    var v := decode(rest[..length.value]);
    return if v.None? then Error else Message(v.value, rest[length.value..]);
  }

  // ------------------------------------------------------------------ writer

  function Frame(body: Bytes): Bytes {
    LENGTH_KEY + " " + Decimal(|body|) + "\r\n\r\n" + body
  }

  function WriteAll<V>(encode: V -> Bytes, vs: seq<V>): Bytes {
    if vs == [] then [] else Frame(encode(vs[0])) + WriteAll(encode, vs[1..])
  }

  /** Reading until the end of the stream or the first error. */
  function ReadAll<V>(utf8: Bytes -> bool, fits: nat -> bool, decode: Bytes -> Option<V>, input: Bytes): (seq<V>, bool)
    decreases |input|
  {
    match ReadMessage(utf8, fits, decode, input)
    case End => ([], true)
    case Error => ([], false)
    case Abort => ([], false)
    case Message(v, rest) =>
      var (vs, clean) := ReadAll(utf8, fits, decode, rest);
      ([v] + vs, clean)
  }

  // ------------------------------------------------------- reading one header

  predicate IsEol(s: string) {
    s == "\n" || s == "\r\n"
  }

  predicate AllSpaces(s: string) {
    forall i :: 0 <= i < |s| ==> s[i] == ' '
  }

  /** One complete line: a newline at the end and nowhere else. */
  predicate IsLine(s: Bytes) {
    s != [] && s[|s| - 1] == '\n' && forall i :: 0 <= i < |s| - 1 ==> s[i] != '\n'
  }

  lemma {:induction false} FirstLine(line: Bytes, rest: Bytes)
    requires IsLine(line)
    ensures LineLength(line + rest) == |line|
  {
    if |line| > 1 {
      assert (line + rest)[1..] == line[1..] + rest;
      FirstLine(line[1..], rest);
    }
  }

  lemma {:induction false} LastLine(part: Bytes)
    requires '\n' !in part
    ensures LineLength(part) == |part|
  {
  }

  lemma {:induction false} TrimStartSpaces(pad: string, s: string)
    requires AllSpaces(pad) && s != [] && !IsSpace(s[0])
    ensures TrimStart(pad + s) == s
  {
    if pad == [] {
      assert pad + s == s;
    } else {
      assert (pad + s)[1..] == pad[1..] + s;
      TrimStartSpaces(pad[1..], s);
    }
  }

  lemma {:induction false} TrimEndSpaces(s: string, pad: string)
    requires AllSpaces(pad) && s != [] && !IsSpace(s[|s| - 1])
    ensures TrimEnd(s + pad) == s
  {
    if pad == [] {
      assert s + pad == s;
    } else {
      assert (s + pad)[..|s + pad| - 1] == s + pad[..|pad| - 1];
      TrimEndSpaces(s, pad[..|pad| - 1]);
    }
  }

  lemma TrimPadded(left: string, digits: string, right: string)
    requires AllSpaces(left) && AllSpaces(right) && digits != [] && AllDigits(digits)
    ensures Trim(left + digits + right) == digits
  {
    assert left + digits + right == left + (digits + right);
    assert (digits + right)[0] == digits[0];
    TrimStartSpaces(left, digits + right);
    TrimEndSpaces(digits, right);
  }

  lemma TrimEolOnce(s: string, eol: string)
    requires IsEol(eol) && s != [] && s[|s| - 1] !in {'\r', '\n'}
    ensures TrimEol(s + eol) == s
  {
    if eol == "\n" {
      assert (s + eol)[..|s|] == s;
    } else {
      assert (s + eol)[|s| + 1] == '\n' && (s + eol)[..|s| + 1] == s + "\r";
      assert (s + "\r")[|s|] == '\r' && (s + "\r")[..|s|] == s;
      assert TrimEol(s + "\r") == s;
    }
  }

  function LengthLine(left: string, n: nat, right: string, eol: string): Bytes {
    LENGTH_KEY + left + Decimal(n) + right + eol
  }

  lemma LengthLineReads(left: string, n: nat, right: string, eol: string)
    requires AllSpaces(left) && AllSpaces(right) && IsEol(eol) && n < USIZE
    ensures IsLine(LengthLine(left, n, right, eol)) && !IsBlank(LengthLine(left, n, right, eol))
    ensures ReadHeader(LengthLine(left, n, right, eol)) == Length(n)
  {
    var text := LENGTH_KEY + (left + Decimal(n) + right);
    var line := LengthLine(left, n, right, eol);
    assert line == text + eol;
    assert text[|text| - 1] == if right == [] then Decimal(n)[|Decimal(n)| - 1] else right[|right| - 1];
    TrimEolOnce(text, eol);
    assert text[|LENGTH_KEY|..] == left + Decimal(n) + right;
    TrimPadded(left, Decimal(n), right);
    forall i | 0 <= i < |line| - 1 ensures line[i] != '\n' {
      if i < |text| {
        assert text[i] != '\n' by {
          TextHasNoNewline(left, n, right, i);
        }
      }
    }
  }

  lemma TextHasNoNewline(left: string, n: nat, right: string, i: nat)
    requires AllSpaces(left) && AllSpaces(right) && i < |LENGTH_KEY + (left + Decimal(n) + right)|
    ensures (LENGTH_KEY + (left + Decimal(n) + right))[i] != '\n'
  {
  }

  // ------------------------------------------------- messages among headers

  /** A line the reader skips. */
  predicate IsExtra(utf8: Bytes -> bool, line: Bytes) {
    IsLine(line) && utf8(line) && !IsBlank(line) && ReadHeader(line).NotLength?
  }

  function Concat(lines: seq<Bytes>): Bytes {
    if lines == [] then [] else lines[0] + Concat(lines[1..])
  }

  lemma {:induction false} ExtrasSkipped(utf8: Bytes -> bool, extras: seq<Bytes>, rest: Bytes, length: Option<nat>)
    requires forall i :: 0 <= i < |extras| ==> IsExtra(utf8, extras[i])
    ensures ReadHeaders(utf8, Concat(extras) + rest, length) == ReadHeaders(utf8, rest, length)
  {
    if extras == [] {
      assert Concat(extras) + rest == rest;
    } else {
      var tail := Concat(extras[1..]) + rest;
      assert Concat(extras) + rest == extras[0] + tail;
      FirstLine(extras[0], tail);
      assert (extras[0] + tail)[..|extras[0]|] == extras[0] && (extras[0] + tail)[|extras[0]|..] == tail;
      ExtrasSkipped(utf8, extras[1..], rest, length);
    }
  }

  lemma LengthLineSeen(utf8: Bytes -> bool, line: Bytes, n: nat, rest: Bytes, length: Option<nat>)
    requires IsLine(line) && !IsBlank(line) && ReadHeader(line) == Length(n) && utf8(line)
    ensures ReadHeaders(utf8, line + rest, length) == ReadHeaders(utf8, rest, Some(n))
  {
    FirstLine(line, rest);
    assert (line + rest)[..|line|] == line && (line + rest)[|line|..] == rest;
  }

  lemma BlankEnds(utf8: Bytes -> bool, blank: Bytes, rest: Bytes, n: nat)
    requires IsEol(blank) && utf8(blank)
    ensures ReadHeaders(utf8, blank + rest, Some(n)) == Body(n, rest)
  {
    FirstLine(blank, rest);
    assert (blank + rest)[..|blank|] == blank && (blank + rest)[|blank|..] == rest;
  }

  /** A message is read whatever extra header lines surround its length, with either newline style
      and any blanks around the number; the body and what follows it are untouched. */
  lemma MessageAmongExtras<V>(utf8: Bytes -> bool, fits: nat -> bool, decode: Bytes -> Option<V>, pre: seq<Bytes>, post: seq<Bytes>,
                              left: string, right: string, eol: string, blank: string,
                              body: Bytes, v: V, rest: Bytes)
    requires forall i :: 0 <= i < |pre| ==> IsExtra(utf8, pre[i])
    requires forall i :: 0 <= i < |post| ==> IsExtra(utf8, post[i])
    requires AllSpaces(left) && AllSpaces(right) && IsEol(eol) && IsEol(blank)
    requires utf8(LengthLine(left, |body|, right, eol)) && utf8(blank)
    requires |body| < USIZE && fits(|body|) && decode(body) == Some(v)
    ensures ReadMessage(utf8, fits, decode,
              Concat(pre) + (LengthLine(left, |body|, right, eol) + (Concat(post) + (blank + (body + rest)))))
            == Message(v, rest)
  {
    var n := |body|;
    var afterBlank := body + rest;
    var afterLength := Concat(post) + (blank + afterBlank);
    LengthLineReads(left, n, right, eol);
    ExtrasSkipped(utf8, pre, LengthLine(left, n, right, eol) + afterLength, None);
    LengthLineSeen(utf8, LengthLine(left, n, right, eol), n, afterLength, None);
    ExtrasSkipped(utf8, post, blank + afterBlank, Some(n));
    BlankEnds(utf8, blank, afterBlank, n);
    assert afterBlank[..n] == body && afterBlank[n..] == rest;
  }

  lemma FrameReads<V>(utf8: Bytes -> bool, fits: nat -> bool, decode: Bytes -> Option<V>, body: Bytes, v: V, rest: Bytes)
    requires utf8(LengthLine(" ", |body|, "", "\r\n")) && utf8("\r\n")
    requires |body| < USIZE && fits(|body|) && decode(body) == Some(v)
    ensures ReadMessage(utf8, fits, decode, Frame(body) + rest) == Message(v, rest)
  {
    MessageAmongExtras(utf8, fits, decode, [], [], " ", "", "\r\n", "\r\n", body, v, rest);
    FrameShape(body);
    NoExtras(LengthLine(" ", |body|, "", "\r\n"), "\r\n", body, rest);
  }

  lemma NoExtras(line: Bytes, blank: Bytes, body: Bytes, rest: Bytes)
    ensures Concat([]) + (line + (Concat([]) + (blank + (body + rest)))) == line + blank + body + rest
  {
  }

  lemma FrameShape(body: Bytes)
    ensures Frame(body) == LengthLine(" ", |body|, "", "\r\n") + "\r\n" + body
  {
  }

  predicate IsAscii(s: Bytes) {
    forall i :: 0 <= i < |s| ==> s[i] < 128 as char
  }

  /** Any UTF-8 check accepts plain ASCII, and all header text the writer prints is ASCII. */
  ghost predicate AcceptsAscii(utf8: Bytes -> bool) {
    forall s :: IsAscii(s) ==> utf8(s)
  }

  lemma LengthLineIsAscii(n: nat)
    ensures IsAscii(LengthLine(" ", n, "", "\r\n"))
  {
  }

  /** Messages written back to back are read back exactly, and then the stream ends cleanly. */
  lemma {:induction false} ReadAllInvertsWriteAll<V>(utf8: Bytes -> bool, fits: nat -> bool, encode: V -> Bytes, decode: Bytes -> Option<V>, vs: seq<V>)
    requires AcceptsAscii(utf8)
    requires forall i :: 0 <= i < |vs| ==> decode(encode(vs[i])) == Some(vs[i]) && |encode(vs[i])| < USIZE && fits(|encode(vs[i])|)
    ensures ReadAll(utf8, fits, decode, WriteAll(encode, vs)) == (vs, true)
  {
    if vs != [] {
      LengthLineIsAscii(|encode(vs[0])|);
      assert IsAscii("\r\n");
      FrameReads(utf8, fits, decode, encode(vs[0]), vs[0], WriteAll(encode, vs[1..]));
      ReadAllInvertsWriteAll(utf8, fits, encode, decode, vs[1..]);
      assert [vs[0]] + vs[1..] == vs;
    }
  }

  // -------------------------------------------------------------- truncation

  /** The length key survives trimming of whatever follows it on the line. */
  lemma {:induction false} KeySurvives(tail: string)
    ensures LENGTH_KEY <= TrimEol(LENGTH_KEY + tail)
  {
    if tail == [] {
      assert LENGTH_KEY + tail == LENGTH_KEY;
      assert LENGTH_KEY[|LENGTH_KEY| - 1] == ':';
    } else {
      assert (LENGTH_KEY + tail)[..|LENGTH_KEY + tail| - 1] == LENGTH_KEY + tail[..|tail| - 1];
      KeySurvives(tail[..|tail| - 1]);
    }
  }

  lemma CutInKey(utf8: Bytes -> bool, k: nat)
    requires AcceptsAscii(utf8) && k < |LENGTH_KEY|
    ensures ReadHeaders(utf8, LENGTH_KEY[..k], None) == NoMore
  {
    var part := LENGTH_KEY[..k];
    assert IsAscii(part) && forall i :: 0 <= i < k ==> part[i] !in {'\r', '\n'};
    if k > 0 {
      LastLine(part);
      assert part[..k] == part && part[k..] == [];
      assert TrimEol(part) == part;
      assert ReadHeader(part) == NotLength;
      assert !IsBlank(part) by {
        assert part[0] == 'C';
      }
    }
  }

  lemma CutInLengthLine(utf8: Bytes -> bool, n: nat, k: nat)
    requires n < USIZE && |LENGTH_KEY| <= k <= |LengthLine(" ", n, "", "\r\n")|
    ensures ReadHeaders(utf8, LengthLine(" ", n, "", "\r\n")[..k], None) == Broken
  {
    var line := LengthLine(" ", n, "", "\r\n");
    var part := line[..k];
    LengthLineReads(" ", n, "", "\r\n");
    if k == |line| {
      assert part == line && line + [] == line;
      FirstLine(line, []);
    } else {
      LastLine(part);
    }
    assert part == LENGTH_KEY + part[|LENGTH_KEY|..];
    KeyedLastLineBreaks(utf8, part[|LENGTH_KEY|..]);
  }

  /** A last line that begins with the key is no end of stream: nothing follows it. */
  lemma KeyedLastLineBreaks(utf8: Bytes -> bool, tail: Bytes)
    requires LineLength(LENGTH_KEY + tail) == |LENGTH_KEY + tail|
    ensures ReadHeaders(utf8, LENGTH_KEY + tail, None) == Broken
  {
    var part := LENGTH_KEY + tail;
    assert part[..|part|] == part && part[|part|..] == [];
    assert part[0] == LENGTH_KEY[0] == 'C';
    KeySurvives(tail);
  }

  lemma CutAfterLengthLine(utf8: Bytes -> bool, n: nat, tail: Bytes)
    requires AcceptsAscii(utf8) && n < USIZE
    ensures ReadHeaders(utf8, LengthLine(" ", n, "", "\r\n") + "\r", None) == Broken
    ensures ReadHeaders(utf8, LengthLine(" ", n, "", "\r\n") + ("\r\n" + tail), None) == Body(n, tail)
  {
    LengthLineIsAscii(n);
    LengthLineReads(" ", n, "", "\r\n");
    LengthLineSeen(utf8, LengthLine(" ", n, "", "\r\n"), n, "\r", None);
    LengthLineSeen(utf8, LengthLine(" ", n, "", "\r\n"), n, "\r\n" + tail, None);
    CutInBlank(utf8, n);
    assert IsAscii("\r\n");
    BlankEnds(utf8, "\r\n", tail, n);
  }

  /** A stream that stops inside a message never yields a message.  It looks like a clean end exactly
      when it stops before the header's colon; after the headers it aborts when the body has no
      buffer; and it is an error everywhere else. */
  lemma TruncatedFrameIsNeverAMessage<V>(utf8: Bytes -> bool, fits: nat -> bool, decode: Bytes -> Option<V>, body: Bytes, k: nat)
    requires AcceptsAscii(utf8) && |body| < USIZE && k < |Frame(body)|
    ensures ReadMessage(utf8, fits, decode, Frame(body)[..k]) == if k < |LENGTH_KEY| then End
         else if k >= |Frame(body)| - |body| && !fits(|body|) then Abort else Error
  {
    var line := LengthLine(" ", |body|, "", "\r\n");
    FrameShape(body);
    if k < |LENGTH_KEY| {
      assert Frame(body)[..k] == LENGTH_KEY[..k];
      CutInKey(utf8, k);
    } else if k <= |line| {
      assert Frame(body)[..k] == line[..k];
      CutInLengthLine(utf8, |body|, k);
    } else if k == |line| + 1 {
      assert Frame(body)[..k] == line + "\r";
      CutAfterLengthLine(utf8, |body|, []);
    } else {
      var tail := body[..k - |line| - 2];
      assert Frame(body)[..k] == line + ("\r\n" + tail);
      CutAfterLengthLine(utf8, |body|, tail);
    }
  }

  // ------------------------------------------------------------ the buffer

  /** A header line that does not fail: skipped, or a length that a later one may replace. */
  predicate IsHeader(utf8: Bytes -> bool, line: Bytes) {
    IsLine(line) && utf8(line) && !IsBlank(line) && !ReadHeader(line).BadLength?
  }

  /** The length that some header lines leave announced. */
  function LastLength(lines: seq<Bytes>, length: Option<nat>): Option<nat> {
    if lines == [] then length else
    var h := ReadHeader(lines[0]);
    LastLength(lines[1..], if h.Length? then Some(h.n) else length)
  }

  /** The input is header lines that announce `n`, a blank line, and `rest`. */
  predicate Announces(utf8: Bytes -> bool, input: Bytes, lines: seq<Bytes>, blank: Bytes, rest: Bytes, length: Option<nat>, n: nat) {
    && (forall i :: 0 <= i < |lines| ==> IsHeader(utf8, lines[i]))
    && IsEol(blank) && utf8(blank) && LastLength(lines, length) == Some(n)
    && input == Concat(lines) + (blank + rest)
  }

  lemma {:induction false} HeadersAreRead(utf8: Bytes -> bool, input: Bytes, lines: seq<Bytes>, blank: Bytes, rest: Bytes,
                                          length: Option<nat>, n: nat)
    requires Announces(utf8, input, lines, blank, rest, length, n)
    ensures ReadHeaders(utf8, input, length) == Body(n, rest)
  {
    if lines == [] {
      assert input == blank + rest;
      BlankEnds(utf8, blank, rest, n);
    } else {
      var tail := Concat(lines[1..]) + (blank + rest);
      var h := ReadHeader(lines[0]);
      assert input == lines[0] + tail;
      FirstLine(lines[0], tail);
      assert input[..|lines[0]|] == lines[0] && input[|lines[0]|..] == tail;
      HeadersAreRead(utf8, tail, lines[1..], blank, rest, if h.Length? then Some(h.n) else length, n);
    }
  }

  lemma AnnouncesMore(utf8: Bytes -> bool, line: Bytes, tail: Bytes, more: seq<Bytes>, blank: Bytes, rest: Bytes,
                      length: Option<nat>, next: Option<nat>, n: nat)
    requires IsHeader(utf8, line) && Announces(utf8, tail, more, blank, rest, next, n)
    requires next == var h := ReadHeader(line); if h.Length? then Some(h.n) else length
    ensures Announces(utf8, line + tail, [line] + more, blank, rest, length, n)
  {
    var lines := [line] + more;
    assert lines[1..] == more;
    assert line + (Concat(more) + (blank + rest)) == Concat(lines) + (blank + rest);
  }

  /** One header line on the way to a body. */
  lemma HeaderStep(utf8: Bytes -> bool, input: Bytes, length: Option<nat>, k: nat, next: Option<nat>)
    requires ReadHeaders(utf8, input, length).Body? && k == LineLength(input) && !IsBlank(input[..k])
    requires next == var h := ReadHeader(input[..k]); if h.Length? then Some(h.n) else length
    ensures 0 < k && IsHeader(utf8, input[..k]) && ReadHeaders(utf8, input, length) == ReadHeaders(utf8, input[k..], next)
  {
    assert input[k..] != [];
  }

  /** Headers that are read to a body have that form. */
  lemma {:induction false} ReadHeadersAre(utf8: Bytes -> bool, input: Bytes, length: Option<nat>) returns (lines: seq<Bytes>, blank: Bytes)
    requires ReadHeaders(utf8, input, length).Body?
    ensures var h := ReadHeaders(utf8, input, length); Announces(utf8, input, lines, blank, h.rest, length, h.length)
    decreases |input|
  {
    var k := LineLength(input);
    var line, tail := input[..k], input[k..];
    assert input == line + tail;
    if IsBlank(line) {
      lines, blank := [], line;
      assert Concat(lines) + (blank + tail) == input;
    } else {
      var header := ReadHeader(line);
      var next := if header.Length? then Some(header.n) else length;
      HeaderStep(utf8, input, length, k, next);
      var more: seq<Bytes>;
      more, blank := ReadHeadersAre(utf8, tail, next);
      lines := [line] + more;
      var h := ReadHeaders(utf8, tail, next);
      AnnouncesMore(utf8, line, tail, more, blank, h.rest, length, next, h.length);
    }
  }

  /** Of all inputs, reading aborts on exactly those that begin with header lines announcing a length
      that has no buffer: the buffer is sized before any of the body is seen. */
  lemma AbortsIff<V>(utf8: Bytes -> bool, fits: nat -> bool, decode: Bytes -> Option<V>, input: Bytes)
    ensures ReadMessage(utf8, fits, decode, input).Abort? <==>
      exists lines, blank, rest, n :: Announces(utf8, input, lines, blank, rest, None, n) && !fits(n)
  {
    var h := ReadHeaders(utf8, input, None);
    if h.Body? {
      var lines, blank := ReadHeadersAre(utf8, input, None);
    }
    forall lines, blank, rest, n | Announces(utf8, input, lines, blank, rest, None, n) ensures h == Body(n, rest) {
      HeadersAreRead(utf8, input, lines, blank, rest, None, n);
    }
  }

  lemma CutInBlank(utf8: Bytes -> bool, n: nat)
    ensures ReadHeaders(utf8, "\r", Some(n)) == Broken
  {
  }

  // ------------------------------------------------------ every input, exactly

  /** A numeral of at most 64 bits, with a plus sign or without. */
  predicate IsNumeral(s: string, n: nat) {
    exists d :: d in {s, if s != "" then s[1..] else s} && (d == s || s == "+" + d)
                && d != "" && AllDigits(d) && Value(d) == n && n < 0x1_0000_0000_0000_0000
  }

  lemma NumeralIff(s: string, n: nat)
    ensures ParseUsize(s) == Some(n) <==> IsNumeral(s, n)
  {
    var digits := if s != [] && s[0] == '+' then s[1..] else s;
    if ParseUsize(s) == Some(n) {
      assert s != digits ==> s == "+" + digits;
      assert IsNumeral(s, n);
    }
    if IsNumeral(s, n) {
      var d :| d in {s, if s != "" then s[1..] else s} && (d == s || s == "+" + d)
                && d != "" && AllDigits(d) && Value(d) == n && n < 0x1_0000_0000_0000_0000;
      assert d == s ==> IsDigit(s[0]);
    }
  }

  predicate AllBlank(s: string) {
    forall i :: 0 <= i < |s| ==> IsSpace(s[i])
  }

  predicate Solid(s: string) {
    s != "" ==> !IsSpace(s[0]) && !IsSpace(s[|s| - 1])
  }

  lemma {:induction false} TrimStartSplits(s: string) returns (left: string)
    ensures s == left + TrimStart(s) && AllBlank(left) && (TrimStart(s) != "" ==> !IsSpace(TrimStart(s)[0]))
  {
    left := "";
    if s != [] && IsSpace(s[0]) {
      var more := TrimStartSplits(s[1..]);
      left := [s[0]] + more;
      assert s == [s[0]] + s[1..];
    }
  }

  lemma {:induction false} TrimEndSplits(s: string) returns (right: string)
    ensures s == TrimEnd(s) + right && AllBlank(right)
    ensures TrimEnd(s) != "" ==> !IsSpace(TrimEnd(s)[|TrimEnd(s)| - 1]) && TrimEnd(s)[0] == s[0]
  {
    right := "";
    if s != [] && IsSpace(s[|s| - 1]) {
      var more := TrimEndSplits(s[..|s| - 1]);
      right := more + [s[|s| - 1]];
      assert s == s[..|s| - 1] + [s[|s| - 1]];
    } else {
      assert s == s + "";
    }
  }

  lemma {:induction false} TrimEolSplits(s: string) returns (right: string)
    ensures s == TrimEol(s) + right && AllBlank(right)
  {
    right := "";
    if s != [] && s[|s| - 1] in {'\r', '\n'} {
      var more := TrimEolSplits(s[..|s| - 1]);
      right := more + [s[|s| - 1]];
      assert s == s[..|s| - 1] + [s[|s| - 1]];
    } else {
      assert s == s + "";
    }
  }

  lemma TrimSplits(s: string) returns (left: string, right: string)
    ensures s == left + Trim(s) + right && AllBlank(left) && AllBlank(right) && Solid(Trim(s))
  {
    left := TrimStartSplits(s);
    right := TrimEndSplits(TrimStart(s));
    assert left + (Trim(s) + right) == left + Trim(s) + right;
  }

  lemma SolidWithin(a: string, t: string, b: string, c: string, u: string, d: string)
    requires a + t + b == c + u + d && AllBlank(a) && AllBlank(b) && AllBlank(c) && AllBlank(d) && Solid(t) && Solid(u) && t != ""
    ensures t == u
  {
    var s := a + t + b;
    assert s[|a|] == t[0] && s[|a| + |t| - 1] == t[|t| - 1];
    assert forall k :: 0 <= k < |c| ==> s[k] == c[k];
    assert |c| <= |a|;
    assert u != "";
    assert s[|c|] == u[0] && s[|c| + |u| - 1] == u[|u| - 1];
    assert forall k :: 0 <= k < |a| ==> s[k] == a[k];
    assert |a| == |c|;
    assert forall k :: |c| + |u| <= k < |s| ==> s[k] == d[k - |c| - |u|];
    assert forall k :: |a| + |t| <= k < |s| ==> s[k] == b[k - |a| - |t|];
    assert |t| == |u|;
    assert t == s[|a|..|a| + |t|] && u == s[|c|..|c| + |u|];
  }

  /** The line is the key and, among blanks, a numeral. */
  ghost predicate IsLength(line: string, n: nat) {
    exists left, numeral, right ::
      line == LENGTH_KEY + (left + numeral + right) && AllBlank(left) && AllBlank(right) && IsNumeral(numeral, n)
  }

  lemma NumeralIsSolid(s: string, n: nat)
    requires IsNumeral(s, n)
    ensures s != "" && Solid(s)
  {
    var d :| d in {s, if s != "" then s[1..] else s} && (d == s || s == "+" + d)
              && d != "" && AllDigits(d) && Value(d) == n && n < 0x1_0000_0000_0000_0000;
    assert IsDigit(d[|d| - 1]) && IsDigit(d[0]) && s[|s| - 1] == d[|d| - 1];
    assert s[0] == '+' || s[0] == d[0];
  }

  lemma KeyIff(line: string)
    ensures LENGTH_KEY <= TrimEol(line) <==> LENGTH_KEY <= line
  {
    var eols := TrimEolSplits(line);
    assert forall k :: |TrimEol(line)| <= k < |line| ==> IsSpace(line[k]);
    assert LENGTH_KEY <= line ==> line[|LENGTH_KEY| - 1] == ':';
  }

  lemma RestIs(line: string, eols: string)
    requires LENGTH_KEY <= line && LENGTH_KEY <= TrimEol(line) && line == TrimEol(line) + eols
    ensures line == LENGTH_KEY + (TrimEol(line)[|LENGTH_KEY|..] + eols)
  {
  }

  /** What a header line says. */
  lemma HeaderIs(line: string, n: nat)
    ensures ReadHeader(line).NotLength? <==> !(LENGTH_KEY <= line)
    ensures ReadHeader(line) == Length(n) <==> IsLength(line, n)
  {
    KeyIff(line);
    if LENGTH_KEY <= line {
      var eols := TrimEolSplits(line);
      var text := TrimEol(line)[|LENGTH_KEY|..];
      RestIs(line, eols);
      var left, right := TrimSplits(text);
      NumeralIff(Trim(text), n);
      BlanksJoin(right, eols);
      assert text + eols == left + Trim(text) + (right + eols);
      if IsNumeral(Trim(text), n) {
        assert IsLength(line, n);
      }
      if IsLength(line, n) {
        var a, num, b :| line == LENGTH_KEY + (a + num + b) && AllBlank(a) && AllBlank(b) && IsNumeral(num, n);
        NumeralIsSolid(num, n);
        AfterKey(line, a + num + b, text + eols);
        SolidWithin(a, num, b, left, Trim(text), right + eols);
      }
    }
  }

  lemma AfterKey(line: string, a: string, b: string)
    requires line == LENGTH_KEY + a && line == LENGTH_KEY + b
    ensures a == b
  {
    assert a == line[|LENGTH_KEY|..] && b == line[|LENGTH_KEY|..];
  }

  lemma BlanksJoin(a: string, b: string)
    requires AllBlank(a) && AllBlank(b)
    ensures AllBlank(a + b)
  {
  }

  /** What reading makes of an input that begins with header lines announcing `n` and a blank line: it
      aborts without a buffer, fails when the body is short or is no value, and otherwise takes just
      the body. */
  lemma MessageIs<V>(utf8: Bytes -> bool, fits: nat -> bool, decode: Bytes -> Option<V>, input: Bytes,
                     lines: seq<Bytes>, blank: Bytes, rest: Bytes, n: nat)
    requires Announces(utf8, input, lines, blank, rest, None, n)
    ensures ReadMessage(utf8, fits, decode, input) ==
      if !fits(n) then Abort else if |rest| < n || decode(rest[..n]).None? then Error
      else Message(decode(rest[..n]).value, rest[n..])
  {
    HeadersAreRead(utf8, input, lines, blank, rest, None, n);
  }

  /** The input is header lines none of which gives a length, the last of them perhaps without its newline. */
  predicate OnlyOthers(utf8: Bytes -> bool, input: Bytes, lines: seq<Bytes>, last: Bytes) {
    && (forall i :: 0 <= i < |lines| ==> IsHeader(utf8, lines[i]) && !(LENGTH_KEY <= lines[i]))
    && (last != "" ==> utf8(last) && '\n' !in last && !(LENGTH_KEY <= last))
    && input == Concat(lines) + last
  }

  /** Of all inputs, reading ends cleanly on exactly those; so whatever neither ends so nor begins with
      header lines that announce a length is an error. */
  lemma EndsIff<V>(utf8: Bytes -> bool, fits: nat -> bool, decode: Bytes -> Option<V>, input: Bytes)
    ensures ReadMessage(utf8, fits, decode, input).End? <==> exists lines, last :: OnlyOthers(utf8, input, lines, last)
    ensures ReadMessage(utf8, fits, decode, input).Message? ==>
      exists lines, blank, rest, n :: Announces(utf8, input, lines, blank, rest, None, n)
  {
    var h := ReadHeaders(utf8, input, None);
    if h.NoMore? {
      var lines, last := EndedAre(utf8, input);
    }
    forall lines, last | OnlyOthers(utf8, input, lines, last) ensures h == NoMore {
      OthersEnd(utf8, input, lines, last);
    }
    if h.Body? {
      var lines, blank := ReadHeadersAre(utf8, input, None);
    }
  }

  lemma {:induction false} OthersEnd(utf8: Bytes -> bool, input: Bytes, lines: seq<Bytes>, last: Bytes)
    requires OnlyOthers(utf8, input, lines, last)
    ensures ReadHeaders(utf8, input, None) == NoMore
  {
    if lines == [] {
      assert input == last;
      if last != "" {
        NoNewline(last);
        assert input[..|last|] == last && input[|last|..] == [];
        HeaderIs(last, 0);
      }
    } else {
      var tail := Concat(lines[1..]) + last;
      assert input == lines[0] + tail;
      FirstLine(lines[0], tail);
      assert input[..|lines[0]|] == lines[0] && input[|lines[0]|..] == tail;
      HeaderIs(lines[0], 0);
      OthersEnd(utf8, tail, lines[1..], last);
    }
  }

  lemma {:induction false} NoNewline(s: Bytes)
    requires '\n' !in s
    ensures LineLength(s) == |s|
  {
    if s != [] {
      NoNewline(s[1..]);
    }
  }

  lemma {:induction false} LineOrAll(s: Bytes)
    requires s != []
    ensures IsLine(s[..LineLength(s)]) || ('\n' !in s && LineLength(s) == |s|)
  {
    var n := LineLength(s);
    if n == |s| && s[n - 1] != '\n' {
      assert forall i :: 0 <= i < |s| ==> s[i] != '\n';
    }
  }

  /** The first line of an input that ends cleanly. */
  lemma EndedStep(utf8: Bytes -> bool, input: Bytes, k: nat)
    requires input != [] && ReadHeaders(utf8, input, None) == NoMore && k == LineLength(input)
    ensures utf8(input[..k]) && !(LENGTH_KEY <= input[..k]) && ReadHeaders(utf8, input[k..], None) == NoMore
    ensures IsLine(input[..k]) ==> IsHeader(utf8, input[..k])
  {
    LengthNeverEnds(utf8, input[k..]);
    HeaderIs(input[..k], 0);
  }

  lemma OthersMore(utf8: Bytes -> bool, line: Bytes, tail: Bytes, more: seq<Bytes>, last: Bytes)
    requires IsHeader(utf8, line) && !(LENGTH_KEY <= line) && OnlyOthers(utf8, tail, more, last)
    ensures OnlyOthers(utf8, line + tail, [line] + more, last)
  {
    ConcatMore(line, more, last);
    var lines := [line] + more;
    forall i | 0 <= i < |lines| ensures IsHeader(utf8, lines[i]) && !(LENGTH_KEY <= lines[i]) {
      assert i > 0 ==> lines[i] == more[i - 1];
    }
  }

  lemma ConcatMore(line: Bytes, more: seq<Bytes>, last: Bytes)
    ensures line + (Concat(more) + last) == Concat([line] + more) + last
  {
    assert ([line] + more)[1..] == more;
  }

  lemma {:induction false} EndedAre(utf8: Bytes -> bool, input: Bytes) returns (lines: seq<Bytes>, last: Bytes)
    requires ReadHeaders(utf8, input, None) == NoMore
    ensures OnlyOthers(utf8, input, lines, last)
    decreases |input|
  {
    lines, last := [], input;
    if input != [] {
      var k := LineLength(input);
      var line, tail := input[..k], input[k..];
      EndedStep(utf8, input, k);
      LineOrAll(input);
      if IsLine(line) {
        var more: seq<Bytes>;
        more, last := EndedAre(utf8, tail);
        OthersMore(utf8, line, tail, more, last);
        assert input == line + tail;
        lines := [line] + more;
      } else {
        assert line == input;
      }
    }
  }

  /** Once a length was seen the input does not end cleanly. */
  lemma {:induction false} LengthNeverEnds(utf8: Bytes -> bool, input: Bytes)
    ensures forall n :: ReadHeaders(utf8, input, Some(n)) != NoMore
    decreases |input|
  {
    if input != [] {
      LengthNeverEnds(utf8, input[LineLength(input)..]);
    }
  }

  /** Reading a stream gives its messages up to the first thing that is none, and ends cleanly only if
      that is the clean end. */
  lemma {:induction false} StreamIsRead<V>(utf8: Bytes -> bool, fits: nat -> bool, decode: Bytes -> Option<V>, encode: V -> Bytes,
                                          vs: seq<V>, rest: Bytes)
    requires AcceptsAscii(utf8)
    requires forall i :: 0 <= i < |vs| ==> decode(encode(vs[i])) == Some(vs[i]) && |encode(vs[i])| < USIZE && fits(|encode(vs[i])|)
    requires !ReadMessage(utf8, fits, decode, rest).Message?
    ensures ReadAll(utf8, fits, decode, WriteAll(encode, vs) + rest) == (vs, ReadMessage(utf8, fits, decode, rest).End?)
  {
    if vs == [] {
      assert WriteAll(encode, vs) + rest == rest;
    } else {
      var tail := WriteAll(encode, vs[1..]) + rest;
      assert WriteAll(encode, vs) + rest == Frame(encode(vs[0])) + tail;
      LengthLineIsAscii(|encode(vs[0])|);
      assert IsAscii("\r\n");
      FrameReads(utf8, fits, decode, encode(vs[0]), vs[0], tail);
      StreamIsRead(utf8, fits, decode, encode, vs[1..], rest);
      assert [vs[0]] + vs[1..] == vs;
    }
  }
}
