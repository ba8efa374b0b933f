// The digest of a commit's source with its version erased.
//
// The digest sees each versioned file as `git show` prints it, trimmed of blanks
// at both ends, sets one version in all of them and hashes the tree.  That a bump
// does not change it comes down to two facts about a file: a later setting covers
// an earlier one, which `VersionText` proves, and setting and trimming can be
// done in either order, which is proved here.  Trimming drops lines that are
// blank, so the places a writer finds are the same but for a shift; the kinds of
// a text are compared with those of the trimmed one as a list inside a list.
module SourceDigest {
  import opened VersionText
  import V = SemVer

  // --------------------------------------------------------- blank margins

  predicate IsBlank(line: string) {
    forall k :: 0 <= k < |line| ==> V.IsSpace(line[k])
  }

  function LeftStrip(s: string): string {
    if s != "" && V.IsSpace(s[0]) then LeftStrip(s[1..]) else s
  }

  function RightStrip(s: string): string {
    if s != "" && V.IsSpace(s[|s| - 1]) then RightStrip(s[..|s| - 1]) else s
  }

  /** The first line that is not blank, or the end. */
  function FirstLine(text: Text): (d: nat)
    ensures d <= |text| && (forall k :: 0 <= k < d ==> IsBlank(text[k])) && (d < |text| ==> !IsBlank(text[d]))
  {
    if text == [] || !IsBlank(text[0]) then 0 else FirstLine(text[1..]) + 1
  }

  /** The place after the last line that is not blank. */
  function LastLine(text: Text): (e: nat)
    ensures e <= |text| && (forall k :: e <= k < |text| ==> IsBlank(text[k])) && (e > 0 ==> !IsBlank(text[e - 1]))
  {
    if text == [] || !IsBlank(text[|text| - 1]) then |text| else LastLine(text[..|text| - 1])
  }

  /** `text.strip() + "\n"`, as lines. */
  function Trim(text: Text): Text {
    var d, e := FirstLine(text), LastLine(text);
    if d >= e then ["", ""] else Ends(text[d..e]) + [""]
  }

  function Ends(body: Text): (t: Text)
    requires body != []
    ensures |t| == |body|
  {
    var t := body[0 := LeftStrip(body[0])];
    t[|t| - 1 := RightStrip(t[|t| - 1])]
  }

  /** The text as one string. */
  function Whole(text: Text): string
    requires text != []
  {
    V.Join(text, '\n')
  }

  lemma {:induction false} WholeOfParts(a: Text, b: Text)
    requires a != [] && b != []
    ensures Whole(a + b) == Whole(a) + "\n" + Whole(b)
  {
    if |a| == 1 {
      assert (a + b)[1..] == b;
    } else {
      WholeOfParts(a[1..], b);
      assert (a + b)[1..] == a[1..] + b;
    }
  }

  lemma {:induction false} BlankWhole(text: Text)
    requires text != [] && forall k :: 0 <= k < |text| ==> IsBlank(text[k])
    ensures IsBlank(Whole(text))
  {
    if |text| > 1 {
      BlankWhole(text[1..]);
    }
  }

  lemma {:induction false} LeftStripSplits(s: string) returns (margin: string)
    ensures s == margin + LeftStrip(s) && IsBlank(margin)
    ensures IsBlank(s) <==> LeftStrip(s) == ""
    ensures LeftStrip(s) != "" ==> !V.IsSpace(LeftStrip(s)[0]) && LeftStrip(s)[|LeftStrip(s)| - 1] == s[|s| - 1]
  {
    margin := "";
    if s != "" && V.IsSpace(s[0]) {
      var more := LeftStripSplits(s[1..]);
      margin := [s[0]] + more;
      assert s == [s[0]] + s[1..];
      BlankBehind(s);
    }
  }

  lemma BlankBehind(s: string)
    requires s != "" && V.IsSpace(s[0])
    ensures IsBlank(s) <==> IsBlank(s[1..])
  {
    assert forall k :: 0 < k < |s| ==> s[k] == s[1..][k - 1];
  }

  lemma {:induction false} RightStripSplits(s: string) returns (margin: string)
    ensures s == RightStrip(s) + margin && IsBlank(margin)
    ensures IsBlank(s) <==> RightStrip(s) == ""
    ensures RightStrip(s) != "" ==> !V.IsSpace(RightStrip(s)[|RightStrip(s)| - 1]) && RightStrip(s)[0] == s[0]
  {
    margin := "";
    if s != "" && V.IsSpace(s[|s| - 1]) {
      var more := RightStripSplits(s[..|s| - 1]);
      margin := more + [s[|s| - 1]];
      assert s == s[..|s| - 1] + [s[|s| - 1]];
      assert IsBlank(s) <==> IsBlank(s[..|s| - 1]);
    } else {
      assert s == s + "";
    }
  }

  /** A body with its first line changed, and with its last. */
  lemma WholeFrom(body: Text, margin: string, line: string)
    requires body != [] && body[0] == margin + line
    ensures Whole(body) == margin + Whole(body[0 := line])
  {
    var t := body[0 := line];
    if |body| > 1 {
      assert body == [body[0]] + body[1..] && t == [line] + body[1..];
      WholeOfParts([body[0]], body[1..]);
      WholeOfParts([line], body[1..]);
    }
  }

  lemma WholeTo(body: Text, line: string, margin: string)
    requires body != [] && body[|body| - 1] == line + margin
    ensures Whole(body) == Whole(body[|body| - 1 := line]) + margin
  {
    var n := |body| - 1;
    var t := body[n := line];
    if n > 0 {
      assert body == body[..n] + [body[n]] && t == body[..n] + [line];
      WholeOfParts(body[..n], [body[n]]);
      WholeOfParts(body[..n], [line]);
    } else {
      assert body == [body[0]] && t == [line];
    }
  }

  lemma WholeEnds(text: Text)
    requires text != [] && text[0] != "" && text[|text| - 1] != ""
    ensures Whole(text) != "" && Whole(text)[0] == text[0][0]
    ensures Whole(text)[|Whole(text)| - 1] == text[|text| - 1][|text[|text| - 1]| - 1]
  {
    var n := |text| - 1;
    if n > 0 {
      assert text == text[..n] + [text[n]] && text == [text[0]] + text[1..];
      WholeOfParts(text[..n], [text[n]]);
      WholeOfParts([text[0]], text[1..]);
    }
  }

  /** What the ends of a body leave out is blank, and what is left begins and ends with something else. */
  lemma EndsLeave(body: Text) returns (before: string, after: string)
    requires body != [] && !IsBlank(body[0]) && !IsBlank(body[|body| - 1])
    ensures Whole(body) == before + Whole(Ends(body)) + after && IsBlank(before) && IsBlank(after)
    ensures var s := Whole(Ends(body)); s != "" && !V.IsSpace(s[0]) && !V.IsSpace(s[|s| - 1])
  {
    var n := |body| - 1;
    before := LeftStripSplits(body[0]);
    WholeFrom(body, before, LeftStrip(body[0]));
    var t := body[0 := LeftStrip(body[0])];
    assert !IsBlank(t[n]) by {
      if n == 0 {
        var none := LeftStripSplits(t[0]);
        assert V.IsSpace(t[0][0]) || !IsBlank(t[0]);
      }
    }
    after := RightStripSplits(t[n]);
    WholeTo(t, RightStrip(t[n]), after);
    assert Ends(body) == t[n := RightStrip(t[n])];
    WholeEnds(Ends(body));
  }

  lemma BlanksJoin(a: string, b: string)
    requires IsBlank(a) && IsBlank(b)
    ensures IsBlank(a + b) && IsBlank(a + "\n") && IsBlank("\n" + b)
  {
  }

  /** The text around its body is blank. */
  lemma AroundBody(text: Text, d: nat, e: nat) returns (before: string, after: string)
    requires d < e <= |text| && forall k :: 0 <= k < |text| && !(d <= k < e) ==> IsBlank(text[k])
    ensures Whole(text) == before + Whole(text[d..e]) + after && IsBlank(before) && IsBlank(after)
  {
    before := BlankBefore(text, d);
    after := BlankAfter(text[d..], e - d);
    assert text[d..][..e - d] == text[d..e];
    assert before + (Whole(text[d..e]) + after) == before + Whole(text[d..e]) + after;
  }

  lemma BlankBefore(text: Text, d: nat) returns (before: string)
    requires d < |text| && forall k :: 0 <= k < d ==> IsBlank(text[k])
    ensures Whole(text) == before + Whole(text[d..]) && IsBlank(before)
  {
    if d > 0 {
      assert text == text[..d] + text[d..];
      WholeOfParts(text[..d], text[d..]);
      BlankWhole(text[..d]);
      before := Whole(text[..d]) + "\n";
      BlanksJoin(Whole(text[..d]), "");
    } else {
      before := "";
      assert text[d..] == text;
    }
  }

  lemma BlankAfter(text: Text, e: nat) returns (after: string)
    requires 0 < e <= |text| && forall k :: e <= k < |text| ==> IsBlank(text[k])
    ensures Whole(text) == Whole(text[..e]) + after && IsBlank(after)
  {
    if e < |text| {
      assert text == text[..e] + text[e..];
      WholeOfParts(text[..e], text[e..]);
      BlankWhole(text[e..]);
      after := "\n" + Whole(text[e..]);
      BlanksJoin("", Whole(text[e..]));
    } else {
      after := "";
      assert text[..e] == text;
    }
  }

  lemma SurroundedByBlanks(a: string, s: string, b: string)
    requires IsBlank(a) && IsBlank(b)
    ensures V.Surrounds(a + s + b, |a|, s)
  {
    assert (a + s + b)[|a|..|a| + |s|] == s;
  }

  lemma BlankStrips(s: string)
    requires IsBlank(s)
    ensures V.Strip(s) == ""
  {
    var i := V.StripSurrounds(s);
  }

  /** Trimming a text is stripping the one string that it is, and ending it with a newline. */
  lemma TrimIsStrip(text: Text)
    requires text != []
    ensures Whole(Trim(text)) == V.Strip(Whole(text)) + "\n"
  {
    var d, e := FirstLine(text), LastLine(text);
    if d >= e {
      MarginsMeet(text);
      BlankWhole(text);
      BlankStrips(Whole(text));
      assert ["", ""][1..] == [""];
    } else {
      var body := text[d..e];
      var before, after := AroundBody(text, d, e);
      var left, right := EndsLeave(body);
      StripsTo(Whole(text), before, left, Whole(Ends(body)), right, after);
      WholeOfParts(Ends(body), [""]);
    }
  }

  lemma StripsTo(whole: string, a: string, b: string, s: string, c: string, d: string)
    requires whole == a + (b + s + c) + d && IsBlank(a) && IsBlank(b) && IsBlank(c) && IsBlank(d)
    requires s != "" && !V.IsSpace(s[0]) && !V.IsSpace(s[|s| - 1])
    ensures V.Strip(whole) == s
  {
    BlanksJoin(a, b);
    BlanksJoin(c, d);
    assert whole == (a + b) + s + (c + d);
    SurroundedByBlanks(a + b, s, c + d);
    V.StripFinds(whole, |a + b|, s);
  }

  lemma MarginsMeet(text: Text)
    ensures FirstLine(text) < LastLine(text) || forall k :: 0 <= k < |text| ==> IsBlank(text[k])
  {
  }

  lemma {:induction false} RightStripIs(s: string) returns (n: nat)
    ensures n <= |s| && RightStrip(s) == s[..n] && forall k :: n <= k < |s| ==> V.IsSpace(s[k])
    ensures !IsBlank(s) ==> n > 0 && !V.IsSpace(s[n - 1])
  {
    if s != "" && V.IsSpace(s[|s| - 1]) {
      n := RightStripIs(s[..|s| - 1]);
      assert s[..|s| - 1][..n] == s[..n];
    } else {
      n := |s|;
      assert s[..n] == s;
    }
  }

  lemma SameKind(a: string, b: string)
    requires IsHeader(a, "[package]") <==> IsHeader(b, "[package]")
    requires IsHeader(a, "[[package]]") <==> IsHeader(b, "[[package]]")
    requires "[" <= a <==> "[" <= b
    requires QuotedAfter(a, VERSION) == QuotedAfter(b, VERSION) && QuotedAfter(a, NAME) == QuotedAfter(b, NAME)
    requires QuotedAfter(a, NAME).Some? ==>
      var n := QuotedAfter(a, NAME).value; a[n.from..n.to] == b[n.from..n.to]
    ensures KindOf(a) == KindOf(b)
  {
  }

  lemma NameStripped(line: string, n: nat)
    requires n <= |line| && QuotedAfter(line[..n], NAME) == QuotedAfter(line, NAME)
    ensures QuotedAfter(line, NAME).Some? ==>
      var q := QuotedAfter(line, NAME).value; line[..n][q.from..q.to] == line[q.from..q.to]
  {
  }

  /** A line's kind does not depend on the blanks at its end. */
  lemma RightStripKeepsKind(line: string)
    ensures KindOf(RightStrip(line)) == KindOf(line)
    ensures IsVersionLine(line) ==> IsVersionLine(RightStrip(line))
  {
    var n := RightStripIs(line);
    HeaderStripped(line, n, "[package]");
    HeaderStripped(line, n, "[[package]]");
    HeaderStripped(line, n, "[");
    QuotedStripped(line, n, VERSION);
    QuotedStripped(line, n, NAME);
    NameStripped(line, n);
    SameKind(line[..n], line);
  }

  lemma HeaderStripped(line: string, n: nat, header: string)
    requires n <= |line| && (forall k :: n <= k < |line| ==> V.IsSpace(line[k]))
    requires header != "" && !V.IsSpace(header[|header| - 1])
    ensures IsHeader(line[..n], header) <==> IsHeader(line, header)
    ensures header <= line[..n] <==> header <= line
  {
    if header <= line {
      assert line[|header| - 1] == header[|header| - 1];
    }
  }

  lemma QuotedIsKeptByStrip(line: string, n: nat, key: string, e: nat, span: Span)
    requires n <= |line| && (forall k :: n <= k < |line| ==> V.IsSpace(line[k])) && IsQuoted(line, key, e, span)
    ensures IsQuoted(line[..n], key, e, span)
  {
    assert line[span.to] == '"';
    assert span.to < n && key <= line[..n];
  }

  lemma QuotedBeforeStrip(line: string, n: nat, key: string, e: nat, span: Span)
    requires n <= |line| && (forall k :: n <= k < |line| ==> V.IsSpace(line[k])) && IsQuoted(line[..n], key, e, span)
    ensures IsQuoted(line, key, e, span)
  {
    assert key <= line;
    assert forall j :: 0 <= j < n ==> line[..n][j] == line[j];
  }

  lemma QuotedStripped(line: string, n: nat, key: string)
    requires n <= |line| && (forall k :: n <= k < |line| ==> V.IsSpace(line[k]))
    ensures QuotedAfter(line[..n], key) == QuotedAfter(line, key)
  {
    if QuotedAfter(line, key).Some? {
      var span := QuotedAfter(line, key).value;
      var e := FoundIsQuoted(line, key);
      QuotedIsKeptByStrip(line, n, key, e, span);
      QuotedIsFound(line[..n], key, e, span);
    } else if QuotedAfter(line[..n], key).Some? {
      var span := QuotedAfter(line[..n], key).value;
      var e := FoundIsQuoted(line[..n], key);
      QuotedBeforeStrip(line, n, key, e, span);
      QuotedIsFound(line, key, e, span);
    }
  }

  lemma {:induction false} RightStripAt(s: string, n: nat)
    requires 0 < n <= |s| && !V.IsSpace(s[n - 1]) && forall k :: n <= k < |s| ==> V.IsSpace(s[k])
    ensures RightStrip(s) == s[..n]
  {
    if n < |s| {
      RightStripAt(s[..|s| - 1], n);
      assert s[..|s| - 1][..n] == s[..n];
    } else {
      assert s[..n] == s;
    }
  }

  lemma RightStripOfSetLine(line: string, v: string)
    requires IsVersionLine(line) && Settable(v)
    ensures IsVersionLine(RightStrip(line)) && SetLine(RightStrip(line), v) == RightStrip(SetLine(line, v))
  {
    var s := QuotedAfter(line, VERSION).value;
    VersionLineStripped(line);
    StrippedSetLine(line, RightStrip(line), s, v);
    SetLineStripped(line, s, v, s.to + 1);
  }

  lemma StrippedSetLine(line: string, stripped: string, s: Span, v: string)
    requires QuotedAfter(line, VERSION) == Some(s) && QuotedAfter(stripped, VERSION) == Some(s)
    ensures SetLine(stripped, v) == stripped[..s.from] + v + stripped[s.to..]
    ensures SetLine(line, v) == line[..s.from] + v + line[s.to..]
  {
  }

  lemma VersionLineEnds(line: string)
    requires IsVersionLine(line)
    ensures var s := QuotedAfter(line, VERSION).value;
      line[s.to] == '"' && forall k :: s.to < k < |line| ==> V.IsSpace(line[k])
  {
    var e := FoundIsQuoted(line, VERSION);
  }

  lemma VersionLineStripped(line: string)
    requires IsVersionLine(line)
    ensures var s := QuotedAfter(line, VERSION).value;
      && line[s.to] == '"' && (forall k :: s.to < k < |line| ==> V.IsSpace(line[k]))
      && RightStrip(line) == line[..s.to + 1] && QuotedAfter(RightStrip(line), VERSION) == Some(s)
  {
    var n := QuotedAfter(line, VERSION).value.to + 1;
    VersionLineEnds(line);
    RightStripAt(line, n);
    QuotedStripped(line, n, VERSION);
  }

  lemma SetLineStripped(line: string, s: Span, v: string, n: nat)
    requires s.from <= s.to < |line| && n == s.to + 1 && line[s.to] == '"'
    requires forall k :: n <= k < |line| ==> V.IsSpace(line[k])
    ensures RightStrip(line[..s.from] + v + line[s.to..]) == line[..n][..s.from] + v + line[..n][s.to..]
  {
    var t := line[..s.from] + v + line[s.to..];
    var m := s.from + |v| + 1;
    assert t[m - 1] == line[s.to];
    forall k | m <= k < |t| ensures V.IsSpace(t[k]) {
      assert t[k] == line[k - m + n];
    }
    RightStripAt(t, m);
    assert t[..m] == line[..n][..s.from] + v + line[..n][s.to..];
  }

  /** Dropping a blank margin keeps the kind of the first line that is not blank. */
  predicate Flush(text: Text) {
    var d := FirstLine(text);
    d < |text| ==> KindOf(LeftStrip(text[d])) == KindOf(text[d])
  }

  lemma VersionLineIsFlush(line: string)
    requires IsVersionLine(line)
    ensures !IsBlank(line) && LeftStrip(line) == line
  {
    assert line[0] == VERSION[0];
  }

  /** `ks` with `d` plain lines before it and some after. */
  ghost predicate Padded(ks: seq<Kind>, d: nat, all: seq<Kind>) {
    && d + |ks| <= |all| && all[d..d + |ks|] == ks
    && (forall k :: 0 <= k < d ==> all[k].Plain?)
    && (forall k :: d + |ks| <= k < |all| ==> all[k].Plain?)
  }

  /** Where a place of `ks` is in `all`, the two ends being the same place. */
  function Place(ks: seq<Kind>, d: nat, all: seq<Kind>, i: nat): nat {
    if i < |ks| then d + i else |all|
  }

  lemma {:induction false} FirstOfPadded(ks: seq<Kind>, d: nat, all: seq<Kind>, i: nat, p: Kind -> bool)
    requires Padded(ks, d, all) && i <= |ks| && !p(Plain)
    ensures First(all, d + i, p) == Place(ks, d, all, First(ks, i, p))
    decreases |ks| - i
  {
    if i == |ks| {
      assert forall k :: d + i <= k < |all| ==> !p(all[k]);
    } else {
      assert all[d + i] == all[d..d + |ks|][i] == ks[i];
      FirstOfPadded(ks, d, all, i + 1, p);
    }
  }

  lemma {:induction false} FirstSkipsPlain(all: seq<Kind>, i: nat, d: nat, p: Kind -> bool)
    requires i <= d <= |all| && (forall k :: i <= k < d ==> all[k].Plain?) && !p(Plain)
    ensures First(all, i, p) == First(all, d, p)
    decreases d - i
  {
    if i < d {
      FirstSkipsPlain(all, i + 1, d, p);
    }
  }

  lemma SamePackageVersion(ks: seq<Kind>, d: nat, all: seq<Kind>, h: nat)
    requires d + |ks| <= |all| && h < |ks|
    requires h == First(ks, 0, IsPackageHeader) && d + h == First(all, 0, IsPackageHeader)
    requires First(all, d + h + 1, InSection) == Place(ks, d, all, First(ks, h + 1, InSection))
    requires First(all, d + h + 1, IsVersion) == Place(ks, d, all, First(ks, h + 1, IsVersion))
    ensures PackageVersionAt(all) == if PackageVersionAt(ks).None? then None else Some(d + PackageVersionAt(ks).value)
  {
  }

  lemma PackageVersionOfPadded(ks: seq<Kind>, d: nat, all: seq<Kind>)
    requires Padded(ks, d, all)
    ensures PackageVersionAt(all) == if PackageVersionAt(ks).None? then None else Some(d + PackageVersionAt(ks).value)
  {
    FirstSkipsPlain(all, 0, d, IsPackageHeader);
    FirstOfPadded(ks, d, all, 0, IsPackageHeader);
    var h := First(ks, 0, IsPackageHeader);
    if h < |ks| {
      FirstOfPadded(ks, d, all, h + 1, InSection);
      FirstOfPadded(ks, d, all, h + 1, IsVersion);
      SamePackageVersion(ks, d, all, h);
    }
  }

  function Shift(at: set<nat>, d: nat): set<nat> {
    set k | k in at :: k + d
  }

  /** What the writer makes of one package: passes it by, or looks for its version. */
  datatype Chunk = Unnamed | Named(name: string, version: Option<nat>)

  function ChunkAt(ks: seq<Kind>, s: nat): Chunk
    requires s < |ks|
  {
    var e, n, m := First(ks, s + 1, IsLockHeader), First(ks, s, IsName), First(ks, s, IsVersion);
    if n >= e || ks[n].name !in LOCK_NAMES then Unnamed
    else Named(ks[n].name, if m < e then Some(m) else None)
  }

  function Chunks(ks: seq<Kind>, s: nat): seq<Chunk>
    requires s <= |ks|
    decreases |ks| - s
  {
    if s == |ks| then [] else [ChunkAt(ks, s)] + Chunks(ks, First(ks, s + 1, IsLockHeader))
  }

  function Fold(cs: seq<Chunk>, found: set<string>, at: set<nat>): Option<(set<nat>, set<string>)> {
    if cs == [] then Some((at, found))
    else if cs[0].Unnamed? then Fold(cs[1..], found, at)
    else if cs[0].name in found || cs[0].version.None? then None
    else Fold(cs[1..], found + {cs[0].name}, at + {cs[0].version.value})
  }

  lemma {:induction false} LockTargetsFold(ks: seq<Kind>, s: nat, found: set<string>, at: set<nat>)
    requires s <= |ks| && forall k :: k in at ==> k < |ks| && ks[k] == VersionLine
    ensures LockTargets(ks, s, found, at) == Fold(Chunks(ks, s), found, at)
    decreases |ks| - s
  {
    if s < |ks| {
      var e := First(ks, s + 1, IsLockHeader);
      var c := ChunkAt(ks, s);
      assert Chunks(ks, s)[1..] == Chunks(ks, e);
      if c.Unnamed? {
        LockTargetsFold(ks, e, found, at);
      } else if c.name !in found && c.version.Some? {
        LockTargetsFold(ks, e, found + {c.name}, at + {c.version.value});
      }
    }
  }

  function ShiftChunk(c: Chunk, d: nat): Chunk {
    if c.Named? && c.version.Some? then c.(version := Some(c.version.value + d)) else c
  }

  function ShiftChunks(cs: seq<Chunk>, d: nat): seq<Chunk> {
    if cs == [] then [] else [ShiftChunk(cs[0], d)] + ShiftChunks(cs[1..], d)
  }

  lemma {:induction false} FoldShifts(cs: seq<Chunk>, d: nat, found: set<string>, at: set<nat>)
    ensures var r, t := Fold(cs, found, at), Fold(ShiftChunks(cs, d), found, Shift(at, d));
      t == if r.None? then None else Some((Shift(r.value.0, d), r.value.1))
  {
    if cs != [] {
      var c := cs[0];
      assert ShiftChunks(cs, d)[1..] == ShiftChunks(cs[1..], d);
      if c.Unnamed? {
        FoldShifts(cs[1..], d, found, at);
      } else if c.name !in found && c.version.Some? {
        ShiftOneMore(at, c.version.value, d);
        FoldShifts(cs[1..], d, found + {c.name}, at + {c.version.value});
      }
    }
  }

  lemma ShiftOneMore(at: set<nat>, m: nat, d: nat)
    ensures Shift(at + {m}, d) == Shift(at, d) + {m + d}
  {
  }

  lemma ChunkEndOfPadded(ks: seq<Kind>, d: nat, all: seq<Kind>, s: nat)
    requires Padded(ks, d, all) && s < |ks|
    ensures First(all, d + s + 1, IsLockHeader) == Place(ks, d, all, First(ks, s + 1, IsLockHeader))
  {
    FirstOfPadded(ks, d, all, s + 1, IsLockHeader);
  }

  lemma SameChunk(ks: seq<Kind>, s: nat, all: seq<Kind>, t: nat, d: nat)
    requires s < |ks| && t < |all| && d + |ks| <= |all|
    requires First(all, t + 1, IsLockHeader) == Place(ks, d, all, First(ks, s + 1, IsLockHeader))
    requires First(all, t, IsName) == Place(ks, d, all, First(ks, s, IsName))
    requires First(all, t, IsVersion) == Place(ks, d, all, First(ks, s, IsVersion))
    requires var n := First(ks, s, IsName); n < |ks| ==> all[d + n] == ks[n]
    ensures ChunkAt(all, t) == ShiftChunk(ChunkAt(ks, s), d)
  {
    SamePicked(ks, First(ks, s + 1, IsLockHeader), First(ks, s, IsName), First(ks, s, IsVersion),
               all, First(all, t + 1, IsLockHeader), First(all, t, IsName), First(all, t, IsVersion), d);
  }

  /** The chunk that ends at `e`, with its first name at `n` and its first version at `m`. */
  function Picked(ks: seq<Kind>, e: nat, n: nat, m: nat): Chunk
    requires e <= |ks| && (n < |ks| ==> ks[n].NameLine?)
  {
    if n >= e || ks[n].name !in LOCK_NAMES then Unnamed else Named(ks[n].name, if m < e then Some(m) else None)
  }

  lemma SamePicked(ks: seq<Kind>, e: nat, n: nat, m: nat, all: seq<Kind>, f: nat, o: nat, q: nat, d: nat)
    requires e <= |ks| && n <= |ks| && m <= |ks| && d + |ks| <= |all|
    requires f == Place(ks, d, all, e) && o == Place(ks, d, all, n) && q == Place(ks, d, all, m)
    requires (n < |ks| ==> ks[n].NameLine? && all[d + n] == ks[n])
    requires f <= |all| && (o < |all| ==> all[o].NameLine?)
    ensures Picked(all, f, o, q) == ShiftChunk(Picked(ks, e, n, m), d)
  {
  }

  lemma ChunkOfPadded(ks: seq<Kind>, d: nat, all: seq<Kind>, s: nat)
    requires Padded(ks, d, all) && s < |ks|
    ensures ChunkAt(all, d + s) == ShiftChunk(ChunkAt(ks, s), d)
  {
    ChunkEndOfPadded(ks, d, all, s);
    FirstOfPadded(ks, d, all, s, IsName);
    FirstOfPadded(ks, d, all, s, IsVersion);
    NameOfPadded(ks, d, all, First(ks, s, IsName));
    SameChunk(ks, s, all, d + s, d);
  }

  lemma NameOfPadded(ks: seq<Kind>, d: nat, all: seq<Kind>, n: nat)
    requires Padded(ks, d, all) && n <= |ks|
    ensures d + |ks| <= |all| && (n < |ks| ==> all[d + n] == ks[n])
  {
    assert n < |ks| ==> all[d..d + |ks|][n] == all[d + n];
  }

  lemma ChunksUnfold(ks: seq<Kind>, s: nat, e: nat)
    requires s < |ks| && e == First(ks, s + 1, IsLockHeader)
    ensures Chunks(ks, s) == [ChunkAt(ks, s)] + Chunks(ks, e)
  {
  }

  lemma {:induction false} ChunksOfPadded(ks: seq<Kind>, d: nat, all: seq<Kind>, s: nat, t: nat)
    requires Padded(ks, d, all) && s <= |ks| && t == Place(ks, d, all, s)
    ensures Chunks(all, t) == ShiftChunks(Chunks(ks, s), d)
    decreases |ks| - s
  {
    if s < |ks| {
      var e := First(ks, s + 1, IsLockHeader);
      var f := Place(ks, d, all, e);
      ChunkEndOfPadded(ks, d, all, s);
      ChunkOfPadded(ks, d, all, s);
      ChunksOfPadded(ks, d, all, e, f);
      ChunksUnfold(ks, s, e);
      ChunksUnfold(all, t, f);
      ShiftOneChunk(ChunkAt(ks, s), Chunks(ks, e), d);
    }
  }

  lemma ShiftOneChunk(c: Chunk, cs: seq<Chunk>, d: nat)
    ensures ShiftChunks([c] + cs, d) == [ShiftChunk(c, d)] + ShiftChunks(cs, d)
  {
    assert ([c] + cs)[1..] == cs;
  }

  lemma LockVersionsOfPadded(ks: seq<Kind>, d: nat, all: seq<Kind>)
    requires Padded(ks, d, all)
    ensures LockVersionsAt(all) == if LockVersionsAt(ks).None? then None else Some(Shift(LockVersionsAt(ks).value, d))
  {
    var s := First(ks, 0, IsLockHeader);
    FirstSkipsPlain(all, 0, d, IsLockHeader);
    FirstOfPadded(ks, d, all, 0, IsLockHeader);
    var t := Place(ks, d, all, s);
    assert First(all, 0, IsLockHeader) == t && Shift({}, d) == {};
    LockTargetsFold(ks, s, {}, {});
    LockTargetsFold(all, t, {}, {});
    ChunksOfPadded(ks, d, all, s, t);
    FoldShifts(Chunks(ks, s), d, {}, {});
  }

  // ------------------------------------------- setting and trimming commute

  function EndLine(line: string, first: bool, last: bool): string {
    var l := if first then LeftStrip(line) else line;
    if last then RightStrip(l) else l
  }

  lemma EndLineKeepsKind(line: string, first: bool, last: bool)
    requires first ==> KindOf(LeftStrip(line)) == KindOf(line)
    ensures KindOf(EndLine(line, first, last)) == KindOf(line)
  {
    RightStripKeepsKind(if first then LeftStrip(line) else line);
  }

  lemma EndLineOfSetLine(line: string, v: string, first: bool, last: bool)
    requires IsVersionLine(line) && Settable(v)
    ensures IsVersionLine(EndLine(line, first, last)) && IsVersionLine(SetLine(line, v))
    ensures SetLine(EndLine(line, first, last), v) == EndLine(SetLine(line, v), first, last)
  {
    LineLaws(line, v, v);
    VersionLineIsFlush(line);
    VersionLineIsFlush(SetLine(line, v));
    RightStripOfSetLine(line, v);
  }

  lemma BlankIsPlain(line: string)
    requires IsBlank(line)
    ensures KindOf(line) == Plain
  {
    assert line != "" ==> V.IsSpace(line[0]);
  }

  /** Where the lines that are not blank begin and end. */
  ghost predicate Bounds(text: Text, d: nat, e: nat) {
    && d < e <= |text| && !IsBlank(text[d]) && !IsBlank(text[e - 1])
    && (forall k :: 0 <= k < d ==> IsBlank(text[k])) && (forall k :: e <= k < |text| ==> IsBlank(text[k]))
  }

  lemma BoundsAre(text: Text, d: nat, e: nat)
    requires Bounds(text, d, e)
    ensures FirstLine(text) == d && LastLine(text) == e
  {
  }

  lemma EndsAre(body: Text, k: nat)
    requires k < |body|
    ensures Ends(body)[k] == EndLine(body[k], k == 0, k == |body| - 1)
  {
  }

  /** `u` is the body of `text` with its two ends stripped, and a line break. */
  ghost predicate IsTrim(text: Text, d: nat, e: nat, u: Text) {
    && d < e <= |text| && |u| == e - d + 1 && u[e - d] == ""
    && forall k :: 0 <= k < e - d ==> u[k] == EndLine(text[d + k], k == 0, k == e - d - 1)
  }

  lemma TrimIs(text: Text, d: nat, e: nat)
    requires Bounds(text, d, e)
    ensures IsTrim(text, d, e, Trim(text))
  {
    BoundsAre(text, d, e);
    var body := text[d..e];
    assert Trim(text) == Ends(body) + [""];
    forall k | 0 <= k < e - d ensures Trim(text)[k] == EndLine(text[d + k], k == 0, k == e - d - 1) {
      EndsAre(body, k);
      assert body[k] == text[d + k];
    }
  }

  lemma TrimmedKind(text: Text, d: nat, e: nat, k: nat)
    requires Bounds(text, d, e) && Flush(text) && d + k < e
    ensures k < |Trim(text)| && Kinds(Trim(text))[k] == Kinds(text)[d + k]
  {
    BoundsAre(text, d, e);
    TrimIs(text, d, e);
    TrimmedKindOf(text, d, e, Trim(text), k);
  }

  lemma TrimmedKindOf(text: Text, d: nat, e: nat, u: Text, k: nat)
    requires Bounds(text, d, e) && Flush(text) && d + k < e && FirstLine(text) == d && IsTrim(text, d, e, u)
    ensures k < |u| && Kinds(u)[k] == Kinds(text)[d + k]
  {
    EndLineKeepsKind(text[d + k], k == 0, k == e - d - 1);
  }

  lemma BlankKind(text: Text, k: nat)
    requires k < |text| && IsBlank(text[k])
    ensures Kinds(text)[k].Plain?
  {
    BlankIsPlain(text[k]);
  }

  lemma PaddedBoth(all: seq<Kind>, ks: seq<Kind>, d: nat, e: nat)
    requires d < e <= |all| && |ks| == e - d + 1 && ks[e - d].Plain?
    requires forall k :: 0 <= k < |all| && !(d <= k < e) ==> all[k].Plain?
    requires forall k :: 0 <= k < e - d ==> ks[k] == all[d + k]
    ensures Padded(all[d..e], d, all) && Padded(all[d..e], 0, ks)
  {
    assert ks[..e - d] == all[d..e];
  }

  lemma TrimIsPadded(text: Text, d: nat, e: nat)
    requires Bounds(text, d, e) && Flush(text)
    ensures Padded(Kinds(text)[d..e], d, Kinds(text)) && Padded(Kinds(text)[d..e], 0, Kinds(Trim(text)))
  {
    TrimIs(text, d, e);
    forall k | 0 <= k < |text| && !(d <= k < e) ensures Kinds(text)[k].Plain? {
      BlankKind(text, k);
    }
    forall k | 0 <= k < e - d ensures Kinds(Trim(text))[k] == Kinds(text)[d + k] {
      TrimmedKind(text, d, e, k);
    }
    BlankKind(Trim(text), e - d);
    PaddedBoth(Kinds(text), Kinds(Trim(text)), d, e);
  }

  /** Setting the versions on some lines of the body moves no margin. */
  lemma RewriteKeepsBounds(text: Text, at: set<nat>, v: string, d: nat, e: nat)
    requires Bounds(text, d, e) && (forall k :: k in at ==> k < |text| && IsVersionLine(text[k])) && Settable(v)
    ensures Bounds(Rewrite(text, at, v), d, e)
  {
    forall k | 0 <= k < |text| ensures IsBlank(Rewrite(text, at, v)[k]) <==> IsBlank(text[k]) {
      if k in at {
        LineLaws(text[k], v, v);
        VersionLineIsFlush(text[k]);
        VersionLineIsFlush(Rewrite(text, at, v)[k]);
      }
    }
  }

  /** `t` is `text` with `v` set on the lines of `at`. */
  ghost predicate IsSet(text: Text, t: Text, at: set<nat>, v: string) {
    (forall k :: k in at ==> k < |text| && IsVersionLine(text[k])) && t == Rewrite(text, at, v)
  }

  /** One line of the body, set and trimmed. */
  lemma TrimmedLine(line: string, v: string, first: bool, last: bool, changed: bool, l: string)
    requires Settable(v) && (changed ==> IsVersionLine(line))
    requires l == if changed then SetLine(line, v) else line
    ensures changed ==> IsVersionLine(EndLine(line, first, last))
    ensures EndLine(l, first, last) ==
      if changed then SetLine(EndLine(line, first, last), v) else EndLine(line, first, last)
  {
    if changed {
      EndLineOfSetLine(line, v, first, last);
    }
  }

  lemma ShiftIs(b: set<nat>, d: nat, k: nat)
    ensures d + k in Shift(b, d) <==> k in b
  {
    if d + k in Shift(b, d) {
      var i :| i in b && i + d == d + k;
    } else {
      assert k in b ==> k + d in Shift(b, d);
    }
  }

  lemma TrimmedLines(text: Text, u: Text, t: Text, w: Text, b: set<nat>, v: string, d: nat, e: nat)
    requires IsTrim(text, d, e, u) && IsTrim(t, d, e, w) && Settable(v) && IsSet(text, t, Shift(b, d), v)
    requires forall k :: k in b ==> d + k < e
    ensures IsSet(u, w, b, v)
  {
    forall k: nat | k < e - d
      ensures k in b ==> IsVersionLine(u[k])
      ensures w[k] == if k in b then SetLine(u[k], v) else u[k]
    {
      ShiftIs(b, d, k);
      TrimmedLine(text[d + k], v, k == 0, k == e - d - 1, k in b, t[d + k]);
    }
    assert e - d !in b;
    SameRewrite(u, w, b, v);
  }

  lemma SameRewrite(text: Text, t: Text, b: set<nat>, v: string)
    requires (forall k :: k in b ==> k < |text| && IsVersionLine(text[k])) && |t| == |text|
    requires forall k :: 0 <= k < |text| ==> t[k] == if k in b then SetLine(text[k], v) else text[k]
    ensures t == Rewrite(text, b, v)
  {
  }

  lemma SetTrims(text: Text, t: Text, b: set<nat>, v: string, d: nat, e: nat)
    requires Bounds(text, d, e) && Settable(v) && IsSet(text, t, Shift(b, d), v)
    requires forall k :: k in b ==> d + k < e
    ensures IsSet(Trim(text), Trim(t), b, v)
  {
    RewriteKeepsBounds(text, Shift(b, d), v, d, e);
    TrimIs(text, d, e);
    TrimIs(t, d, e);
    TrimmedLines(text, Trim(text), t, Trim(t), b, v, d, e);
  }

  lemma NothingToSet(text: Text)
    requires forall k :: 0 <= k < |text| ==> IsBlank(text[k])
    ensures PackageVersionAt(Kinds(text)).None? && LockVersionsAt(Kinds(text)).None?
    ensures PackageVersionAt(Kinds(Trim(text))).None? && LockVersionsAt(Kinds(Trim(text))).None?
  {
    forall k | 0 <= k < |text| ensures KindOf(text[k]) == Plain {
      BlankIsPlain(text[k]);
    }
    BlankIsPlain("");
    var none: seq<Kind> := [];
    assert Padded(none, 0, Kinds(text));
    PackageVersionOfPadded(none, 0, Kinds(text));
    LockVersionsOfPadded(none, 0, Kinds(text));
    assert FirstLine(text) == |text|;
    assert Trim(text) == ["", ""];
    assert Padded(none, 0, Kinds(Trim(text)));
    PackageVersionOfPadded(none, 0, Kinds(Trim(text)));
    LockVersionsOfPadded(none, 0, Kinds(Trim(text)));
  }

  lemma HasBounds(text: Text) returns (d: nat, e: nat)
    requires exists k :: 0 <= k < |text| && !IsBlank(text[k])
    ensures Bounds(text, d, e)
  {
    d, e := FirstLine(text), LastLine(text);
    MarginsMeet(text);
  }

  /** The same places of a body, in the text and in the trimmed one. */
  predicate SamePlace(m: Option<nat>, n: Option<nat>, d: nat, e: nat) {
    if m.None? then n.None? else d + m.value < e && n == Some(d + m.value)
  }

  predicate SamePlaces(b: Option<set<nat>>, c: Option<set<nat>>, d: nat, e: nat) {
    if b.None? then c.None? else (forall k :: k in b.value ==> d + k < e) && c == Some(Shift(b.value, d))
  }

  lemma PackagePlace(body: seq<Kind>, d: nat, all: seq<Kind>, trimmed: seq<Kind>)
    requires Padded(body, d, all) && Padded(body, 0, trimmed)
    ensures SamePlace(PackageVersionAt(trimmed), PackageVersionAt(all), d, d + |body|)
  {
    PackageVersionOfPadded(body, 0, trimmed);
    PackageVersionOfPadded(body, d, all);
  }

  lemma LockPlaces(body: seq<Kind>, d: nat, all: seq<Kind>, trimmed: seq<Kind>)
    requires Padded(body, d, all) && Padded(body, 0, trimmed)
    ensures SamePlaces(LockVersionsAt(trimmed), LockVersionsAt(all), d, d + |body|)
  {
    LockVersionsOfPadded(body, 0, trimmed);
    LockVersionsOfPadded(body, d, all);
    ShiftByNothing(LockVersionsAt(body));
  }

  lemma ShiftByNothing(b: Option<set<nat>>)
    ensures b.Some? ==> Shift(b.value, 0) == b.value
  {
  }

  lemma LockSets(text: Text, v: string, at: Option<set<nat>>)
    requires at == LockVersionsAt(Kinds(text))
    ensures if at.None? then SetCargoLock(text, v).None?
            else SetCargoLock(text, v).Some? && IsSet(text, SetCargoLock(text, v).value, at.value, v)
  {
    if at.Some? {
      KindsAreVersionLines(text, at.value);
    }
  }

  lemma PlacesTrim(text: Text, d: nat, e: nat)
    requires Bounds(text, d, e) && Flush(text)
    ensures SamePlace(PackageVersionAt(Kinds(Trim(text))), PackageVersionAt(Kinds(text)), d, e)
    ensures SamePlaces(LockVersionsAt(Kinds(Trim(text))), LockVersionsAt(Kinds(text)), d, e)
  {
    TrimIsPadded(text, d, e);
    PackagePlace(Kinds(text)[d..e], d, Kinds(text), Kinds(Trim(text)));
    LockPlaces(Kinds(text)[d..e], d, Kinds(text), Kinds(Trim(text)));
  }

  // ------------------------------------------------- what a setting leaves

  /** Where a writer sets the version, from the kinds of the lines alone. */
  type Locator = seq<Kind> -> Option<set<nat>>

  ghost predicate Locates(locate: Locator) {
    forall ks :: locate(ks).Some? ==> forall k :: k in locate(ks).value ==> k < |ks| && ks[k] == VersionLine
  }

  function PackageLines(ks: seq<Kind>): Option<set<nat>> {
    var m := PackageVersionAt(ks);
    if m.None? then None else Some({m.value})
  }

  lemma WritersLocate()
    ensures Locates(PackageLines) && Locates(LockVersionsAt)
  {
  }

  ghost function SetBy(locate: Locator, text: Text, v: string): Option<Text>
    requires Locates(locate)
  {
    var at := locate(Kinds(text));
    if at.None? then None else
      KindsAreVersionLines(text, at.value);
      Some(Rewrite(text, at.value, v))
  }

  lemma WritersSet(text: Text, v: string)
    requires Locates(PackageLines) && Locates(LockVersionsAt)
    ensures ReplacePackageVersion(text, v) == SetBy(PackageLines, text, v)
    ensures SetCargoLock(text, v) == SetBy(LockVersionsAt, text, v)
  {
    PackageIsRewrite(text, v);
  }

  lemma SaysIt(line: string, v: string)
    requires IsVersionLine(line) && Settable(v)
    ensures SetLine(line, v) == line <==> VersionIn(line) == v
  {
    LineLaws(line, v, v);
  }

  lemma TrimmedSaysTheSame(line: string, first: bool, last: bool)
    requires IsVersionLine(line)
    ensures IsVersionLine(EndLine(line, first, last)) && VersionIn(EndLine(line, first, last)) == VersionIn(line)
  {
    VersionLineIsFlush(line);
    VersionLineStripped(line);
    var span := QuotedAfter(line, VERSION).value;
    assert line[..span.to + 1][span.from..span.to] == line[span.from..span.to];
  }

  predicate Says(text: Text, k: nat, v: string) {
    k < |text| && IsVersionLine(text[k]) && VersionIn(text[k]) == v
  }

  /** Every line of `at` is one of `b`, or says `v` already. */
  ghost predicate Covers(text: Text, at: set<nat>, b: set<nat>, v: string) {
    forall k :: k in at ==> k in b || Says(text, k, v)
  }

  /** What line `k` becomes when some lines are set. */
  function LineSet(text: Text, k: nat, at: set<nat>, v: string): string
    requires k < |text| && (k in at ==> IsVersionLine(text[k]))
  {
    if k in at then SetLine(text[k], v) else text[k]
  }

  lemma SetAt(text: Text, t: Text, at: set<nat>, v: string, k: nat)
    requires IsSet(text, t, at, v) && k < |text|
    ensures k in at ==> IsVersionLine(text[k])
    ensures |t| == |text| && t[k] == LineSet(text, k, at, v)
  {
  }

  /** One line set to `v` where `a` says so and then to `z` where `b` says so, against only the latter. */
  lemma LineCovered(line: string, ina: bool, inb: bool, v: string, z: string)
    requires Settable(v) && Settable(z) && (ina || inb ==> IsVersionLine(line))
    ensures var l := if ina then SetLine(line, v) else line;
      && (inb ==> IsVersionLine(l))
      && ((if inb then SetLine(l, z) else l) == (if inb then SetLine(line, z) else line)
          <==> (ina ==> inb || VersionIn(line) == v))
  {
    if ina {
      LineLaws(line, v, z);
      SaysIt(line, v);
    }
  }

  /** A text is set to `v` on `a`; setting it and the first one to `z` on `b` gives one text exactly
      when `b` covers what the first setting changed. */
  lemma LaterCoversIff(text: Text, t: Text, a: set<nat>, v: string, x: Text, y: Text, b: set<nat>, z: string)
    requires IsSet(text, t, a, v) && IsSet(t, x, b, z) && IsSet(text, y, b, z) && Settable(v) && Settable(z)
    ensures x == y <==> Covers(text, a, b, v)
  {
    forall k: nat | k < |text|
      ensures k in a ==> IsVersionLine(text[k])
      ensures |x| == |y| == |text| && (x[k] == y[k] <==> (k in a ==> k in b || Says(text, k, v)))
    {
      SetAt(text, t, a, v, k);
      SetAt(t, x, b, z, k);
      SetAt(text, y, b, z, k);
      LineCovered(text[k], k in a, k in b, v, z);
    }
    SameLines(x, y);
  }

  lemma SameLines(x: Text, y: Text)
    ensures x == y <==> |x| == |y| && forall k :: 0 <= k < |x| ==> x[k] == y[k]
  {
  }

  function Unshift(at: set<nat>, d: nat): set<nat>
    requires forall k :: k in at ==> d <= k
  {
    set k | k in at :: k - d
  }

  lemma ShiftOfUnshift(at: set<nat>, d: nat)
    requires forall k :: k in at ==> d <= k
    ensures Shift(Unshift(at, d), d) == at
    ensures forall k :: k in Unshift(at, d) <==> d + k in at
  {
    forall k ensures k in Unshift(at, d) <==> d + k in at {
      if k in Unshift(at, d) {
        var i :| i in at && i - d == k;
      }
      assert d + k in at ==> (d + k) - d in Unshift(at, d);
    }
    forall k ensures k in Shift(Unshift(at, d), d) <==> k in at {
      if k in Shift(Unshift(at, d), d) {
        var i :| i in Unshift(at, d) && i + d == k;
      }
      assert k in at ==> (k - d) in Unshift(at, d) && (k - d) + d == k;
    }
  }

  /** In the text: every line set is one that is set after trimming, or says `v` already. */
  ghost predicate CoversShown(text: Text, at: set<nat>, b: set<nat>, v: string) {
    Covers(text, at, Shift(b, FirstLine(text)), v)
  }

  lemma VersionLinesAreInBody(text: Text, at: set<nat>, d: nat, e: nat)
    requires Bounds(text, d, e) && forall k :: k in at ==> k < |text| && IsVersionLine(text[k])
    ensures forall k :: k in at ==> d <= k < e
  {
    forall k | k in at ensures d <= k < e {
      VersionLineIsFlush(text[k]);
    }
  }

  lemma OneIsShown(text: Text, u: Text, b: set<nat>, v: string, d: nat, e: nat, m: nat, k: nat)
    requires IsTrim(text, d, e, u) && m == d + k && m < e && IsVersionLine(text[m])
    ensures k in b || Says(u, k, v) <==> m in Shift(b, d) || Says(text, m, v)
  {
    ShiftIs(b, d, k);
    assert u[k] == EndLine(text[m], k == 0, k == e - d - 1);
    TrimmedSaysTheSame(text[m], k == 0, k == e - d - 1);
  }

  lemma CoveredWhenShown(text: Text, u: Text, at: set<nat>, a: set<nat>, b: set<nat>, v: string, d: nat, e: nat)
    requires IsTrim(text, d, e, u) && (forall k :: k in at ==> d <= k < e && IsVersionLine(text[k]))
    requires forall k :: k in a <==> d + k in at
    requires Covers(u, a, b, v)
    ensures Covers(text, at, Shift(b, d), v)
  {
    forall k | k in at ensures k in Shift(b, d) || Says(text, k, v) {
      assert d + (k - d) in at;
      OneIsShown(text, u, b, v, d, e, k, k - d);
    }
  }

  lemma ShownWhenCovered(text: Text, u: Text, at: set<nat>, a: set<nat>, b: set<nat>, v: string, d: nat, e: nat)
    requires IsTrim(text, d, e, u) && (forall k :: k in at ==> d <= k < e && IsVersionLine(text[k]))
    requires forall k :: k in a <==> d + k in at
    requires Covers(text, at, Shift(b, d), v)
    ensures Covers(u, a, b, v)
  {
    forall k | k in a ensures k in b || Says(u, k, v) {
      var m := d + k;
      assert m in at;
      OneIsShown(text, u, b, v, d, e, m, k);
    }
  }

  lemma CoversIsShown(text: Text, u: Text, at: set<nat>, a: set<nat>, b: set<nat>, v: string, d: nat, e: nat)
    requires IsTrim(text, d, e, u) && (forall k :: k in at ==> d <= k < e && IsVersionLine(text[k]))
    requires forall k :: k in a <==> d + k in at
    ensures Covers(u, a, b, v) <==> Covers(text, at, Shift(b, d), v)
  {
    if Covers(u, a, b, v) {
      CoveredWhenShown(text, u, at, a, b, v, d, e);
    } else if Covers(text, at, Shift(b, d), v) {
      ShownWhenCovered(text, u, at, a, b, v, d, e);
    }
  }

  /** What is left of a setting when a text is trimmed and set again: nothing exactly when the trimmed
      text cannot be set, or is set on every line that the setting changed. */
  lemma ErasedIff(locate: Locator, t: Text, v: string, z: string)
    requires Locates(locate) && Settable(v) && Settable(z) && SetBy(locate, t, v).Some?
    ensures SetBy(locate, Trim(SetBy(locate, t, v).value), z) == SetBy(locate, Trim(t), z) <==>
      locate(Kinds(Trim(t))).Some? ==> CoversShown(t, locate(Kinds(t)).value, locate(Kinds(Trim(t))).value, v)
  {
    var at := locate(Kinds(t)).value;
    var s := SetBy(locate, t, v).value;
    KindsAreVersionLines(t, at);
    if at == {} {
      assert s == t;
    } else {
      var any :| any in at;
      VersionLineIsFlush(t[any]);
      var d, e := HasBounds(t);
      BoundsAre(t, d, e);
      VersionLinesAreInBody(t, at, d, e);
      ErasedBodyIff(locate, t, s, at, v, z, d, e);
    }
  }

  lemma SetByIs(locate: Locator, text: Text, v: string, at: set<nat>)
    requires Locates(locate) && locate(Kinds(text)) == Some(at)
    ensures SetBy(locate, text, v).Some? && IsSet(text, SetBy(locate, text, v).value, at, v)
  {
    KindsAreVersionLines(text, at);
  }

  lemma ErasedBodyIff(locate: Locator, t: Text, s: Text, at: set<nat>, v: string, z: string, d: nat, e: nat)
    requires Locates(locate) && Settable(v) && Settable(z) && IsSet(t, s, at, v)
    requires Bounds(t, d, e) && forall k :: k in at ==> d <= k < e
    ensures SetBy(locate, Trim(s), z) == SetBy(locate, Trim(t), z) <==>
      locate(Kinds(Trim(t))).Some? ==> Covers(t, at, Shift(locate(Kinds(Trim(t))).value, d), v)
  {
    ShiftOfUnshift(at, d);
    SetTrims(t, s, Unshift(at, d), v, d, e);
    TrimIs(t, d, e);
    RewriteKeepsKinds(Trim(t), Unshift(at, d), v);
    assert Kinds(Trim(s)) == Kinds(Trim(t));
    ErasedShownIff(locate, t, Trim(t), Trim(s), at, v, z, d, e);
  }

  lemma ErasedShownIff(locate: Locator, t: Text, u: Text, w: Text, at: set<nat>, v: string, z: string, d: nat, e: nat)
    requires Locates(locate) && Settable(v) && Settable(z) && IsTrim(t, d, e, u) && Kinds(u) == Kinds(w)
    requires forall k :: k in at ==> d <= k < e && IsVersionLine(t[k])
    requires IsSet(u, w, Unshift(at, d), v)
    ensures SetBy(locate, w, z) == SetBy(locate, u, z) <==>
      locate(Kinds(u)).Some? ==> Covers(t, at, Shift(locate(Kinds(u)).value, d), v)
  {
    var b := locate(Kinds(u));
    if b.Some? {
      SetByIs(locate, u, z, b.value);
      SetByIs(locate, w, z, b.value);
      ShiftOfUnshift(at, d);
      CoversIsShown(t, u, at, Unshift(at, d), b.value, v, d, e);
      LaterCoversIff(u, w, Unshift(at, d), v, SetBy(locate, w, z).value, SetBy(locate, u, z).value, b.value, z);
    }
  }

  /** What a caller can check of a Cargo.toml before a bump to `v`: the version is set on one line
      before and after trimming, or it is there already, or the trimmed file cannot be set. */
  predicate PackageErases(t: Text, v: string) {
    var m, n := PackageVersionAt(Kinds(t)), PackageVersionAt(Kinds(Trim(t)));
    m.Some? && n.Some? ==> m.value == FirstLine(t) + n.value || Says(t, m.value, v)
  }

  /** The same of a Cargo.lock, line by line. */
  ghost predicate LockErases(t: Text, v: string) {
    var at, b := LockVersionsAt(Kinds(t)), LockVersionsAt(Kinds(Trim(t)));
    at.Some? && b.Some? ==> Covers(t, at.value, Shift(b.value, FirstLine(t)), v)
  }

  lemma OneIsCovered(t: Text, m: nat, n: nat, d: nat, v: string)
    ensures Covers(t, {m}, Shift({n}, d), v) <==> m == d + n || Says(t, m, v)
  {
    assert m in Shift({n}, d) <==> m == n + d by {
      assert n in {n};
    }
  }

  /** After a bump of a Cargo.toml, trimming it and setting another version leaves what it would have
      left before the bump, exactly when the file erases. */
  lemma PackageErasedIff(t: Text, v: string, z: string)
    requires Settable(v) && Settable(z) && ReplacePackageVersion(t, v).Some?
    ensures ReplacePackageVersion(Trim(ReplacePackageVersion(t, v).value), z) == ReplacePackageVersion(Trim(t), z)
      <==> PackageErases(t, v)
  {
    WritersLocate();
    WritersSet(t, v);
    WritersSet(Trim(t), z);
    WritersSet(Trim(ReplacePackageVersion(t, v).value), z);
    ErasedIff(PackageLines, t, v, z);
    var m, n := PackageVersionAt(Kinds(t)), PackageVersionAt(Kinds(Trim(t)));
    if n.Some? {
      OneIsCovered(t, m.value, n.value, FirstLine(t), v);
    }
  }

  /** The same for a Cargo.lock. */
  lemma LockErasedIff(t: Text, v: string, z: string)
    requires Settable(v) && Settable(z) && SetCargoLock(t, v).Some?
    ensures SetCargoLock(Trim(SetCargoLock(t, v).value), z) == SetCargoLock(Trim(t), z) <==> LockErases(t, v)
  {
    WritersLocate();
    WritersSet(t, v);
    WritersSet(Trim(t), z);
    WritersSet(Trim(SetCargoLock(t, v).value), z);
    ErasedIff(LockVersionsAt, t, v, z);
  }

  /** A file whose first line keeps its kind erases every bump. */
  lemma FlushErases(t: Text, v: string)
    requires Flush(t)
    ensures PackageErases(t, v) && LockErases(t, v)
  {
    if forall k :: 0 <= k < |t| ==> IsBlank(t[k]) {
      NothingToSet(t);
    } else {
      var d, e := HasBounds(t);
      BoundsAre(t, d, e);
      PlacesTrim(t, d, e);
    }
  }

  // ------------------------------------------------------------- the digest

  /** A commit's files: the ones that carry versions, their modes, and every other path with its mode
      and bytes. */
  datatype Tree = Tree(versioned: Repo, modes: map<string, string>, rest: map<string, string>)

  function TrimAll(r: Repo): Repo {
    Repo(Trim(r.packageJson), Trim(r.tauriConf), Trim(r.packageLock), Trim(r.shellCargo), Trim(r.serverCargo), Trim(r.cargoLock))
  }

  /** The tree as `git show` hands its versioned files over. */
  function Shown(t: Tree): Tree {
    t.(versioned := TrimAll(t.versioned))
  }

  function Bump(c: Formats, t: Tree, tag: string): Option<Tree> {
    var r := SetReleaseVersion(c, t.versioned, tag);
    if r.None? then None else Some(t.(versioned := r.value))
  }

  /** What `source_digest` hashes, the hash taken as injective: the tree it is shown, with its versions
      erased. */
  function Digest(c: Formats, t: Tree): Option<Tree> {
    Bump(c, Shown(t), "v0.0.0")
  }

  /** What can be read of a file can be read of the trimmed file. */
  ghost predicate IgnoresMargins(c: Formats) {
    && (forall t :: c.decode(t).Some? ==> c.decode(Trim(t)) == c.decode(t))
    && (forall t :: c.package(t).Some? ==> c.package(Trim(t)) == c.package(t))
    && (forall t :: c.lock(t).Some? ==> c.lock(Trim(t)) == c.lock(t))
  }

  predicate AllFlush(r: Repo) {
    Flush(r.shellCargo) && Flush(r.serverCargo) && Flush(r.cargoLock)
  }

  lemma JsonErasedAgain(c: Formats, t: Text, v: string, z: string)
    requires Lawful(c) && IgnoresMargins(c) && WriteJson(c, t, v).Some?
    ensures WriteJson(c, Trim(WriteJson(c, t, v).value), z) == WriteJson(c, Trim(t), z)
  {
    JsonTextLens(c, t, v, z);
  }

  lemma PackageLockErasedAgain(c: Formats, t: Text, v: string, z: string)
    requires Lawful(c) && IgnoresMargins(c) && WritePackageLock(c, t, v).Some?
    ensures WritePackageLock(c, Trim(WritePackageLock(c, t, v).value), z) == WritePackageLock(c, Trim(t), z)
  {
    PackageLockTextLens(c, t, v, z);
  }

  lemma JsonFilesErasedAgain(c: Formats, r: Repo, v: string, z: string)
    requires Lawful(c) && IgnoresMargins(c) && SetAll(c, r, v).Some?
    ensures var a, b := TrimAll(SetAll(c, r, v).value), TrimAll(r);
      && WriteJson(c, a.packageJson, z) == WriteJson(c, b.packageJson, z)
      && WriteJson(c, a.tauriConf, z) == WriteJson(c, b.tauriConf, z)
      && WritePackageLock(c, a.packageLock, z) == WritePackageLock(c, b.packageLock, z)
  {
    JsonErasedAgain(c, r.packageJson, v, z);
    JsonErasedAgain(c, r.tauriConf, v, z);
    PackageLockErasedAgain(c, r.packageLock, v, z);
  }

  /** What a caller can check of the files before a bump to `v`. */
  ghost predicate BumpErases(r: Repo, v: string) {
    PackageErases(r.shellCargo, v) && PackageErases(r.serverCargo, v) && LockErases(r.cargoLock, v)
  }

  ghost predicate CargoFilesAgree(a: Repo, b: Repo, z: string) {
    && ReplacePackageVersion(a.shellCargo, z) == ReplacePackageVersion(b.shellCargo, z)
    && ReplacePackageVersion(a.serverCargo, z) == ReplacePackageVersion(b.serverCargo, z)
    && SetCargoLock(a.cargoLock, z) == SetCargoLock(b.cargoLock, z)
  }

  lemma CargoFilesErasedIff(c: Formats, r: Repo, v: string, z: string)
    requires Settable(v) && Settable(z) && SetAll(c, r, v).Some?
    ensures CargoFilesAgree(TrimAll(SetAll(c, r, v).value), TrimAll(r), z) <==> BumpErases(r, v)
  {
    PackageErasedIff(r.shellCargo, v, z);
    PackageErasedIff(r.serverCargo, v, z);
    LockErasedIff(r.cargoLock, v, z);
  }

  lemma SameSettingsIff(c: Formats, a: Repo, b: Repo, z: string)
    requires WriteJson(c, a.packageJson, z) == WriteJson(c, b.packageJson, z)
    requires WriteJson(c, a.tauriConf, z) == WriteJson(c, b.tauriConf, z)
    requires WritePackageLock(c, a.packageLock, z) == WritePackageLock(c, b.packageLock, z)
    ensures CargoFilesAgree(a, b, z) ==> SetAll(c, a, z) == SetAll(c, b, z)
    ensures SetAll(c, b, z).Some? && SetAll(c, a, z) == SetAll(c, b, z) ==> CargoFilesAgree(a, b, z)
  {
  }

  lemma ErasedAgainIff(c: Formats, r: Repo, v: string, z: string)
    requires Lawful(c) && IgnoresMargins(c) && Settable(v) && Settable(z) && SetAll(c, r, v).Some?
    ensures var a, b := SetAll(c, TrimAll(SetAll(c, r, v).value), z), SetAll(c, TrimAll(r), z);
      (BumpErases(r, v) ==> a == b) && (b.Some? && a == b ==> BumpErases(r, v))
  {
    JsonFilesErasedAgain(c, r, v, z);
    CargoFilesErasedIff(c, r, v, z);
    SameSettingsIff(c, TrimAll(SetAll(c, r, v).value), TrimAll(r), z);
  }

  lemma TrimmedCollects(c: Formats, r: Repo)
    requires IgnoresMargins(c) && Collects(c, r)
    ensures Collects(c, TrimAll(r))
  {
  }

  lemma SameReleaseIff(c: Formats, a: Repo, b: Repo, tag: string)
    requires Collects(c, a) && Collects(c, b) && NormalizeTag(tag).Some?
    ensures SetAll(c, a, NormalizeTag(tag).value) == SetAll(c, b, NormalizeTag(tag).value) ==>
      SetReleaseVersion(c, a, tag) == SetReleaseVersion(c, b, tag)
    ensures SetReleaseVersion(c, b, tag).Some? && SetReleaseVersion(c, a, tag) == SetReleaseVersion(c, b, tag) ==>
      SetAll(c, b, NormalizeTag(tag).value).Some?
      && SetAll(c, a, NormalizeTag(tag).value) == SetAll(c, b, NormalizeTag(tag).value)
  {
  }

  /** What a bump leaves is erased as what it found. */
  lemma BumpIsErasedIff(c: Formats, r: Repo, tag: string, zero: string)
    requires Lawful(c) && IgnoresMargins(c) && SetReleaseVersion(c, r, tag).Some? && NormalizeTag(zero).Some?
    ensures var a, b := SetReleaseVersion(c, TrimAll(SetReleaseVersion(c, r, tag).value), zero), SetReleaseVersion(c, TrimAll(r), zero);
      && (BumpErases(r, NormalizeTag(tag).value) ==> a == b)
      && (b.Some? && a == b ==> BumpErases(r, NormalizeTag(tag).value))
  {
    var s := SetReleaseVersion(c, r, tag).value;
    TrimmedCollects(c, r);
    TrimmedCollects(c, s);
    TagIsSettable(tag);
    TagIsSettable(zero);
    ErasedAgainIff(c, r, NormalizeTag(tag).value, NormalizeTag(zero).value);
    SameReleaseIff(c, TrimAll(s), TrimAll(r), zero);
  }

  lemma ZeroIsATag()
    ensures NormalizeTag("v0.0.0") == Some("0.0.0")
  {
    V.DigitVersion('0', '0', '0');
    assert "v0.0.0"[1..] == "0.0.0";
  }

  /** The digest sees of a tree's files what setting the trimmed ones leaves. */
  lemma DigestIs(c: Formats, t: Tree, s: Repo)
    ensures var a, b := SetReleaseVersion(c, TrimAll(s), "v0.0.0"), SetReleaseVersion(c, TrimAll(t.versioned), "v0.0.0");
      && (Digest(c, t).Some? <==> b.Some?)
      && (Digest(c, t.(versioned := s)) == Digest(c, t) <==> a == b)
  {
  }

  lemma BumpIs(c: Formats, t: Tree, tag: string)
    requires Bump(c, t, tag).Some?
    ensures SetReleaseVersion(c, t.versioned, tag).Some?
    ensures Bump(c, t, tag).value == t.(versioned := SetReleaseVersion(c, t.versioned, tag).value)
  {
  }

  lemma BumpIsSeenIff(c: Formats, t: Tree, tag: string)
    requires Lawful(c) && IgnoresMargins(c) && Bump(c, t, tag).Some?
    ensures var same, erases := Digest(c, Bump(c, t, tag).value) == Digest(c, t), BumpErases(t.versioned, NormalizeTag(tag).value);
      (erases ==> same) && (Digest(c, t).Some? && same ==> erases)
  {
    BumpIs(c, t, tag);
    DigestIs(c, t, SetReleaseVersion(c, t.versioned, tag).value);
    ZeroIsATag();
    BumpIsErasedIff(c, t.versioned, tag, "v0.0.0");
  }

  /** When a bump changes the source digest of a tree that has one: exactly when some Cargo file does
      not erase it. */
  lemma DigestIgnoresBumpIff(c: Formats, t: Tree, tag: string)
    requires Lawful(c) && IgnoresMargins(c) && Bump(c, t, tag).Some? && Digest(c, t).Some?
    ensures Digest(c, Bump(c, t, tag).value) == Digest(c, t) <==> BumpErases(t.versioned, NormalizeTag(tag).value)
  {
    BumpIsSeenIff(c, t, tag);
  }

  lemma AllFlushErase(r: Repo, v: string)
    requires AllFlush(r)
    ensures BumpErases(r, v)
  {
    FlushErases(r.shellCargo, v);
    FlushErases(r.serverCargo, v);
    FlushErases(r.cargoLock, v);
  }

  /** No bump changes the source digest, nor whether there is one, when the first line of each Cargo
      file is of the kind it has after trimming. */
  lemma DigestIgnoresBumps(c: Formats, t: Tree, tag: string)
    requires Lawful(c) && IgnoresMargins(c) && AllFlush(t.versioned) && Bump(c, t, tag).Some?
    ensures Digest(c, Bump(c, t, tag).value) == Digest(c, t)
  {
    AllFlushErase(t.versioned, NormalizeTag(tag).value);
    BumpIsSeenIff(c, t, tag);
  }

  /** Two trees have one digest exactly when, as shown, a bump to the same version makes them the
      same tree: nothing but versions, JSON layout and blank margins of versioned files is erased. */
  lemma DigestsAgreeIff(c: Formats, a: Tree, b: Tree, tag: string)
    requires Lawful(c) && Digest(c, a).Some? && Digest(c, b).Some?
    requires Bump(c, Shown(a), tag).Some? && Bump(c, Shown(b), tag).Some?
    ensures Digest(c, a) == Digest(c, b) <==> Bump(c, Shown(a), tag) == Bump(c, Shown(b), tag)
  {
    var r, s := TrimAll(a.versioned), TrimAll(b.versioned);
    ReleaseLens(c, r, "v0.0.0", tag);
    ReleaseLens(c, s, "v0.0.0", tag);
    ReleaseLens(c, r, tag, "v0.0.0");
    ReleaseLens(c, s, tag, "v0.0.0");
  }

  // ------------------------------------- reading line by line ignores margins

  lemma {:induction false} StripBlank(s: string)
    requires IsBlank(s)
    ensures V.Strip(s) == ""
  {
    if s != "" {
      StripBlank(s[1..]);
    }
  }

  lemma {:induction false} StripOfLeftStrip(s: string)
    ensures V.Strip(LeftStrip(s)) == V.Strip(s)
  {
    if s != "" && V.IsSpace(s[0]) {
      StripOfLeftStrip(s[1..]);
    }
  }

  lemma {:induction false} StripOfRightStrip(s: string)
    ensures V.Strip(RightStrip(s)) == V.Strip(s)
    decreases |s|
  {
    if s != "" && V.IsSpace(s[|s| - 1]) {
      StripOfRightStrip(s[..|s| - 1]);
      StripDropsLast(s);
    }
  }

  lemma {:induction false} StripDropsLast(s: string)
    requires s != "" && V.IsSpace(s[|s| - 1])
    ensures V.Strip(s[..|s| - 1]) == V.Strip(s)
    decreases |s|
  {
    if |s| > 1 && V.IsSpace(s[0]) {
      StripDropsLast(s[1..]);
      assert s[1..][..|s| - 2] == s[..|s| - 1][1..];
    }
  }

  lemma SameStripSeen(a: string, b: string)
    requires V.Strip(a) == V.Strip(b)
    ensures SeenIn(a) == SeenIn(b)
  {
  }

  lemma EndLineIsSeen(line: string, first: bool, last: bool)
    ensures SeenIn(EndLine(line, first, last)) == SeenIn(line)
  {
    var l := if first then LeftStrip(line) else line;
    StripOfLeftStrip(line);
    StripOfRightStrip(l);
    SameStripSeen(EndLine(line, first, last), line);
  }

  lemma BlankIsOther(line: string)
    requires IsBlank(line)
    ensures SeenIn(line) == SeenOther
  {
    StripBlank(line);
  }

  /** `body` with lines around it that the readers ignore. */
  ghost predicate Framed(body: seq<Seen>, d: nat, all: seq<Seen>) {
    && d + |body| <= |all| && all[d..d + |body|] == body
    && (forall k :: 0 <= k < d ==> all[k].SeenOther?)
    && (forall k :: d + |body| <= k < |all| ==> all[k].SeenOther?)
  }

  lemma FramedBoth(all: seq<Seen>, seen: seq<Seen>, d: nat, e: nat)
    requires d < e <= |all| && |seen| == e - d + 1 && seen[e - d].SeenOther?
    requires forall k :: 0 <= k < |all| && !(d <= k < e) ==> all[k].SeenOther?
    requires forall k :: 0 <= k < e - d ==> seen[k] == all[d + k]
    ensures Framed(all[d..e], d, all) && Framed(all[d..e], 0, seen)
  {
    assert seen[..e - d] == all[d..e];
  }

  lemma TrimIsFramed(text: Text) returns (body: seq<Seen>, d: nat)
    ensures Framed(body, d, SeenAll(text)) && Framed(body, 0, SeenAll(Trim(text)))
  {
    if forall k :: 0 <= k < |text| ==> IsBlank(text[k]) {
      body, d := [], 0;
      forall k | 0 <= k < |text| ensures SeenIn(text[k]) == SeenOther {
        BlankIsOther(text[k]);
      }
      assert FirstLine(text) == |text|;
      BlankIsOther("");
    } else {
      var e: nat;
      d, e := HasBounds(text);
      body := SeenAll(text)[d..e];
      BodyIsFramed(text, d, e);
    }
  }

  lemma TrimmedIsSeen(text: Text, u: Text, d: nat, e: nat, k: nat)
    requires IsTrim(text, d, e, u) && d + k < e
    ensures SeenAll(u)[k] == SeenAll(text)[d + k]
  {
    EndLineIsSeen(text[d + k], k == 0, k == e - d - 1);
  }

  lemma BlankIsSeen(text: Text, k: nat)
    requires k < |text| && IsBlank(text[k])
    ensures SeenAll(text)[k].SeenOther?
  {
    BlankIsOther(text[k]);
  }

  lemma BodyIsFramed(text: Text, d: nat, e: nat)
    requires Bounds(text, d, e)
    ensures Framed(SeenAll(text)[d..e], d, SeenAll(text)) && Framed(SeenAll(text)[d..e], 0, SeenAll(Trim(text)))
  {
    TrimIs(text, d, e);
    forall k | 0 <= k < |text| && !(d <= k < e) ensures SeenAll(text)[k].SeenOther? {
      BlankIsSeen(text, k);
    }
    forall k | 0 <= k < e - d ensures SeenAll(Trim(text))[k] == SeenAll(text)[d + k] {
      TrimmedIsSeen(text, Trim(text), d, e, k);
    }
    BlankIsSeen(Trim(text), e - d);
    FramedBoth(SeenAll(text), SeenAll(Trim(text)), d, e);
  }

  lemma {:induction false} ReadAtEnd(all: seq<Seen>, i: nat, inPackage: bool)
    requires i <= |all| && forall k :: i <= k < |all| ==> all[k].SeenOther?
    ensures ReadAt(all, i, inPackage).None?
    decreases |all| - i
  {
    if i < |all| {
      ReadAtEnd(all, i + 1, inPackage);
    }
  }

  lemma {:induction false} ReadAtSkips(all: seq<Seen>, i: nat, d: nat, inPackage: bool)
    requires i <= d <= |all| && forall k :: i <= k < d ==> all[k].SeenOther?
    ensures ReadAt(all, i, inPackage) == ReadAt(all, d, inPackage)
    decreases d - i
  {
    if i < d {
      ReadAtSkips(all, i + 1, d, inPackage);
    }
  }

  lemma {:induction false} ReadAtOfFramed(body: seq<Seen>, d: nat, all: seq<Seen>, i: nat, inPackage: bool)
    requires Framed(body, d, all) && i <= |body|
    ensures var r := ReadAt(body, i, inPackage);
      ReadAt(all, d + i, inPackage) == if r.None? then None else Some(d + r.value)
    decreases |body| - i
  {
    if i == |body| {
      ReadAtEnd(all, d + i, inPackage);
    } else {
      assert all[d + i] == all[d..d + |body|][i] == body[i];
      ReadAtOfFramed(body, d, all, i + 1, true);
      ReadAtOfFramed(body, d, all, i + 1, inPackage);
    }
  }

  /** What is read line by line from a Cargo.toml. */
  function PackageSeen(seen: seq<Seen>): Option<string> {
    var at := ReadAt(seen, 0, false);
    if at.None? then None else Some(seen[at.value].v)
  }

  lemma PackageSeenOfFramed(body: seq<Seen>, d: nat, all: seq<Seen>)
    requires Framed(body, d, all)
    ensures PackageSeen(all) == PackageSeen(body)
  {
    ReadAtSkips(all, 0, d, false);
    ReadAtOfFramed(body, d, all, 0, false);
    var r := ReadAt(body, 0, false);
    if r.Some? {
      assert all[d..d + |body|][r.value] == all[d + r.value];
    }
  }

  function ShiftPackage(p: Package, d: nat): Package {
    if p.at.Some? then p.(at := Some(d + p.at.value)) else p
  }

  function ShiftPackages(ps: seq<Package>, d: nat): seq<Package> {
    seq(|ps|, i requires 0 <= i < |ps| => ShiftPackage(ps[i], d))
  }

  function ShiftScan(s: Scan, d: nat): Scan {
    Scan(ShiftPackages(s.done, d), if s.current.Some? then Some(ShiftPackage(s.current.value, d)) else None)
  }

  lemma {:induction false} ScanSkips(all: seq<Seen>, i: nat, n: nat)
    requires i <= n <= |all| && forall k :: i <= k < n ==> all[k].SeenOther?
    ensures ScanTo(all, n) == ScanTo(all, i)
    decreases n
  {
    if i < n {
      ScanSkips(all, i, n - 1);
    }
  }

  function ScanOne(s: Scan, seen: Seen, at: nat): Scan {
    match seen
    case SeenLockPackage => Scan(if s.current.Some? then s.done + [s.current.value] else s.done, Some(Package(None, None)))
    case SeenName(name) => if s.current.Some? then s.(current := Some(s.current.value.(name := Some(name)))) else s
    case SeenVersion(_) => if s.current.Some? then s.(current := Some(s.current.value.(at := Some(at)))) else s
    case _ => s
  }

  lemma ScanOneShifts(s: Scan, seen: Seen, at: nat, d: nat)
    ensures ScanOne(ShiftScan(s, d), seen, d + at) == ShiftScan(ScanOne(s, seen, at), d)
  {
  }

  lemma {:induction false} ScanOfFramed(body: seq<Seen>, d: nat, all: seq<Seen>, n: nat)
    requires Framed(body, d, all) && n <= |body|
    ensures ScanTo(all, d + n) == ShiftScan(ScanTo(body, n), d)
    decreases n
  {
    if n == 0 {
      ScanSkips(all, 0, d);
    } else {
      ScanOfFramed(body, d, all, n - 1);
      assert all[d..d + |body|][n - 1] == all[d + (n - 1)];
      ScanOneShifts(ScanTo(body, n - 1), body[n - 1], n - 1, d);
      assert ScanTo(body, n) == ScanOne(ScanTo(body, n - 1), body[n - 1], n - 1);
      assert ScanTo(all, d + n) == ScanOne(ScanTo(all, d + (n - 1)), all[d + (n - 1)], d + (n - 1));
    }
  }

  lemma PackagesOfFramed(body: seq<Seen>, d: nat, all: seq<Seen>)
    requires Framed(body, d, all)
    ensures PackagesIn(all) == ShiftPackages(PackagesIn(body), d)
  {
    ScanSkips(all, d + |body|, |all|);
    ScanOfFramed(body, d, all, |body|);
  }

  function ShiftLines(m: map<string, nat>, d: nat): map<string, nat> {
    map n | n in m :: d + m[n]
  }

  lemma {:induction false} VersionLinesShift(ps: seq<Package>, d: nat)
    ensures VersionLines(ShiftPackages(ps, d)) ==
      if VersionLines(ps).None? then None else Some(ShiftLines(VersionLines(ps).value, d))
  {
    if ps != [] {
      var init := ps[..|ps| - 1];
      VersionLinesShift(init, d);
      assert ShiftPackages(ps, d)[..|ps| - 1] == ShiftPackages(init, d);
      var p := ps[|ps| - 1];
      if VersionLines(init).Some? && p.name.Some? && p.at.Some? {
        assert ShiftLines(VersionLines(init).value[p.name.value := p.at.value], d)
            == ShiftLines(VersionLines(init).value, d)[p.name.value := d + p.at.value];
      }
    } else {
      assert ShiftLines(map[], d) == map[];
    }
  }

  lemma VersionsSeenOfFramed(body: seq<Seen>, d: nat, all: seq<Seen>)
    requires Framed(body, d, all)
    ensures VersionsSeen(all) == VersionsSeen(body)
  {
    PackagesOfFramed(body, d, all);
    VersionLinesShift(PackagesIn(body), d);
    LockReadsVersions(body);
    LockReadsVersions(all);
    if LockReadsAt(body).Some? {
      var lines := LockReadsAt(body).value;
      assert LockReadsAt(all) == Some(ShiftLines(lines, d));
      forall n | n in lines ensures all[d + lines[n]] == body[lines[n]] {
        assert all[d..d + |body|][lines[n]] == all[d + lines[n]];
      }
      assert VersionsSeen(all).value == VersionsSeen(body).value;
    }
  }

  lemma PackageVersionIsSeen(t: Text)
    ensures PackageVersion(t) == PackageSeen(SeenAll(t))
  {
  }

  lemma PackageReadsTrimmed(t: Text)
    ensures PackageVersion(Trim(t)) == PackageVersion(t)
  {
    var body, d := TrimIsFramed(t);
    PackageSeenOfFramed(body, d, SeenAll(t));
    PackageSeenOfFramed(body, 0, SeenAll(Trim(t)));
    PackageVersionIsSeen(t);
    PackageVersionIsSeen(Trim(t));
  }

  lemma LockReadsTrimmed(t: Text)
    ensures LockVersions(Trim(t)) == LockVersions(t)
  {
    var body, d := TrimIsFramed(t);
    VersionsSeenOfFramed(body, d, SeenAll(t));
    VersionsSeenOfFramed(body, 0, SeenAll(Trim(t)));
  }

  /** The line readers ignore the margins of a file, whatever is in it. */
  lemma FallbackIgnoresMargins(decode: Text -> Option<Json>, encode: Json -> Text)
    requires forall t :: decode(t).Some? ==> decode(Trim(t)) == decode(t)
    ensures IgnoresMargins(Fallback(decode, encode))
  {
    forall t: Text ensures PackageVersion(Trim(t)) == PackageVersion(t) {
      PackageReadsTrimmed(t);
    }
    forall t: Text ensures LockVersions(Trim(t)) == LockVersions(t) {
      LockReadsTrimmed(t);
    }
  }
}
