// Setting and reading the release version in the repository's files.  A text
// file is its lines; a match that would run over a line break is not modelled.
//
// The writers look only at the kind of each line (`Kinds`) and the readers only
// at what they see in it (`SeenAll`), and a setting changes neither but for the
// version itself.  The lens laws of a file, and where a reader answers from
// after a setting, follow from that.
module VersionText {
  import V = SemVer

  datatype Option<+T> = None | Some(value: T)

  type Text = seq<string>

  // --------------------------------------------------------------- one line

  /** The first place from `i` on that is not blank, or the end. */
  function SkipBlank(s: string, i: nat): (k: nat)
    requires i <= |s|
    ensures i <= k <= |s| && (forall j :: i <= j < k ==> V.IsSpace(s[j])) && (k < |s| ==> !V.IsSpace(s[k]))
    decreases |s| - i
  {
    if i < |s| && V.IsSpace(s[i]) then SkipBlank(s, i + 1) else i
  }

  /** The first quote from `i` on, or the end. */
  function FindQuote(s: string, i: nat): (k: nat)
    requires i <= |s|
    ensures i <= k <= |s| && (forall j :: i <= j < k ==> s[j] != '"') && (k < |s| ==> s[k] == '"')
    decreases |s| - i
  {
    if i < |s| && s[i] != '"' then FindQuote(s, i + 1) else i
  }

  /** Where the text between the quotes is. */
  datatype Span = Span(from: nat, to: nat)

  /** The line is the key, an equals sign and a nonempty quoted text, with blanks only between and after. */
  ghost predicate IsQuoted(line: string, key: string, equals: nat, span: Span) {
    && |key| <= equals < span.from - 1 && span.from < span.to < |line|
    && key <= line
    && (forall j :: |key| <= j < equals ==> V.IsSpace(line[j])) && line[equals] == '='
    && (forall j :: equals < j < span.from - 1 ==> V.IsSpace(line[j])) && line[span.from - 1] == '"'
    && (forall j :: span.from <= j < span.to ==> line[j] != '"') && line[span.to] == '"'
    && (forall j :: span.to < j < |line| ==> V.IsSpace(line[j]))
  }

  /** The match of `^key\s*=\s*"[^"]+"\s*$`. */
  function QuotedAfter(line: string, key: string): (r: Option<Span>)
    ensures r.Some? ==> r.value.from < r.value.to < |line|
  {
    if !(key <= line) then None else
    var e := SkipBlank(line, |key|);
    if e == |line| || line[e] != '=' then None else
    var a := SkipBlank(line, e + 1);
    if a == |line| || line[a] != '"' then None else
    var b := FindQuote(line, a + 1);
    if b == |line| || b == a + 1 || SkipBlank(line, b + 1) != |line| then None
    else Some(Span(a + 1, b))
  }

  lemma FindQuoteIs(s: string, i: nat, k: nat)
    requires i <= k < |s| && (forall j :: i <= j < k ==> s[j] != '"') && s[k] == '"'
    ensures FindQuote(s, i) == k
  {
  }

  lemma QuotedIsFound(line: string, key: string, e: nat, span: Span)
    requires IsQuoted(line, key, e, span)
    ensures QuotedAfter(line, key) == Some(span)
  {
  }

  lemma FoundIsQuoted(line: string, key: string) returns (e: nat)
    requires QuotedAfter(line, key).Some?
    ensures IsQuoted(line, key, e, QuotedAfter(line, key).value)
  {
    e := SkipBlank(line, |key|);
  }

  const VERSION := "version"
  const NAME := "name"

  predicate IsVersionLine(line: string) {
    QuotedAfter(line, VERSION).Some?
  }

  function VersionIn(line: string): string
    requires IsVersionLine(line)
  {
    var s := QuotedAfter(line, VERSION).value;
    line[s.from..s.to]
  }

  function SetLine(line: string, v: string): string
    requires IsVersionLine(line)
  {
    var s := QuotedAfter(line, VERSION).value;
    line[..s.from] + v + line[s.to..]
  }

  predicate Settable(v: string) {
    v != "" && '"' !in v
  }

  lemma SetLineSpan(line: string, v: string)
    requires IsVersionLine(line) && Settable(v)
    ensures var s := QuotedAfter(line, VERSION).value;
      QuotedAfter(SetLine(line, v), VERSION) == Some(Span(s.from, s.from + |v|))
  {
    var s := QuotedAfter(line, VERSION).value;
    var e := FoundIsQuoted(line, VERSION);
    SplicedIsQuoted(line, VERSION, e, s, v);
    QuotedIsFound(SetLine(line, v), VERSION, e, Span(s.from, s.from + |v|));
  }

  lemma SplicedIsQuoted(line: string, key: string, e: nat, s: Span, v: string)
    requires IsQuoted(line, key, e, s) && Settable(v)
    ensures IsQuoted(line[..s.from] + v + line[s.to..], key, e, Span(s.from, s.from + |v|))
  {
  }

  lemma SpliceLaws(line: string, s: Span, v: string, w: string)
    requires s.from <= s.to <= |line|
    ensures var t := line[..s.from] + v + line[s.to..];
      && t[s.from..s.from + |v|] == v
      && t[..s.from] + w + t[s.from + |v|..] == line[..s.from] + w + line[s.to..]
    ensures line[..s.from] + line[s.from..s.to] + line[s.to..] == line
  {
    var t := line[..s.from] + v + line[s.to..];
    assert t[..s.from] == line[..s.from] && t[s.from + |v|..] == line[s.to..];
  }

  /** The lens laws of one line: what is set is read, the last setting wins, and setting what is
      there changes nothing. */
  lemma LineLaws(line: string, v: string, w: string)
    requires IsVersionLine(line) && Settable(v)
    ensures IsVersionLine(SetLine(line, v)) && VersionIn(SetLine(line, v)) == v
    ensures SetLine(SetLine(line, v), w) == SetLine(line, w)
    ensures SetLine(line, VersionIn(line)) == line
  {
    SetLineSpan(line, v);
    SpliceLaws(line, QuotedAfter(line, VERSION).value, v, w);
  }

  // ------------------------------------------------------- kinds of lines

  datatype Kind = PackageHeader | LockHeader | Section | VersionLine | NameLine(name: string) | Plain

  predicate IsHeader(line: string, header: string) {
    header <= line && SkipBlank(line, |header|) == |line|
  }

  /** Everything the writers look at in a line, except the version itself. */
  function KindOf(line: string): Kind {
    if IsHeader(line, "[package]") then PackageHeader
    else if IsHeader(line, "[[package]]") then LockHeader
    else if "[" <= line then Section
    else if IsVersionLine(line) then VersionLine
    else
      var n := QuotedAfter(line, NAME);
      if n.Some? then NameLine(line[n.value.from..n.value.to]) else Plain
  }

  function Kinds(text: Text): (ks: seq<Kind>)
    ensures |ks| == |text|
  {
    seq(|text|, i requires 0 <= i < |text| => KindOf(text[i]))
  }

  lemma KindOfVersionLine(line: string)
    ensures IsVersionLine(line) <==> KindOf(line) == VersionLine
  {
    if IsVersionLine(line) {
      assert line[0] == VERSION[0];
    }
  }

  predicate IsPackageHeader(k: Kind) { k.PackageHeader? }
  predicate IsLockHeader(k: Kind) { k.LockHeader? }
  predicate IsName(k: Kind) { k.NameLine? }
  predicate IsVersion(k: Kind) { k.VersionLine? }
  predicate InSection(k: Kind) { k.PackageHeader? || k.LockHeader? || k.Section? }

  /** The first place from `i` on that `p` holds of, or the end. */
  function First(ks: seq<Kind>, i: nat, p: Kind -> bool): (k: nat)
    requires i <= |ks|
    ensures i <= k <= |ks| && (forall j :: i <= j < k ==> !p(ks[j])) && (k < |ks| ==> p(ks[k]))
    decreases |ks| - i
  {
    if i < |ks| && !p(ks[i]) then First(ks, i + 1, p) else i
  }

  /** The version line of the `[package]` section. */
  function PackageVersionAt(ks: seq<Kind>): (m: Option<nat>)
    ensures m.Some? ==> m.value < |ks| && ks[m.value] == VersionLine
  {
    var h := First(ks, 0, IsPackageHeader);
    if h == |ks| then None else
    var e := First(ks, h + 1, InSection);
    var m := First(ks, h + 1, IsVersion);
    if m < e then Some(m) else None
  }

  /** The line is the header, with nothing but blanks behind it. */
  ghost predicate IsAlone(line: string, header: string) {
    header <= line && forall j :: |header| <= j < |line| ==> V.IsSpace(line[j])
  }

  ghost predicate IsVersionText(line: string) {
    exists e, span :: IsQuoted(line, "version", e, span)
  }

  ghost predicate IsNameText(line: string, name: string) {
    exists e, span :: IsQuoted(line, "name", e, span) && line[span.from..span.to] == name
  }

  lemma QuotedIff(line: string, key: string)
    ensures QuotedAfter(line, key).Some? <==> exists e, span :: IsQuoted(line, key, e, span)
    ensures forall e, span :: IsQuoted(line, key, e, span) ==> QuotedAfter(line, key) == Some(span)
    ensures QuotedAfter(line, key).Some? ==> exists e :: IsQuoted(line, key, e, QuotedAfter(line, key).value)
  {
    if QuotedAfter(line, key).Some? {
      var e := FoundIsQuoted(line, key);
    }
    forall e, span | IsQuoted(line, key, e, span) ensures QuotedAfter(line, key) == Some(span) {
      QuotedIsFound(line, key, e, span);
    }
  }

  lemma AloneIff(line: string, header: string)
    ensures IsHeader(line, header) <==> IsAlone(line, header)
  {
  }

  /** What each kind of line looks like. */
  lemma KindIs(line: string, name: string)
    ensures KindOf(line) == PackageHeader <==> IsAlone(line, "[package]")
    ensures KindOf(line) == LockHeader <==> IsAlone(line, "[[package]]")
    ensures KindOf(line) == Section <==> |line| > 0 && line[0] == '[' && !IsAlone(line, "[package]") && !IsAlone(line, "[[package]]")
    ensures KindOf(line) == VersionLine <==> IsVersionText(line)
    ensures KindOf(line) == NameLine(name) <==> IsNameText(line, name)
  {
    AloneIff(line, "[package]");
    AloneIff(line, "[[package]]");
    QuotedIff(line, "version");
    QuotedIff(line, "name");
    HeadersDiffer(line);
  }

  lemma HeadersDiffer(line: string)
    ensures IsAlone(line, "[package]") || IsAlone(line, "[[package]]") ==> |line| > 0 && line[0] == '['
    ensures !(IsAlone(line, "[package]") && IsAlone(line, "[[package]]"))
    ensures |line| > 0 && line[0] == '[' <==> "[" <= line
  {
    assert IsAlone(line, "[package]") ==> line[1] == 'p';
    assert IsAlone(line, "[[package]]") ==> line[1] == '[';
  }

  /** Line `m` is the first version line of the first `[package]` section, which ends where a line begins
      with a bracket. */
  ghost predicate IsPackageVersion(ks: seq<Kind>, h: nat, m: nat) {
    && h < m < |ks| && ks[h] == PackageHeader && (forall j :: 0 <= j < h ==> ks[j] != PackageHeader)
    && ks[m] == VersionLine
    && forall j :: h < j < m ==> ks[j] != VersionLine && ks[j] != PackageHeader && ks[j] != LockHeader && ks[j] != Section
  }

  lemma FirstIs(ks: seq<Kind>, i: nat, p: Kind -> bool, k: nat)
    requires i <= k <= |ks| && (forall j :: i <= j < k ==> !p(ks[j])) && (k < |ks| ==> p(ks[k]))
    ensures First(ks, i, p) == k
  {
  }

  lemma PackageVersionIs(ks: seq<Kind>, m: nat)
    ensures PackageVersionAt(ks) == Some(m) <==> exists h :: IsPackageVersion(ks, h, m)
  {
    var h := First(ks, 0, IsPackageHeader);
    if PackageVersionAt(ks) == Some(m) {
      assert IsPackageVersion(ks, h, m);
    }
    if g: nat :| IsPackageVersion(ks, g, m) {
      FirstIs(ks, 0, IsPackageHeader, g);
      FirstIs(ks, g + 1, IsVersion, m);
    }
  }

  function ReplacePackageVersion(text: Text, v: string): Option<Text> {
    var m := PackageVersionAt(Kinds(text));
    if m.None? then None else
      KindOfVersionLine(text[m.value]);
      Some(text[m.value := SetLine(text[m.value], v)])
  }

  // -------------------------------------------------- rewriting chosen lines

  /** The text with `v` set in every line of `at`. */
  function Rewrite(text: Text, at: set<nat>, v: string): (t: Text)
    requires forall k :: k in at ==> k < |text| && IsVersionLine(text[k])
    ensures |t| == |text|
  {
    seq(|text|, k requires 0 <= k < |text| => if k in at then SetLine(text[k], v) else text[k])
  }

  lemma RewriteKeepsKinds(text: Text, at: set<nat>, v: string)
    requires (forall k :: k in at ==> k < |text| && IsVersionLine(text[k])) && Settable(v)
    ensures Kinds(Rewrite(text, at, v)) == Kinds(text)
    ensures forall k :: k in at ==> IsVersionLine(Rewrite(text, at, v)[k]) && VersionIn(Rewrite(text, at, v)[k]) == v
  {
    var t := Rewrite(text, at, v);
    forall k: nat | k < |text|
      ensures KindOf(t[k]) == KindOf(text[k])
      ensures k in at ==> IsVersionLine(t[k]) && VersionIn(t[k]) == v
    {
      if k in at {
        LineLaws(text[k], v, v);
        KindOfVersionLine(text[k]);
        KindOfVersionLine(t[k]);
      }
    }
  }

  lemma RewriteLaws(text: Text, at: set<nat>, v: string, w: string)
    requires (forall k :: k in at ==> k < |text| && IsVersionLine(text[k])) && Settable(v)
    requires forall k :: k in at ==> IsVersionLine(Rewrite(text, at, v)[k])
    ensures Rewrite(Rewrite(text, at, v), at, w) == Rewrite(text, at, w)
    ensures (forall k :: k in at ==> VersionIn(text[k]) == v) ==> Rewrite(text, at, v) == text
  {
    forall k | k in at ensures SetLine(SetLine(text[k], v), w) == SetLine(text[k], w)
                       && (VersionIn(text[k]) == v ==> SetLine(text[k], v) == text[k]) {
      LineLaws(text[k], v, w);
    }
  }

  // ----------------------------------------------------------- a Cargo.toml

  lemma PackageIsRewrite(text: Text, v: string)
    ensures var m := PackageVersionAt(Kinds(text));
      && (ReplacePackageVersion(text, v).Some? <==> m.Some?)
      && (m.Some? ==> IsVersionLine(text[m.value]) && ReplacePackageVersion(text, v) == Some(Rewrite(text, {m.value}, v)))
  {
    var m := PackageVersionAt(Kinds(text));
    if m.Some? {
      KindOfVersionLine(text[m.value]);
      assert text[m.value := SetLine(text[m.value], v)] == Rewrite(text, {m.value}, v);
    }
  }

  /** Setting the version of a Cargo.toml succeeds or fails whatever the version; the last of two
      settings wins; setting what is there changes nothing; and only the text between the quotes of
      one line is changed. */
  lemma PackageLens(text: Text, v: string, w: string)
    requires Settable(v) && Settable(w) && ReplacePackageVersion(text, v).Some?
    ensures var t, m := ReplacePackageVersion(text, v).value, PackageVersionAt(Kinds(text)).value;
      && ReplacePackageVersion(t, w) == ReplacePackageVersion(text, w)
      && PackageVersionAt(Kinds(t)) == Some(m)
      && IsVersionLine(text[m]) && IsVersionLine(t[m]) && VersionIn(t[m]) == v
      && (VersionIn(text[m]) == v ==> t == text)
      && |t| == |text| && (forall k :: 0 <= k < |text| && k != m ==> t[k] == text[k])
  {
    var m := PackageVersionAt(Kinds(text)).value;
    PackageIsRewrite(text, v);
    PackageIsRewrite(text, w);
    var t := ReplacePackageVersion(text, v).value;
    RewriteKeepsKinds(text, {m}, v);
    PackageIsRewrite(t, w);
    RewriteLaws(text, {m}, v, w);
  }

  // ------------------------------------------------------------- the readers

  /** The quoted text after the first equals sign of a stripped line. */
  function ParseTomlString(line: string): Option<string> {
    var e := V.Find(line, '=');
    var value := V.Strip(if e < |line| then line[e + 1..] else "");
    if value == "" || value[0] != '"' then None else
    var end := FindQuote(value, 1);
    if end == |value| then None else Some(value[1..end])
  }

  /** What the readers make of one line. */
  datatype Seen = SeenPackage | SeenLockPackage | SeenBracket | SeenVersion(v: string) | SeenName(n: string) | SeenOther

  function SeenIn(line: string): Seen {
    var s := V.Strip(line);
    if s == "[package]" then SeenPackage
    else if s == "[[package]]" then SeenLockPackage
    else if "[" <= s then SeenBracket
    else if VERSION <= s && ParseTomlString(s).Some? then SeenVersion(ParseTomlString(s).value)
    else if NAME <= s && ParseTomlString(s).Some? then SeenName(ParseTomlString(s).value)
    else SeenOther
  }

  lemma {:induction false} StripIs(s: string, i: nat, j: nat)
    requires i < j <= |s| && !V.IsSpace(s[i]) && !V.IsSpace(s[j - 1])
    requires forall k :: (0 <= k < i || j <= k < |s|) ==> V.IsSpace(s[k])
    ensures V.Strip(s) == s[i..j]
    decreases |s|
  {
    if i > 0 {
      StripIs(s[1..], i - 1, j - 1);
      assert s[1..][i - 1..j - 1] == s[i..j];
    } else if j < |s| {
      StripIs(s[..|s| - 1], i, j);
      assert s[..|s| - 1][i..j] == s[i..j];
    }
  }

  /** The quoted text is what is read from a line that ends with its closing quote. */
  lemma KeyValueIsParsed(s: string, key: string, e: nat, span: Span)
    requires IsQuoted(s, key, e, span) && |s| == span.to + 1 && '=' !in key
    ensures ParseTomlString(s) == Some(s[span.from..span.to])
  {
    forall k | 0 <= k < e ensures s[k] != '=' {
      assert k < |key| ==> s[k] == key[k] && key[k] in key;
    }
    V.FindIn(s, '=', e);
    ValueIsStripped(s, e, span);
    var value := s[span.from - 1..];
    FindQuoteIs(value, 1, span.to - span.from + 1);
    assert value[1..span.to - span.from + 1] == s[span.from..span.to];
  }

  lemma ValueIsStripped(s: string, e: nat, span: Span)
    requires e < span.from - 1 && span.from < span.to && |s| == span.to + 1
    requires (forall j :: e < j < span.from - 1 ==> V.IsSpace(s[j])) && s[span.from - 1] == '"' && s[span.to] == '"'
    ensures V.Strip(s[e + 1..]) == s[span.from - 1..]
  {
    var rest := s[e + 1..];
    StripIs(rest, span.from - e - 2, |rest|);
    assert rest[span.from - e - 2..|rest|] == s[span.from - 1..];
  }

  lemma KeyValueIsStripped(line: string, key: string, e: nat, span: Span)
    requires IsQuoted(line, key, e, span) && key != "" && !V.IsSpace(key[0])
    ensures V.Strip(line) == line[..span.to + 1] && IsQuoted(line[..span.to + 1], key, e, span)
  {
  }

  /** The reader finds in a version line just what the writer replaces. */
  lemma VersionLineIsSeen(line: string)
    requires IsVersionLine(line)
    ensures SeenIn(line) == SeenVersion(VersionIn(line))
  {
    var span := QuotedAfter(line, VERSION).value;
    var e := FoundIsQuoted(line, VERSION);
    KeyValueIsStripped(line, VERSION, e, span);
    var s := line[..span.to + 1];
    KeyValueIsParsed(s, VERSION, e, span);
    assert s[span.from..span.to] == line[span.from..span.to];
    ParsedIsSeen(line, s, VersionIn(line));
  }

  lemma ParsedIsSeen(line: string, s: string, v: string)
    requires V.Strip(line) == s && VERSION <= s && ParseTomlString(s) == Some(v)
    ensures SeenIn(line) == SeenVersion(v)
  {
    assert s[0] == 'v';
  }

  /** The line, but for blanks before it, begins with the key, and the first equals sign behind is followed,
      after blanks, by `v` in quotes. */
  ghost predicate ReadsText(line: string, key: string, v: string) {
    exists i: nat, e: nat, a: nat :: ReadsTextAt(line, key, v, i, e, a)
  }

  ghost predicate ReadsTextAt(line: string, key: string, v: string, i: nat, e: nat, a: nat) {
    && i + |key| <= |line| && line[i..i + |key|] == key && (forall k :: 0 <= k < i ==> V.IsSpace(line[k]))
    && i <= e < a && a + 1 + |v| < |line|
    && line[e] == '=' && (forall k :: i <= k < e ==> line[k] != '=') && (forall k :: e < k < a ==> V.IsSpace(line[k]))
    && line[a] == '"' && line[a + 1..a + 1 + |v|] == v && '"' !in v && line[a + 1 + |v|] == '"'
  }

  /** The same of a line that is stripped. */
  lemma ParsedIff(s: string, v: string)
    ensures ParseTomlString(s) == Some(v) <==> exists e: nat, a: nat :: ReadsTextAt(s, "", v, 0, e, a)
  {
    var e := V.Find(s, '=');
    if ParseTomlString(s) == Some(v) {
      var a := ParsedReads(s, v, e);
    }
    if f: nat, a: nat :| ReadsTextAt(s, "", v, 0, f, a) {
      V.FindIn(s, '=', f);
      ParsedAt(s, v, e, a);
    }
  }

  lemma SliceOfSlice(line: string, i: nat, j: nat, s: string, b: nat, n: nat)
    requires i <= j <= |line| && s == line[i..j] && b + n <= |s|
    ensures s[b..b + n] == line[i + b..i + b + n]
  {
    var x, y := s[b..b + n], line[i + b..i + b + n];
    forall k | 0 <= k < |x| ensures x[k] == y[k] {
      assert s[b + k] == line[i + (b + k)];
    }
  }

  /** A stripped text that is a value in quotes. */
  predicate IsValue(value: string, v: string) {
    && 1 + |v| < |value| && value[0] == '"' && value[1..1 + |v|] == v && value[1 + |v|] == '"' && '"' !in v
  }

  lemma ValueIff(value: string, v: string)
    ensures value != "" && value[0] == '"' && FindQuote(value, 1) < |value| && value[1..FindQuote(value, 1)] == v <==> IsValue(value, v)
  {
    if IsValue(value, v) {
      forall j | 1 <= j < 1 + |v| ensures value[j] != '"' {
        assert value[1..1 + |v|][j - 1] == v[j - 1];
      }
      FindQuoteIs(value, 1, 1 + |v|);
    }
  }

  lemma ParsedReads(s: string, v: string, e: nat) returns (a: nat)
    requires e == V.Find(s, '=') && ParseTomlString(s) == Some(v)
    ensures ReadsTextAt(s, "", v, 0, e, a)
  {
    var rest := s[e + 1..];
    var i := V.StripSurrounds(rest);
    ValueIff(V.Strip(rest), v);
    a := e + 1 + i;
    RestReads(s, e, rest, i, V.Strip(rest));
    ValueReads(s, v, e, a, V.Strip(rest));
  }

  lemma RestReads(s: string, e: nat, rest: string, i: nat, value: string)
    requires e < |s| && rest == s[e + 1..] && V.Surrounds(rest, i, value)
    ensures e + 1 + i + |value| <= |s| && s[e + 1 + i..e + 1 + i + |value|] == value
    ensures forall k :: e < k < e + 1 + i ==> V.IsSpace(s[k])
  {
    SliceOfSlice(s, e + 1, |s|, rest, i, |value|);
    assert forall k :: e < k < e + 1 + i ==> s[k] == rest[k - e - 1];
  }

  lemma ValueReads(s: string, v: string, e: nat, a: nat, value: string)
    requires e < a && a + |value| <= |s| && s[a..a + |value|] == value && IsValue(value, v)
    requires s[e] == '=' && '=' !in s[..e] && forall k :: e < k < a ==> V.IsSpace(s[k])
    ensures ReadsTextAt(s, "", v, 0, e, a)
  {
    SliceOfSlice(s, a, a + |value|, value, 1, |v|);
    assert forall k :: 0 <= k < |value| ==> value[k] == s[a + k];
    assert forall k :: 0 <= k < e ==> s[k] == s[..e][k];
  }

  lemma ParsedAt(s: string, v: string, e: nat, a: nat)
    requires e == V.Find(s, '=') && ReadsTextAt(s, "", v, 0, e, a)
    ensures ParseTomlString(s) == Some(v)
  {
    var rest := s[e + 1..];
    var i := V.StripSurrounds(rest);
    QuoteIsFirst(rest, i, V.Strip(rest), a - e - 1, |v|);
    ReadsValue(s, v, e, a, V.Strip(rest));
    ValueIff(V.Strip(rest), v);
  }

  lemma ReadsValue(s: string, v: string, e: nat, a: nat, value: string)
    requires ReadsTextAt(s, "", v, 0, e, a) && V.Surrounds(s[e + 1..], a - e - 1, value) && |value| > |v| + 1
    ensures IsValue(value, v)
  {
    SliceOfSlice(s, e + 1, |s|, s[e + 1..], a - e - 1, |value|);
    SliceOfSlice(s, a, a + |value|, value, 1, |v|);
    assert forall k :: 0 <= k < |value| ==> value[k] == s[a + k];
  }

  /** What is left when the blanks are taken off begins at the opening quote. */
  lemma QuoteIsFirst(rest: string, i: nat, value: string, q: nat, n: nat)
    requires V.Surrounds(rest, i, value) && (value != "" ==> !V.IsSpace(value[0]))
    requires q + 1 + n < |rest| && rest[q] == '"' && rest[q + 1 + n] == '"' && forall k :: 0 <= k < q ==> V.IsSpace(rest[k])
    ensures i == q && |value| > n + 1
  {
    assert !V.IsSpace('"');
    assert i <= q && q + 1 + n < i + |value|;
    assert rest[i] == value[0];
  }

  /** What the line readers make of a line. */
  lemma SeenIs(line: string, v: string)
    ensures SeenIn(line) == SeenPackage <==> exists i :: V.Surrounds(line, i, "[package]")
    ensures SeenIn(line) == SeenLockPackage <==> exists i :: V.Surrounds(line, i, "[[package]]")
    ensures SeenIn(line) == SeenVersion(v) <==> ReadsText(line, "version", v)
    ensures SeenIn(line) == SeenName(v) <==> ReadsText(line, "name", v)
  {
    HeaderSeenIff(line, "[package]");
    HeaderSeenIff(line, "[[package]]");
    TextSeenIff(line, "version", v);
    TextSeenIff(line, "name", v);
    FirstOfKeys(V.Strip(line));
  }

  lemma FirstOfKeys(s: string)
    ensures VERSION <= s ==> s[0] == 'v'
    ensures NAME <= s ==> s[0] == 'n'
    ensures "[" <= s ==> s[0] == '['
    ensures s == "[package]" || s == "[[package]]" ==> s[0] == '['
    ensures "[package]" != "[[package]]"
  {
    assert |"[package]"| == 9 && |"[[package]]"| == 11;
  }

  lemma HeaderSeenIff(line: string, header: string)
    requires header != "" && !V.IsSpace(header[0]) && !V.IsSpace(header[|header| - 1])
    ensures V.Strip(line) == header <==> exists i :: V.Surrounds(line, i, header)
  {
    var i := V.StripSurrounds(line);
    if j: nat :| V.Surrounds(line, j, header) {
      V.StripFinds(line, j, header);
    }
  }

  lemma TextSeenIff(line: string, key: string, v: string)
    requires key != "" && !V.IsSpace(key[0]) && '=' !in key
    ensures key <= V.Strip(line) && ParseTomlString(V.Strip(line)) == Some(v) <==> ReadsText(line, key, v)
  {
    var i := V.StripSurrounds(line);
    var s := V.Strip(line);
    ParsedIff(s, v);
    if key <= s && ParseTomlString(s) == Some(v) {
      var e: nat, a: nat :| ReadsTextAt(s, "", v, 0, e, a);
      StrippedReads(line, i, s, key, v, e, a);
    }
    if j: nat, e: nat, a: nat :| ReadsTextAt(line, key, v, j, e, a) {
      ReadsStripped(line, i, s, key, v, j, e, a);
    }
  }

  lemma StrippedReads(line: string, i: nat, s: string, key: string, v: string, e: nat, a: nat)
    requires V.Surrounds(line, i, s) && key <= s && ReadsTextAt(s, "", v, 0, e, a)
    ensures ReadsText(line, key, v)
  {
    assert forall k :: 0 <= k < |s| ==> s[k] == line[i + k];
    assert line[i..i + |key|] == key;
    assert line[i + a + 1..i + a + 1 + |v|] == s[a + 1..a + 1 + |v|];
    assert ReadsTextAt(line, key, v, i, i + e, i + a);
  }

  lemma ReadsStripped(line: string, i: nat, s: string, key: string, v: string, j: nat, e: nat, a: nat)
    requires V.Surrounds(line, i, s) && ReadsTextAt(line, key, v, j, e, a) && key != "" && !V.IsSpace(key[0])
    requires '=' !in key && (s != "" ==> !V.IsSpace(s[0]))
    ensures key <= s && exists f: nat, b: nat :: ReadsTextAt(s, "", v, 0, f, b)
  {
    assert line[j] == key[0];
    assert i <= j && a + 1 + |v| < i + |s| by {
      assert forall k :: (0 <= k < i || i + |s| <= k < |line|) ==> V.IsSpace(line[k]);
    }
    assert forall k :: 0 <= k < |s| ==> s[k] == line[i + k];
    assert i == j by {
      assert s[0] == line[i];
    }
    SliceOfSlice(line, i, i + |s|, s, a - i + 1, |v|);
    assert ReadsTextAt(s, "", v, 0, e - i, a - i);
    assert i + |key| <= e by {
      assert forall k :: 0 <= k < |key| ==> line[i + k] == key[k];
    }
    assert s[..|key|] == line[i..i + |key|];
  }

  function SeenAll(text: Text): (seen: seq<Seen>)
    ensures |seen| == |text|
  {
    seq(|text|, i requires 0 <= i < |text| => SeenIn(text[i]))
  }

  /** The line that `read_cargo_package_version` answers from. */
  function ReadAt(seen: seq<Seen>, i: nat, inPackage: bool): (r: Option<nat>)
    requires i <= |seen|
    ensures r.Some? ==> r.value < |seen| && seen[r.value].SeenVersion?
    decreases |seen| - i
  {
    if i == |seen| then None
    else if seen[i].SeenPackage? then ReadAt(seen, i + 1, true)
    else if inPackage && (seen[i].SeenBracket? || seen[i].SeenLockPackage?) then None
    else if inPackage && seen[i].SeenVersion? then Some(i)
    else ReadAt(seen, i + 1, inPackage)
  }

  function PackageVersion(text: Text): Option<string> {
    var at := ReadAt(SeenAll(text), 0, false);
    if at.None? then None else Some(SeenIn(text[at.value]).v)
  }

  /** The reader answers from the first version after the first `[package]`, unless another table begins
      in between. */
  ghost predicate IsReadAt(seen: seq<Seen>, h: nat, m: nat) {
    && h < m < |seen| && seen[h] == SeenPackage && (forall j :: 0 <= j < h ==> seen[j] != SeenPackage)
    && seen[m].SeenVersion?
    && forall j :: h < j < m ==> !seen[j].SeenVersion? && seen[j] != SeenBracket && seen[j] != SeenLockPackage
  }

  lemma {:induction false} ReadInPackage(seen: seq<Seen>, i: nat, m: nat)
    requires i <= |seen|
    ensures ReadAt(seen, i, true) == Some(m) <==>
      && i <= m < |seen| && seen[m].SeenVersion?
      && forall j :: i <= j < m ==> !seen[j].SeenVersion? && seen[j] != SeenBracket && seen[j] != SeenLockPackage
    decreases |seen| - i
  {
    if i < |seen| {
      ReadInPackage(seen, i + 1, m);
    }
  }

  lemma {:induction false} ReadBefore(seen: seq<Seen>, i: nat, h: nat)
    requires i <= h <= |seen| && (forall j :: i <= j < h ==> seen[j] != SeenPackage) && (h < |seen| ==> seen[h] == SeenPackage)
    ensures ReadAt(seen, i, false) == if h < |seen| then ReadAt(seen, h + 1, true) else None
    decreases |seen| - i
  {
    if i < h {
      ReadBefore(seen, i + 1, h);
    }
  }

  lemma ReadAtIs(seen: seq<Seen>, m: nat)
    ensures ReadAt(seen, 0, false) == Some(m) <==> exists h :: IsReadAt(seen, h, m)
  {
    if exists h :: 0 <= h < |seen| && seen[h] == SeenPackage {
      var h := FirstPackage(seen);
      ReadBefore(seen, 0, h);
      ReadInPackage(seen, h + 1, m);
      assert IsReadAt(seen, h, m) <==> ReadAt(seen, 0, false) == Some(m);
      if g: nat :| IsReadAt(seen, g, m) {
        assert g == h;
      }
    } else {
      ReadBefore(seen, 0, |seen|);
    }
  }

  lemma FirstPackage(seen: seq<Seen>) returns (h: nat)
    requires exists h :: 0 <= h < |seen| && seen[h] == SeenPackage
    ensures h < |seen| && seen[h] == SeenPackage && forall j :: 0 <= j < h ==> seen[j] != SeenPackage
  {
    h := 0;
    while seen[h] != SeenPackage
      invariant h < |seen| && forall j :: 0 <= j < h ==> seen[j] != SeenPackage
      decreases |seen| - h
    {
      h := h + 1;
    }
  }

  method ReadCargoPackageVersion(text: Text) returns (r: Option<string>)
    ensures r == PackageVersion(text)
  {
    var inPackage := false;
    for i := 0 to |text|
      invariant ReadAt(SeenAll(text), 0, false) == ReadAt(SeenAll(text), i, inPackage)
    {
      var seen := SeenIn(text[i]);
      if seen.SeenPackage? {
        inPackage := true;
      } else if inPackage && (seen.SeenBracket? || seen.SeenLockPackage?) {
        return None;
      } else if inPackage && seen.SeenVersion? {
        return Some(seen.v);
      }
    }
    return None;
  }

  /** Line by line the same, or a version in both. */
  ghost predicate SameButVersions(a: seq<Seen>, b: seq<Seen>) {
    |a| == |b| && forall k :: 0 <= k < |a| ==> a[k] == b[k] || (a[k].SeenVersion? && b[k].SeenVersion?)
  }

  lemma RewriteIsSameButVersions(text: Text, at: set<nat>, v: string)
    requires (forall k :: k in at ==> k < |text| && IsVersionLine(text[k])) && Settable(v)
    ensures SameButVersions(SeenAll(text), SeenAll(Rewrite(text, at, v)))
    ensures forall k :: k in at ==> SeenIn(Rewrite(text, at, v)[k]) == SeenVersion(v)
  {
    RewriteKeepsKinds(text, at, v);
    forall k | k in at ensures SeenIn(text[k]).SeenVersion? && SeenIn(Rewrite(text, at, v)[k]) == SeenVersion(v) {
      VersionLineIsSeen(text[k]);
      VersionLineIsSeen(Rewrite(text, at, v)[k]);
    }
  }

  lemma {:induction false} SameReadAt(a: seq<Seen>, b: seq<Seen>, i: nat, inPackage: bool)
    requires SameButVersions(a, b) && i <= |a|
    ensures ReadAt(a, i, inPackage) == ReadAt(b, i, inPackage)
    decreases |a| - i
  {
    if i < |a| {
      SameReadAt(a, b, i + 1, true);
      SameReadAt(a, b, i + 1, inPackage);
    }
  }

  /** After a setting, the reader answers with the version set exactly when it reads the line that
      the writer changes, or one that said so already. */
  lemma PackageReadsBackIff(text: Text, v: string)
    requires Settable(v) && ReplacePackageVersion(text, v).Some?
    ensures var at, m := ReadAt(SeenAll(text), 0, false), PackageVersionAt(Kinds(text)).value;
      PackageVersion(ReplacePackageVersion(text, v).value) == Some(v) <==>
        at.Some? && (at.value == m || SeenIn(text[at.value]).v == v)
  {
    PackageIsRewrite(text, v);
    var m := PackageVersionAt(Kinds(text)).value;
    RewriteIsSameButVersions(text, {m}, v);
    SameReadAt(SeenAll(text), SeenAll(Rewrite(text, {m}, v)), 0, false);
  }

  // ----------------------------------------------------------- the Cargo.lock

  const LOCK_NAMES := {"tauri-shell", "tyde-server"}

  /** The version lines of the named packages, from the package at line `s` on; None for a duplicate
      or a missing version. */
  function LockTargets(ks: seq<Kind>, s: nat, found: set<string>, at: set<nat>): (r: Option<(set<nat>, set<string>)>)
    requires s <= |ks| && (forall k :: k in at ==> k < |ks| && ks[k] == VersionLine)
    ensures r.Some? ==> forall k :: k in r.value.0 ==> k < |ks| && ks[k] == VersionLine
    decreases |ks| - s
  {
    if s == |ks| then Some((at, found)) else
    var e := First(ks, s + 1, IsLockHeader);
    var n := First(ks, s, IsName);
    if n >= e || ks[n].name !in LOCK_NAMES then LockTargets(ks, e, found, at)
    else
      var m := First(ks, s, IsVersion);
      if ks[n].name in found || m >= e then None
      else LockTargets(ks, e, found + {ks[n].name}, at + {m})
  }

  function LockVersionsAt(ks: seq<Kind>): (r: Option<set<nat>>)
    ensures r.Some? ==> forall k :: k in r.value ==> k < |ks| && ks[k] == VersionLine
  {
    var t := LockTargets(ks, First(ks, 0, IsLockHeader), {}, {});
    if t.None? || !(LOCK_NAMES <= t.value.1) then None else Some(t.value.0)
  }

  /** The chunk of the package header at line `s` goes on to the next package header. */
  predicate InChunk(ks: seq<Kind>, s: nat, k: nat) {
    s < k < |ks| && ks[s] == LockHeader && forall j :: s < j <= k ==> ks[j] != LockHeader
  }

  /** The first name line of the chunk at `s` says `name`. */
  ghost predicate IsNamed(ks: seq<Kind>, s: nat, name: string) {
    exists n :: FirstName(ks, s, n, name)
  }

  predicate FirstName(ks: seq<Kind>, s: nat, n: nat, name: string) {
    InChunk(ks, s, n) && ks[n] == NameLine(name) && forall j :: s < j < n ==> !ks[j].NameLine?
  }

  /** Line `m` is the first version line of the chunk at `s`. */
  predicate FirstVersion(ks: seq<Kind>, s: nat, m: nat) {
    InChunk(ks, s, m) && ks[m] == VersionLine && forall j :: s < j < m ==> ks[j] != VersionLine
  }

  predicate Wanted(name: string) {
    name == "tauri-shell" || name == "tyde-server"
  }

  ghost predicate IsWantedAt(ks: seq<Kind>, s: nat, name: string) {
    Wanted(name) && IsNamed(ks, s, name)
  }

  ghost predicate HasFirstVersion(ks: seq<Kind>, s: nat) {
    exists m :: FirstVersion(ks, s, m)
  }

  /** From line `s` on: every wanted package has a version, none comes twice, and none is one of `found`. */
  ghost predicate GoodFrom(ks: seq<Kind>, s: nat, found: set<string>) {
    && (forall t, name :: s <= t && IsWantedAt(ks, t, name) ==> HasFirstVersion(ks, t) && name !in found)
    && (forall t, u, name :: s <= t && s <= u && IsWantedAt(ks, t, name) && IsWantedAt(ks, u, name) ==> t == u)
  }

  ghost predicate IsLockVersion(ks: seq<Kind>, s: nat, m: nat) {
    exists t, name :: s <= t && IsWantedAt(ks, t, name) && FirstVersion(ks, t, m)
  }

  ghost predicate IsWantedFrom(ks: seq<Kind>, s: nat, name: string) {
    exists t :: s <= t && IsWantedAt(ks, t, name)
  }

  /** The result of the walk from `s`, where a chunk begins or the text ends. */
  ghost predicate TargetsRight(ks: seq<Kind>, s: nat, found: set<string>, at: set<nat>, r: Option<(set<nat>, set<string>)>) {
    && (r.Some? <==> GoodFrom(ks, s, found))
    && (r.Some? ==>
          && (forall m :: m in r.value.0 <==> m in at || IsLockVersion(ks, s, m))
          && (forall name :: name in r.value.1 <==> name in found || IsWantedFrom(ks, s, name)))
  }

  /** Between two chunks there is no package header. */
  lemma ChunkIs(ks: seq<Kind>, s: nat, name: string, m: nat)
    requires s < |ks| && ks[s] == LockHeader
    ensures var e, n := First(ks, s + 1, IsLockHeader), First(ks, s, IsName);
      && (IsNamed(ks, s, name) <==> n < e && ks[n].name == name)
      && (FirstVersion(ks, s, m) <==> m < e && m == First(ks, s, IsVersion))
  {
    var e, n := First(ks, s + 1, IsLockHeader), First(ks, s, IsName);
    if n < e && ks[n].name == name {
      assert FirstName(ks, s, n, name);
    }
    if k :| FirstName(ks, s, k, name) {
      FirstIs(ks, s, IsName, k);
    }
    if FirstVersion(ks, s, m) {
      FirstIs(ks, s, IsVersion, m);
    }
  }

  lemma NoChunkBetween(ks: seq<Kind>, s: nat, t: nat, name: string)
    requires s < |ks| && s <= t && IsWantedAt(ks, t, name)
    ensures t == s || t >= First(ks, s + 1, IsLockHeader)
  {
  }

  lemma OtherChunkPassed(ks: seq<Kind>, s: nat, found: set<string>, at: set<nat>, r: Option<(set<nat>, set<string>)>)
    requires s < |ks| && ks[s] == LockHeader && forall name :: !IsWantedAt(ks, s, name)
    requires TargetsRight(ks, First(ks, s + 1, IsLockHeader), found, at, r)
    ensures TargetsRight(ks, s, found, at, r)
  {
    var e := First(ks, s + 1, IsLockHeader);
    forall t: nat, name | s <= t && IsWantedAt(ks, t, name) ensures e <= t {
      NoChunkBetween(ks, s, t, name);
    }
    forall m: nat ensures IsLockVersion(ks, s, m) <==> IsLockVersion(ks, e, m) {
    }
  }

  lemma WantedChunkCounts(ks: seq<Kind>, s: nat, nm: string, found: set<string>)
    requires s < |ks| && ks[s] == LockHeader && (forall name :: IsWantedAt(ks, s, name) <==> name == nm)
    ensures GoodFrom(ks, s, found) <==>
      HasFirstVersion(ks, s) && nm !in found && GoodFrom(ks, First(ks, s + 1, IsLockHeader), found + {nm})
  {
    var e := First(ks, s + 1, IsLockHeader);
    forall t: nat, name | s <= t && IsWantedAt(ks, t, name) ensures t == s || e <= t {
      NoChunkBetween(ks, s, t, name);
    }
    if GoodFrom(ks, s, found) {
      assert IsWantedAt(ks, s, nm);
      assert GoodFrom(ks, e, found + {nm});
    }
    if HasFirstVersion(ks, s) && nm !in found && GoodFrom(ks, e, found + {nm}) {
      forall t: nat, u: nat, name | s <= t && s <= u && IsWantedAt(ks, t, name) && IsWantedAt(ks, u, name) ensures t == u {
        assert t == s || name in found + {nm} ==> t == s || name != nm;
      }
    }
  }

  lemma WantedChunkPassed(ks: seq<Kind>, s: nat, nm: string, v: nat, found: set<string>, at: set<nat>, r: Option<(set<nat>, set<string>)>)
    requires s < |ks| && ks[s] == LockHeader && (forall name :: IsWantedAt(ks, s, name) <==> name == nm)
    requires nm !in found && (forall m :: FirstVersion(ks, s, m) <==> m == v)
    requires TargetsRight(ks, First(ks, s + 1, IsLockHeader), found + {nm}, at + {v}, r)
    ensures TargetsRight(ks, s, found, at, r)
  {
    var e := First(ks, s + 1, IsLockHeader);
    assert FirstVersion(ks, s, v);
    WantedChunkCounts(ks, s, nm, found);
    forall m: nat ensures IsLockVersion(ks, s, m) <==> m == v || IsLockVersion(ks, e, m) {
      ChunkOrLater(ks, s, nm, v, m);
    }
    forall name ensures IsWantedFrom(ks, s, name) <==> name == nm || IsWantedFrom(ks, e, name) {
      if t: nat :| s <= t && IsWantedAt(ks, t, name) {
        NoChunkBetween(ks, s, t, name);
      }
      assert IsWantedAt(ks, s, nm);
    }
  }

  lemma ChunkOrLater(ks: seq<Kind>, s: nat, nm: string, v: nat, m: nat)
    requires s < |ks| && ks[s] == LockHeader && (forall name :: IsWantedAt(ks, s, name) <==> name == nm)
    requires forall m :: FirstVersion(ks, s, m) <==> m == v
    ensures IsLockVersion(ks, s, m) <==> m == v || IsLockVersion(ks, First(ks, s + 1, IsLockHeader), m)
  {
    if IsLockVersion(ks, s, m) {
      var t: nat, name :| s <= t && IsWantedAt(ks, t, name) && FirstVersion(ks, t, m);
      NoChunkBetween(ks, s, t, name);
    }
    if m == v {
      assert IsWantedAt(ks, s, nm) && FirstVersion(ks, s, m);
    }
  }

  lemma {:induction false} TargetsAre(ks: seq<Kind>, s: nat, found: set<string>, at: set<nat>)
    requires s <= |ks| && (s < |ks| ==> ks[s] == LockHeader) && (forall k :: k in at ==> k < |ks| && ks[k] == VersionLine)
    ensures TargetsRight(ks, s, found, at, LockTargets(ks, s, found, at))
    decreases |ks| - s
  {
    if s < |ks| {
      var e, n, v := First(ks, s + 1, IsLockHeader), First(ks, s, IsName), First(ks, s, IsVersion);
      forall name ensures IsNamed(ks, s, name) <==> n < e && ks[n].name == name {
        ChunkIs(ks, s, name, 0);
      }
      forall m: nat ensures FirstVersion(ks, s, m) <==> v < e && m == v {
        ChunkIs(ks, s, "", m);
      }
      if n >= e || ks[n].name !in LOCK_NAMES {
        TargetsAre(ks, e, found, at);
        OtherChunkPassed(ks, s, found, at, LockTargets(ks, e, found, at));
      } else {
        WantedTargetsAre(ks, s, ks[n].name, v, e, found, at);
      }
    }
  }

  lemma {:induction false} WantedTargetsAre(ks: seq<Kind>, s: nat, nm: string, v: nat, e: nat, found: set<string>, at: set<nat>)
    requires s < |ks| && ks[s] == LockHeader && (forall k :: k in at ==> k < |ks| && ks[k] == VersionLine)
    requires e == First(ks, s + 1, IsLockHeader) && v == First(ks, s, IsVersion) && First(ks, s, IsName) < e && ks[First(ks, s, IsName)].name == nm
    requires nm in LOCK_NAMES && (forall name :: IsNamed(ks, s, name) <==> name == nm)
    requires forall m :: FirstVersion(ks, s, m) <==> v < e && m == v
    ensures TargetsRight(ks, s, found, at, LockTargets(ks, s, found, at))
    decreases |ks| - s, 0
  {
    assert forall name :: IsWantedAt(ks, s, name) <==> name == nm;
    WantedChunkCounts(ks, s, nm, found);
    if nm !in found && v < e {
      TargetsAre(ks, e, found + {nm}, at + {v});
      WantedChunkPassed(ks, s, nm, v, found, at, LockTargets(ks, e, found + {nm}, at + {v}));
    }
  }

  /** What is wanted is found from the first package header on. */
  lemma WantedIsFound(ks: seq<Kind>, name: string)
    ensures IsWantedFrom(ks, First(ks, 0, IsLockHeader), name) <==> exists s: nat :: IsWantedAt(ks, s, name)
    ensures forall s: nat :: IsWantedAt(ks, s, name) ==> First(ks, 0, IsLockHeader) <= s
  {
  }

  /** A Cargo.lock can be set exactly when each wanted package is there once and has a version line. */
  lemma LockSetsIff(ks: seq<Kind>)
    ensures LockVersionsAt(ks).Some? <==>
      && (forall name :: Wanted(name) ==> exists s: nat :: IsWantedAt(ks, s, name))
      && (forall s: nat, name :: IsWantedAt(ks, s, name) ==> HasFirstVersion(ks, s))
      && (forall s: nat, t: nat, name :: IsWantedAt(ks, s, name) && IsWantedAt(ks, t, name) ==> s == t)
  {
    var s := First(ks, 0, IsLockHeader);
    TargetsAre(ks, s, {}, {});
    forall name ensures IsWantedFrom(ks, s, name) <==> exists t: nat :: IsWantedAt(ks, t, name) {
      WantedIsFound(ks, name);
    }
    forall t: nat, name | IsWantedAt(ks, t, name) ensures s <= t {
      WantedIsFound(ks, name);
    }
    NamesAreWanted();
    var r := LockTargets(ks, s, {}, {});
    if r.Some? {
      AllFoundIff(ks, s, r.value.1);
    }
  }

  lemma AllFoundIff(ks: seq<Kind>, s: nat, found: set<string>)
    requires forall name :: name in found <==> IsWantedFrom(ks, s, name)
    ensures LOCK_NAMES <= found <==> forall name :: Wanted(name) ==> IsWantedFrom(ks, s, name)
  {
    NamesAreWanted();
  }

  lemma NamesAreWanted()
    ensures forall name :: Wanted(name) <==> name in LOCK_NAMES
  {
  }

  /** The lines set are then those: in each wanted package its first version line. */
  lemma LockLinesAre(ks: seq<Kind>, m: nat)
    requires LockVersionsAt(ks).Some?
    ensures m in LockVersionsAt(ks).value <==> exists s: nat, name :: IsWantedAt(ks, s, name) && FirstVersion(ks, s, m)
  {
    var s := First(ks, 0, IsLockHeader);
    TargetsAre(ks, s, {}, {});
    if t: nat, name :| IsWantedAt(ks, t, name) && FirstVersion(ks, t, m) {
      WantedIsFound(ks, name);
    }
  }

  lemma KindsAreVersionLines(text: Text, at: set<nat>)
    requires forall k :: k in at ==> k < |text| && Kinds(text)[k] == VersionLine
    ensures forall k :: k in at ==> IsVersionLine(text[k])
  {
    forall k | k in at ensures IsVersionLine(text[k]) {
      KindOfVersionLine(text[k]);
    }
  }

  function SetCargoLock(text: Text, v: string): Option<Text> {
    var at := LockVersionsAt(Kinds(text));
    if at.None? then None else
      KindsAreVersionLines(text, at.value);
      Some(Rewrite(text, at.value, v))
  }

  /** Version lines before line `s`. */
  ghost predicate AreBefore(text: Text, ks: seq<Kind>, at: set<nat>, s: nat)
    requires s <= |text| == |ks|
  {
    forall k :: k in at ==> k < s && ks[k] == VersionLine && IsVersionLine(text[k])
  }

  /** A line of version kind is a version line. */
  predicate AreKinds(text: Text, ks: seq<Kind>) {
    |ks| == |text| && forall k :: 0 <= k < |text| && ks[k] == VersionLine ==> IsVersionLine(text[k])
  }

  function SetTargets(text: Text, ks: seq<Kind>, v: string): Option<Text>
    requires AreKinds(text, ks)
  {
    var at := LockVersionsAt(ks);
    if at.None? then None else Some(Rewrite(text, at.value, v))
  }

  /** The writer's loop: the text is cut into one chunk per package, each chunk is changed or kept,
      and the chunks are put back together. */
  method WriteChunks(text: Text, ks: seq<Kind>, v: string) returns (r: Option<Text>)
    requires AreKinds(text, ks)
    ensures r == SetTargets(text, ks, v)
  {
    var s := First(ks, 0, IsLockHeader);
    var out := text[..s];
    var found: set<string> := {};
    ghost var at: set<nat> := {};
    ghost var total := LockTargets(ks, s, {}, {});
    while s < |text|
      invariant Written(text, ks, at, s, v, out)
      invariant total == LockTargets(ks, s, found, at)
    {
      var e := First(ks, s + 1, IsLockHeader);
      var chunk := text[s..e];
      var n := First(ks, s, IsName);
      if n >= e || ks[n].name !in LOCK_NAMES {
        ChunkIsKept(text, ks, at, s, e, v, out);
        assert total == LockTargets(ks, e, found, at);
      } else {
        var m := First(ks, s, IsVersion);
        if ks[n].name in found || m >= e {
          assert total.None?;
          return None;
        }
        ChunkIsRewritten(text, ks, at, s, e, m, v, out);
        assert total == LockTargets(ks, e, found + {ks[n].name}, at + {m});
        chunk := chunk[m - s := SetLine(text[m], v)];
        found := found + {ks[n].name};
        at := at + {m};
      }
      out := out + chunk;
      s := e;
    }
    WrittenToTheEnd(text, ks, at, v, out);
    return if LOCK_NAMES <= found then Some(out) else None;
  }

  lemma WrittenToTheEnd(text: Text, ks: seq<Kind>, at: set<nat>, v: string, out: Text)
    requires Written(text, ks, at, |text|, v, out)
    ensures (forall k :: k in at ==> k < |text| && IsVersionLine(text[k])) && out == Rewrite(text, at, v)
  {
  }

  /** The text before line `s`, with the version lines `at` set. */
  ghost predicate Written(text: Text, ks: seq<Kind>, at: set<nat>, s: nat, v: string, out: Text) {
    s <= |text| == |ks| && AreBefore(text, ks, at, s) && out == Rewrite(text, at, v)[..s]
  }

  method WriteCargoLock(text: Text, v: string) returns (r: Option<Text>)
    ensures r == SetCargoLock(text, v)
  {
    forall k | 0 <= k < |text| && Kinds(text)[k] == VersionLine ensures IsVersionLine(text[k]) {
      KindOfVersionLine(text[k]);
    }
    r := WriteChunks(text, Kinds(text), v);
  }

  lemma ChunkIsKept(text: Text, ks: seq<Kind>, at: set<nat>, s: nat, e: nat, v: string, out: Text)
    requires s <= e <= |text| && Written(text, ks, at, s, v, out)
    ensures Written(text, ks, at, e, v, out + text[s..e])
  {
  }

  lemma ChunkIsRewritten(text: Text, ks: seq<Kind>, at: set<nat>, s: nat, e: nat, m: nat, v: string, out: Text)
    requires s <= m < e <= |text| && AreKinds(text, ks) && ks[m] == VersionLine
    requires Written(text, ks, at, s, v, out)
    ensures IsVersionLine(text[m]) && Written(text, ks, at + {m}, e, v, out + text[s..e][m - s := SetLine(text[m], v)])
  {
  }

  /** The lens laws of the Cargo.lock: the packages' version lines are where they were and say what
      was set; the last setting wins; setting what is there changes nothing; every other line is kept. */
  lemma LockLens(text: Text, v: string, w: string)
    requires Settable(v) && Settable(w) && SetCargoLock(text, v).Some?
    ensures var t, at := SetCargoLock(text, v).value, LockVersionsAt(Kinds(text)).value;
      && SetCargoLock(t, w) == SetCargoLock(text, w)
      && LockVersionsAt(Kinds(t)) == Some(at)
      && (forall k :: k in at ==> k < |text| && IsVersionLine(text[k]) && IsVersionLine(t[k]) && VersionIn(t[k]) == v)
      && ((forall k :: k in at ==> VersionIn(text[k]) == v) ==> t == text)
      && |t| == |text| && (forall k :: 0 <= k < |text| && k !in at ==> t[k] == text[k])
  {
    var at := LockVersionsAt(Kinds(text)).value;
    KindsAreVersionLines(text, at);
    RewriteKeepsKinds(text, at, v);
    RewriteLaws(text, at, v, w);
  }

  /** The package the reader is in, and those it has left: a name, and the line of its version. */
  datatype Package = Package(name: Option<string>, at: Option<nat>)
  datatype Scan = Scan(done: seq<Package>, current: Option<Package>)

  function ScanTo(seen: seq<Seen>, n: nat): (r: Scan)
    requires n <= |seen|
  {
    if n == 0 then Scan([], None) else
    var s := ScanTo(seen, n - 1);
    match seen[n - 1]
    case SeenLockPackage => Scan(if s.current.Some? then s.done + [s.current.value] else s.done, Some(Package(None, None)))
    case SeenName(name) => if s.current.Some? then s.(current := Some(s.current.value.(name := Some(name)))) else s
    case SeenVersion(_) => if s.current.Some? then s.(current := Some(s.current.value.(at := Some(n - 1)))) else s
    case _ => s
  }

  function PackagesIn(seen: seq<Seen>): seq<Package> {
    var s := ScanTo(seen, |seen|);
    if s.current.Some? then s.done + [s.current.value] else s.done
  }

  /** The places of the package headers before line `n`. */
  function Headers(seen: seq<Seen>, n: nat): seq<nat>
    requires n <= |seen|
  {
    if n == 0 then [] else Headers(seen, n - 1) + if seen[n - 1] == SeenLockPackage then [n - 1] else []
  }

  /** The last name between `h` and `e`, and the last version line. */
  predicate IsLastName(seen: seq<Seen>, h: nat, e: nat, name: Option<string>)
    requires e <= |seen|
  {
    if name.None? then forall k :: h < k < e ==> !seen[k].SeenName?
    else exists k :: h < k < e && seen[k] == SeenName(name.value) && forall j :: k < j < e ==> !seen[j].SeenName?
  }

  predicate IsLastVersion(seen: seq<Seen>, h: nat, e: nat, at: Option<nat>)
    requires e <= |seen|
  {
    if at.None? then forall k :: h < k < e ==> !seen[k].SeenVersion?
    else h < at.value < e && seen[at.value].SeenVersion? && forall j :: at.value < j < e ==> !seen[j].SeenVersion?
  }

  /** The package whose header is line `h` and which goes on to line `e`. */
  predicate IsPackage(seen: seq<Seen>, h: nat, e: nat, p: Package) {
    && h < e <= |seen| && seen[h] == SeenLockPackage && (forall j :: h < j < e ==> seen[j] != SeenLockPackage)
    && IsLastName(seen, h, e, p.name) && IsLastVersion(seen, h, e, p.at)
  }

  predicate ScanRight(seen: seq<Seen>, n: nat, s: Scan)
    requires n <= |seen|
  {
    var hs := Headers(seen, n);
    && (s.current.Some? <==> hs != [])
    && |s.done| == (if hs == [] then 0 else |hs| - 1)
    && (forall i :: 0 <= i < |s.done| ==> IsPackage(seen, hs[i], hs[i + 1], s.done[i]))
    && (hs != [] ==> IsPackage(seen, hs[|hs| - 1], n, s.current.value))
  }

  lemma PackageGoesOn(seen: seq<Seen>, h: nat, n: nat, p: Package)
    requires n < |seen| && IsPackage(seen, h, n, p) && seen[n] != SeenLockPackage
    ensures IsPackage(seen, h, n + 1,
                      if seen[n].SeenName? then p.(name := Some(seen[n].n)) else if seen[n].SeenVersion? then p.(at := Some(n)) else p)
  {
    if p.name.Some? && !seen[n].SeenName? {
      var k :| h < k < n && seen[k] == SeenName(p.name.value) && forall j :: k < j < n ==> !seen[j].SeenName?;
      assert h < k < n + 1 && forall j :: k < j < n + 1 ==> !seen[j].SeenName?;
    }
  }

  lemma {:induction false} ScanIs(seen: seq<Seen>, n: nat)
    requires n <= |seen|
    ensures ScanRight(seen, n, ScanTo(seen, n))
  {
    if n > 0 {
      ScanIs(seen, n - 1);
      var hs, s := Headers(seen, n - 1), ScanTo(seen, n - 1);
      if seen[n - 1] != SeenLockPackage && hs != [] {
        PackageGoesOn(seen, hs[|hs| - 1], n - 1, s.current.value);
      }
    }
  }

  /** The packages read are one for each package header, in order, each with the last name and the last
      version before the next header. */
  lemma PackagesAre(seen: seq<Seen>)
    ensures var ps, hs := PackagesIn(seen), Headers(seen, |seen|);
      && |ps| == |hs|
      && forall i :: 0 <= i < |hs| ==> IsPackage(seen, hs[i], if i + 1 < |hs| then hs[i + 1] else |seen|, ps[i])
  {
    ScanIs(seen, |seen|);
  }

  predicate IsOf(p: Package, name: string) {
    p.name == Some(name) && Wanted(name)
  }

  /** Every package of a wanted name needs a version. */
  lemma {:induction false} VersionLinesIff(ps: seq<Package>)
    ensures VersionLines(ps).Some? <==> forall i, name :: 0 <= i < |ps| && IsOf(ps[i], name) ==> ps[i].at.Some?
  {
    if ps != [] {
      var n := |ps| - 1;
      VersionLinesIff(ps[..n]);
      assert forall i :: 0 <= i < n ==> ps[..n][i] == ps[i];
      assert ps[n].name.Some? ==> (IsOf(ps[n], ps[n].name.value) <==> ps[n].name.value in LOCK_NAMES);
    }
  }

  /** The last package of a name counts. */
  lemma {:induction false} VersionLinesAre(ps: seq<Package>, name: string)
    requires VersionLines(ps).Some?
    ensures name in VersionLines(ps).value <==> exists i :: 0 <= i < |ps| && IsOf(ps[i], name)
    ensures forall i :: 0 <= i < |ps| && IsOf(ps[i], name) && (forall j :: i < j < |ps| ==> !IsOf(ps[j], name)) ==>
      name in VersionLines(ps).value && ps[i].at == Some(VersionLines(ps).value[name])
  {
    if ps != [] {
      var n := |ps| - 1;
      VersionLinesAre(ps[..n], name);
      assert forall i :: 0 <= i < n ==> ps[..n][i] == ps[i];
      assert ps[n].name.Some? ==> (IsOf(ps[n], ps[n].name.value) <==> ps[n].name.value in LOCK_NAMES);
      if IsOf(ps[n], name) {
        assert ps[n].at == Some(VersionLines(ps).value[name]);
      }
    }
  }

  /** For each wanted name the version line of its last package; None when a wanted package has no version. */
  function VersionLines(ps: seq<Package>): Option<map<string, nat>> {
    if ps == [] then Some(map[]) else
    var before := VersionLines(ps[..|ps| - 1]);
    var p := ps[|ps| - 1];
    if before.None? || p.name.None? || p.name.value !in LOCK_NAMES then before
    else if p.at.None? then None
    else Some(before.value[p.name.value := p.at.value])
  }

  function LockReadsAt(seen: seq<Seen>): Option<map<string, nat>> {
    var r := VersionLines(PackagesIn(seen));
    if r.None? || !(LOCK_NAMES <= r.value.Keys) then None else r
  }

  predicate VersionAt(seen: seq<Seen>, p: Package) {
    p.at.Some? ==> p.at.value < |seen| && seen[p.at.value].SeenVersion?
  }

  lemma {:induction false} ScannedLinesAreVersions(seen: seq<Seen>, n: nat)
    requires n <= |seen|
    ensures var s := ScanTo(seen, n);
      && (forall i :: 0 <= i < |s.done| ==> VersionAt(seen, s.done[i]))
      && (s.current.Some? ==> VersionAt(seen, s.current.value))
  {
    if n > 0 {
      ScannedLinesAreVersions(seen, n - 1);
    }
  }

  lemma {:induction false} VersionLinesAreVersions(seen: seq<Seen>, ps: seq<Package>)
    requires forall i :: 0 <= i < |ps| ==> VersionAt(seen, ps[i])
    ensures VersionLines(ps).Some? ==>
      forall n :: n in VersionLines(ps).value ==>
        VersionLines(ps).value[n] < |seen| && seen[VersionLines(ps).value[n]].SeenVersion?
  {
    if ps != [] {
      VersionLinesAreVersions(seen, ps[..|ps| - 1]);
      assert VersionAt(seen, ps[|ps| - 1]);
    }
  }

  lemma LockReadsVersions(seen: seq<Seen>)
    ensures LockReadsAt(seen).Some? ==>
      forall n :: n in LockReadsAt(seen).value ==>
        LockReadsAt(seen).value[n] < |seen| && seen[LockReadsAt(seen).value[n]].SeenVersion?
  {
    ScannedLinesAreVersions(seen, |seen|);
    VersionLinesAreVersions(seen, PackagesIn(seen));
  }

  function VersionsSeen(seen: seq<Seen>): Option<map<string, string>> {
    var at := LockReadsAt(seen);
    if at.None? then None else
      LockReadsVersions(seen);
      Some(map n | n in at.value :: seen[at.value[n]].v)
  }

  function LockVersions(text: Text): Option<map<string, string>> {
    VersionsSeen(SeenAll(text))
  }

  lemma {:induction false} SameScan(a: seq<Seen>, b: seq<Seen>, n: nat)
    requires SameButVersions(a, b) && n <= |a|
    ensures ScanTo(a, n) == ScanTo(b, n)
  {
    if n > 0 {
      SameScan(a, b, n - 1);
    }
  }

  /** Each line the reader answers from is one the writer changes, or says `v` already. */
  predicate ReadsWhatIsSet(seen: seq<Seen>, written: set<nat>, v: string) {
    var at := LockReadsAt(seen);
    at.Some? && forall n :: n in at.value ==>
      at.value[n] in written || (at.value[n] < |seen| && seen[at.value[n]] == SeenVersion(v))
  }

  predicate AllSay(versions: Option<map<string, string>>, v: string) {
    versions.Some? && forall n :: n in versions.value ==> versions.value[n] == v
  }

  /** After a setting, the lock reads as the version set, for every package, exactly when for each of
      them the reader's line is one the writer changes or said so already. */
  lemma LockReadsBackIff(text: Text, v: string)
    requires Settable(v) && SetCargoLock(text, v).Some?
    ensures AllSay(LockVersions(SetCargoLock(text, v).value), v) <==>
      ReadsWhatIsSet(SeenAll(text), LockVersionsAt(Kinds(text)).value, v)
  {
    var at := LockVersionsAt(Kinds(text)).value;
    KindsAreVersionLines(text, at);
    RewriteIsSameButVersions(text, at, v);
    SeenReadsBackIff(SeenAll(text), SeenAll(Rewrite(text, at, v)), at, v);
  }

  lemma SeenReadsBackIff(a: seq<Seen>, b: seq<Seen>, at: set<nat>, v: string)
    requires SameButVersions(a, b)
    requires forall k :: 0 <= k < |a| ==> b[k] == if k in at then SeenVersion(v) else a[k]
    ensures AllSay(VersionsSeen(b), v) <==> ReadsWhatIsSet(a, at, v)
  {
    SameScan(a, b, |a|);
    LockReadsVersions(a);
    if LockReadsAt(a).Some? {
      var lines := LockReadsAt(a).value;
      assert VersionsSeen(b).value.Keys == lines.Keys;
      forall n | n in lines
        ensures VersionsSeen(b).value[n] == v <==> lines[n] in at || a[lines[n]] == SeenVersion(v)
      {
        assert b[lines[n]] == SeenVersion(VersionsSeen(b).value[n]);
      }
    }
  }

  /** The lock reader's loop: the package it is in, and the packages it has left. */
  method ReadPackages(seen: seq<Seen>) returns (packages: seq<Package>)
    ensures packages == PackagesIn(seen)
  {
    packages := [];
    var current: Option<Package> := None;
    for i := 0 to |seen|
      invariant ScanTo(seen, i) == Scan(packages, current)
    {
      if seen[i].SeenLockPackage? {
        if current.Some? {
          packages := packages + [current.value];
        }
        current := Some(Package(None, None));
      } else if current.Some? {
        if seen[i].SeenName? {
          current := Some(current.value.(name := Some(seen[i].n)));
        } else if seen[i].SeenVersion? {
          current := Some(current.value.(at := Some(i)));
        }
      }
    }
    if current.Some? {
      packages := packages + [current.value];
    }
  }

  // ----------------------------------------------------------- the JSON files

  /** A JSON value; an object keeps the order of its fields. */
  datatype Json = Str(s: string) | Obj(fields: seq<Field>) | Other(text: string)
  datatype Field = Field(key: string, value: Json)

  /** No key occurs twice in an object. */
  predicate WellFormed(j: Json) {
    j.Obj? ==>
      && (forall a, b :: 0 <= a < b < |j.fields| ==> j.fields[a].key != j.fields[b].key)
      && (forall i :: 0 <= i < |j.fields| ==> WellFormed(j.fields[i].value))
  }

  /** The place of a key. */
  function At(fields: seq<Field>, key: string): (r: Option<nat>)
    ensures r.Some? ==> r.value < |fields| && fields[r.value].key == key
    ensures r.None? ==> forall i :: 0 <= i < |fields| ==> fields[i].key != key
  {
    if fields == [] then None
    else if fields[0].key == key then Some(0)
    else
      var r := At(fields[1..], key);
      if r.None? then None else Some(r.value + 1)
  }

  function Get(j: Json, key: string): Option<Json> {
    if j.Obj? && At(j.fields, key).Some? then Some(j.fields[At(j.fields, key).value].value) else None
  }

  function Put(j: Json, key: string, value: Json): Json
    requires Get(j, key).Some?
  {
    Obj(j.fields[At(j.fields, key).value := Field(key, value)])
  }

  lemma {:induction false} SameKeys(a: seq<Field>, b: seq<Field>, key: string)
    requires |a| == |b| && forall i :: 0 <= i < |a| ==> a[i].key == b[i].key
    ensures At(a, key) == At(b, key)
  {
    if a != [] {
      SameKeys(a[1..], b[1..], key);
    }
  }

  /** Putting a value changes that field and nothing else, in place. */
  lemma PutLaws(j: Json, key: string, v: Json, w: Json, other: string)
    requires Get(j, key).Some?
    ensures Get(Put(j, key, v), key) == Some(v)
    ensures other != key ==> Get(Put(j, key, v), other) == Get(j, other)
    ensures Put(Put(j, key, v), key, w) == Put(j, key, w)
    ensures Get(j, key) == Some(v) ==> Put(j, key, v) == j
    ensures WellFormed(j) && WellFormed(v) ==> WellFormed(Put(j, key, v))
  {
    SameKeys(j.fields, Put(j, key, v).fields, key);
    SameKeys(j.fields, Put(j, key, v).fields, other);
  }

  lemma UpdatesCommute<T>(s: seq<T>, i: nat, x: T, k: nat, y: T)
    requires i < |s| && k < |s| && i != k
    ensures s[i := x][k := y] == s[k := y][i := x]
  {
  }

  /** Two fields can be put in either order. */
  lemma PutsCommute(j: Json, key: string, v: Json, other: string, w: Json)
    requires Get(j, key).Some? && Get(j, other).Some? && key != other
    ensures Get(Put(j, key, v), other).Some? && Get(Put(j, other, w), key).Some?
    ensures Put(Put(j, key, v), other, w) == Put(Put(j, other, w), key, v)
  {
    var i, k := At(j.fields, key).value, At(j.fields, other).value;
    SameKeys(j.fields, j.fields[i := Field(key, v)], other);
    SameKeys(j.fields, j.fields[k := Field(other, w)], key);
    UpdatesCommute(j.fields, i, Field(key, v), k, Field(other, w));
  }

  predicate HasVersion(j: Json) {
    Get(j, VERSION).Some? && Get(j, VERSION).value.Str?
  }

  function SetJson(j: Json, v: string): Option<Json> {
    if HasVersion(j) then Some(Put(j, VERSION, Str(v))) else None
  }

  const PACKAGES := "packages"

  /** The root package of a lock. */
  function Root(j: Json): Option<Json> {
    var packages := Get(j, PACKAGES);
    if packages.None? then None else Get(packages.value, "")
  }

  function PutRoot(j: Json, root: Json): Json
    requires Root(j).Some?
  {
    Put(j, PACKAGES, Put(Get(j, PACKAGES).value, "", root))
  }

  function SetPackageLock(j: Json, v: string): Option<Json> {
    if Root(j).None? || !HasVersion(j) || !HasVersion(Root(j).value) then None
    else
      PutLaws(j, VERSION, Str(v), Str(v), PACKAGES);
      Some(PutRoot(Put(j, VERSION, Str(v)), Put(Root(j).value, VERSION, Str(v))))
  }

  predicate JsonSays(j: Json, v: string) {
    Get(j, VERSION) == Some(Str(v))
  }

  /** Every version `collect_versions` would return from a package lock; the root package's is optional. */
  predicate PackageLockSays(j: Json, v: string) {
    JsonSays(j, v) && (Root(j).Some? && Get(Root(j).value, VERSION).Some? ==> JsonSays(Root(j).value, v))
  }

  lemma JsonLens(j: Json, v: string, w: string)
    requires SetJson(j, v).Some?
    ensures SetJson(SetJson(j, v).value, w) == SetJson(j, w)
    ensures JsonSays(SetJson(j, v).value, v)
    ensures JsonSays(j, v) ==> SetJson(j, v).value == j
    ensures WellFormed(j) ==> WellFormed(SetJson(j, v).value)
  {
    PutLaws(j, VERSION, Str(v), Str(w), "");
  }

  lemma RootLaws(j: Json, r: Json, s: Json, v: Json)
    requires Root(j).Some? && Get(j, VERSION).Some?
    ensures Root(PutRoot(j, r)) == Some(r) && PutRoot(PutRoot(j, r), s) == PutRoot(j, s)
    ensures PutRoot(j, Root(j).value) == j
    ensures Get(PutRoot(j, r), VERSION) == Get(j, VERSION)
    ensures Root(Put(j, VERSION, v)) == Root(j)
    ensures Put(PutRoot(j, r), VERSION, v) == PutRoot(Put(j, VERSION, v), r)
    ensures WellFormed(j) && WellFormed(r) ==> WellFormed(PutRoot(j, r))
  {
    var packages := Get(j, PACKAGES).value;
    var p, q := Put(packages, "", r), Put(packages, "", s);
    PutLaws(packages, "", r, s, VERSION);
    PutLaws(packages, "", Root(j).value, s, VERSION);
    PutLaws(j, PACKAGES, p, q, VERSION);
    PutLaws(j, PACKAGES, packages, q, VERSION);
    PutLaws(j, VERSION, v, v, PACKAGES);
    PutsCommute(j, PACKAGES, p, VERSION, v);
  }

  /** A later setting of both versions covers an earlier one. */
  lemma RootSetTwice(j: Json, r: Json, s: Json, v: string, w: string)
    requires Root(j).Some? && HasVersion(j)
    ensures var t := Put(j, VERSION, Str(v));
      Root(t) == Root(j) && Root(Put(j, VERSION, Str(w))) == Root(j)
      && HasVersion(PutRoot(t, r)) && Root(PutRoot(t, r)) == Some(r)
      && Root(Put(PutRoot(t, r), VERSION, Str(w))) == Some(r)
      && PutRoot(Put(PutRoot(t, r), VERSION, Str(w)), s) == PutRoot(Put(j, VERSION, Str(w)), s)
  {
    PutLaws(j, VERSION, Str(v), Str(w), PACKAGES);
    PutLaws(j, VERSION, Str(w), Str(w), PACKAGES);
    RootLaws(j, r, s, Str(v));
    RootLaws(j, r, s, Str(w));
    var t := Put(j, VERSION, Str(v));
    RootLaws(t, r, s, Str(w));
    RootLaws(PutRoot(t, r), r, s, Str(w));
    RootLaws(Put(t, VERSION, Str(w)), r, s, Str(w));
  }

  lemma PackageLockLens(j: Json, v: string, w: string)
    requires SetPackageLock(j, v).Some?
    ensures SetPackageLock(SetPackageLock(j, v).value, w) == SetPackageLock(j, w)
    ensures PackageLockSays(SetPackageLock(j, v).value, v)
    ensures PackageLockSays(j, v) ==> SetPackageLock(j, v).value == j
    ensures WellFormed(j) ==> WellFormed(SetPackageLock(j, v).value)
  {
    var root := Root(j).value;
    var t := Put(j, VERSION, Str(v));
    var r, s := Put(root, VERSION, Str(v)), Put(root, VERSION, Str(w));
    JsonLens(root, v, w);
    JsonLens(j, v, w);
    RootSetTwice(j, r, s, v, w);
    RootLaws(t, r, s, Str(w));
    RootLaws(j, r, s, Str(v));
    if WellFormed(j) {
      WellFormedParts(j);
    }
  }

  lemma WellFormedParts(j: Json)
    requires Root(j).Some? && WellFormed(j)
    ensures WellFormed(Root(j).value)
  {
  }

  // ---------------------------------------------------------- the whole release

  /** The formats' libraries: JSON as text, and what a reader finds in a Cargo.toml and a Cargo.lock. */
  datatype Formats = Formats(
    decode: Text -> Option<Json>, encode: Json -> Text,
    package: Text -> Option<string>, lock: Text -> Option<map<string, string>>)

  /** JSON that was written is read back. */
  ghost predicate Lawful(c: Formats) {
    && (forall t :: c.decode(t).Some? ==> WellFormed(c.decode(t).value))
    && (forall j :: WellFormed(j) ==> c.decode(c.encode(j)) == Some(j))
  }

  /** Reading Cargo files line by line, where no TOML library is there. */
  function Fallback(decode: Text -> Option<Json>, encode: Json -> Text): Formats {
    Formats(decode, encode, PackageVersion, LockVersions)
  }

  function WriteJson(c: Formats, t: Text, v: string): Option<Text> {
    var j := c.decode(t);
    if j.None? || SetJson(j.value, v).None? then None else Some(c.encode(SetJson(j.value, v).value))
  }

  function WritePackageLock(c: Formats, t: Text, v: string): Option<Text> {
    var j := c.decode(t);
    if j.None? || SetPackageLock(j.value, v).None? then None else Some(c.encode(SetPackageLock(j.value, v).value))
  }

  /** The files that carry versions. */
  datatype Repo = Repo(packageJson: Text, tauriConf: Text, packageLock: Text, shellCargo: Text, serverCargo: Text, cargoLock: Text)

  function SetAll(c: Formats, r: Repo, v: string): Option<Repo> {
    var p, q, l := WriteJson(c, r.packageJson, v), WriteJson(c, r.tauriConf, v), WritePackageLock(c, r.packageLock, v);
    var d, e := ReplacePackageVersion(r.shellCargo, v), ReplacePackageVersion(r.serverCargo, v);
    var f := SetCargoLock(r.cargoLock, v);
    if p.None? || q.None? || l.None? || d.None? || e.None? || f.None? then None
    else Some(Repo(p.value, q.value, l.value, d.value, e.value, f.value))
  }

  /** All the versions collected are `v`. */
  predicate AllVersionsAre(c: Formats, r: Repo, v: string) {
    && c.decode(r.packageJson).Some? && JsonSays(c.decode(r.packageJson).value, v)
    && c.decode(r.tauriConf).Some? && JsonSays(c.decode(r.tauriConf).value, v)
    && c.decode(r.packageLock).Some? && PackageLockSays(c.decode(r.packageLock).value, v)
    && c.package(r.shellCargo) == Some(v) && c.package(r.serverCargo) == Some(v)
    && AllSay(c.lock(r.cargoLock), v)
  }

  /** The readers find a version in every Cargo file; for the JSON files the writers ask the same. */
  predicate Collects(c: Formats, r: Repo) {
    && c.package(r.shellCargo).Some? && c.package(r.serverCargo).Some? && c.lock(r.cargoLock).Some?
  }

  function NormalizeTag(tag: string): (v: Option<string>) {
    if "v" <= tag && V.IsCanonical(tag[1..]) then Some(tag[1..]) else None
  }

  /** `set_release_version` when it succeeds; None for its errors. */
  function SetReleaseVersion(c: Formats, r: Repo, tag: string): Option<Repo> {
    var v := NormalizeTag(tag);
    if v.None? || !Collects(c, r) then None else
    var t := SetAll(c, r, v.value);
    if t.None? || !AllVersionsAre(c, t.value, v.value) then None else t
  }

  /** The tags that are taken are a `v` and a strict version. */
  lemma NormalizesTagIff(tag: string, core: seq<string>, pre: seq<string>)
    requires |core| == 3 && V.AllDigits(core) && V.AllIdentifiers(pre) && tag == "v" + V.VersionOf(core, pre)
    ensures NormalizeTag(tag) ==
      if (forall i :: 0 <= i < 3 ==> V.NoLeadingZero(core[i])) && (forall i :: 0 <= i < |pre| ==> V.NoLeadingZero(pre[i]))
      then Some(V.VersionOf(core, pre)) else None
  {
    V.CanonicalTextIff(core, pre);
    assert tag[1..] == V.VersionOf(core, pre);
  }

  lemma OtherTagsAreRefused(tag: string)
    requires NormalizeTag(tag).Some?
    ensures exists core, pre :: |core| == 3 && V.AllDigits(core) && V.AllIdentifiers(pre) && tag == "v" + V.VersionOf(core, pre)
  {
    var core, pre := V.ReleaseIsText(tag[1..]);
    assert tag == "v" + tag[1..];
  }

  lemma TagIsSettable(tag: string)
    ensures NormalizeTag(tag).Some? ==> Settable(NormalizeTag(tag).value)
  {
    if NormalizeTag(tag).Some? {
      var v := tag[1..];
      assert v != "" by {
        assert v == "" ==> V.CoreText(v) == [""];
      }
      forall k | 0 <= k < |v| ensures v[k] != '"' {
        V.ReleaseCharacters(v, k);
      }
    }
  }

  /** Rewriting a JSON file: what was written says the version, the last of two settings wins, and the
      file stays as it was exactly when it said so and was already laid out as the writer does. */
  lemma JsonTextLens(c: Formats, t: Text, v: string, w: string)
    requires Lawful(c) && WriteJson(c, t, v).Some?
    ensures var u := WriteJson(c, t, v).value;
      && c.decode(t).Some? && SetJson(c.decode(t).value, v).Some?
      && c.decode(u) == SetJson(c.decode(t).value, v)
      && WriteJson(c, u, w) == WriteJson(c, t, w)
      && (u == t <==> JsonSays(c.decode(t).value, v) && t == c.encode(c.decode(t).value))
  {
    JsonLens(c.decode(t).value, v, w);
  }

  lemma PackageLockTextLens(c: Formats, t: Text, v: string, w: string)
    requires Lawful(c) && WritePackageLock(c, t, v).Some?
    ensures var u := WritePackageLock(c, t, v).value;
      && c.decode(t).Some? && SetPackageLock(c.decode(t).value, v).Some?
      && c.decode(u) == SetPackageLock(c.decode(t).value, v)
      && WritePackageLock(c, u, w) == WritePackageLock(c, t, w)
      && (u == t <==> PackageLockSays(c.decode(t).value, v) && t == c.encode(c.decode(t).value))
  {
    PackageLockLens(c.decode(t).value, v, w);
  }

  lemma SetAllTwice(c: Formats, r: Repo, v: string, w: string)
    requires Lawful(c) && Settable(v) && Settable(w) && SetAll(c, r, v).Some?
    ensures SetAll(c, SetAll(c, r, v).value, w) == SetAll(c, r, w)
  {
    JsonTextLens(c, r.packageJson, v, w);
    JsonTextLens(c, r.tauriConf, v, w);
    PackageLockTextLens(c, r.packageLock, v, w);
    PackageLens(r.shellCargo, v, w);
    PackageLens(r.serverCargo, v, w);
    LockLens(r.cargoLock, v, w);
  }

  /** When a release version is set: the tag is one, every file has its version where the writer looks for it
      and the readers find one; and afterwards each reader says the new one. */
  lemma ReleaseSetsIff(c: Formats, r: Repo, tag: string)
    ensures SetReleaseVersion(c, r, tag).Some? <==>
      && NormalizeTag(tag).Some? && SetAll(c, r, NormalizeTag(tag).value).Some?
      && c.package(r.shellCargo).Some? && c.package(r.serverCargo).Some? && c.lock(r.cargoLock).Some?
      && var t, v := SetAll(c, r, NormalizeTag(tag).value).value, NormalizeTag(tag).value;
         && c.decode(t.packageJson).Some? && Get(c.decode(t.packageJson).value, "version") == Some(Str(v))
         && c.decode(t.tauriConf).Some? && Get(c.decode(t.tauriConf).value, "version") == Some(Str(v))
         && c.decode(t.packageLock).Some? && PackageLockSays(c.decode(t.packageLock).value, v)
         && c.package(t.shellCargo) == Some(v) && c.package(t.serverCargo) == Some(v)
         && c.lock(t.cargoLock).Some? && forall n :: n in c.lock(t.cargoLock).value ==> c.lock(t.cargoLock).value[n] == v
    ensures SetReleaseVersion(c, r, tag).Some? ==> SetReleaseVersion(c, r, tag) == SetAll(c, r, NormalizeTag(tag).value)
  {
  }

  lemma SetsAllIff(c: Formats, r: Repo, v: string)
    ensures SetAll(c, r, v).Some? <==>
      && c.decode(r.packageJson).Some? && HasVersion(c.decode(r.packageJson).value)
      && c.decode(r.tauriConf).Some? && HasVersion(c.decode(r.tauriConf).value)
      && c.decode(r.packageLock).Some? && HasVersion(c.decode(r.packageLock).value)
      && Root(c.decode(r.packageLock).value).Some? && HasVersion(Root(c.decode(r.packageLock).value).value)
      && PackageVersionAt(Kinds(r.shellCargo)).Some? && PackageVersionAt(Kinds(r.serverCargo)).Some?
      && LockVersionsAt(Kinds(r.cargoLock)).Some?
  {
  }

  /** After a release version is set, every reader says it, and any later setting does just what it
      would have done to the files as they were before, whatever reads the Cargo files. */
  lemma ReleaseLens(c: Formats, r: Repo, tag: string, later: string)
    requires Lawful(c) && SetReleaseVersion(c, r, tag).Some?
    ensures AllVersionsAre(c, SetReleaseVersion(c, r, tag).value, NormalizeTag(tag).value)
    ensures SetReleaseVersion(c, SetReleaseVersion(c, r, tag).value, later) == SetReleaseVersion(c, r, later)
  {
    TagIsSettable(tag);
    TagIsSettable(later);
    if NormalizeTag(later).Some? {
      SetAllTwice(c, r, NormalizeTag(tag).value, NormalizeTag(later).value);
    }
  }

  // ------------------------------------------------------------- the command

  /** The working tree: each file is rewritten on its own, so a failure part way leaves the files
      before it rewritten. */
  class WorkingTree {
    var files: Repo

    constructor (r: Repo)
      ensures files == r
    {
      files := r;
    }

    /** None for an error, and otherwise whether any file changed. */
    method SetVersion(c: Formats, tag: string) returns (changed: Option<bool>)
      modifies this
      ensures changed.Some? <==> SetReleaseVersion(c, old(files), tag).Some?
      ensures changed.Some? ==> Some(files) == SetReleaseVersion(c, old(files), tag)
      ensures changed == Some(false) ==> files == old(files)
      ensures NormalizeTag(tag).None? ==> files == old(files)
    {
      var v := NormalizeTag(tag);
      if v.None? || !Collects(c, files) {
        return None;
      }
      var before := files;
      var ok := SetFiles(c, v.value);
      if !ok || !AllVersionsAre(c, files, v.value) {
        return None;
      }
      return Some(files != before);
    }

    method SetFiles(c: Formats, v: string) returns (ok: bool)
      modifies this
      ensures ok <==> SetAll(c, old(files), v).Some?
      ensures ok ==> Some(files) == SetAll(c, old(files), v)
    {
      ok := SetJsonFiles(c, v);
      if ok {
        ok := SetCargoFiles(v);
      }
    }

    method SetJsonFiles(c: Formats, v: string) returns (ok: bool)
      modifies this
      ensures ok <==> WriteJson(c, old(files).packageJson, v).Some? && WriteJson(c, old(files).tauriConf, v).Some?
                      && WritePackageLock(c, old(files).packageLock, v).Some?
      ensures ok ==> files == old(files).(packageJson := WriteJson(c, old(files).packageJson, v).value,
                                          tauriConf := WriteJson(c, old(files).tauriConf, v).value,
                                          packageLock := WritePackageLock(c, old(files).packageLock, v).value)
      ensures files.shellCargo == old(files).shellCargo && files.serverCargo == old(files).serverCargo
      ensures files.cargoLock == old(files).cargoLock
    {
      var json := WriteJson(c, files.packageJson, v);
      if json.None? {
        return false;
      }
      files := files.(packageJson := json.value);
      json := WriteJson(c, files.tauriConf, v);
      if json.None? {
        return false;
      }
      files := files.(tauriConf := json.value);
      json := WritePackageLock(c, files.packageLock, v);
      if json.None? {
        return false;
      }
      files := files.(packageLock := json.value);
      return true;
    }

    method SetCargoFiles(v: string) returns (ok: bool)
      modifies this
      ensures ok <==> ReplacePackageVersion(old(files).shellCargo, v).Some?
                      && ReplacePackageVersion(old(files).serverCargo, v).Some? && SetCargoLock(old(files).cargoLock, v).Some?
      ensures ok ==> files == old(files).(shellCargo := ReplacePackageVersion(old(files).shellCargo, v).value,
                                          serverCargo := ReplacePackageVersion(old(files).serverCargo, v).value,
                                          cargoLock := SetCargoLock(old(files).cargoLock, v).value)
      ensures files.packageJson == old(files).packageJson && files.tauriConf == old(files).tauriConf
      ensures files.packageLock == old(files).packageLock
    {
      var text := ReplacePackageVersion(files.shellCargo, v);
      if text.None? {
        return false;
      }
      files := files.(shellCargo := text.value);
      text := ReplacePackageVersion(files.serverCargo, v);
      if text.None? {
        return false;
      }
      files := files.(serverCargo := text.value);
      text := WriteCargoLock(files.cargoLock, v);
      if text.None? {
        return false;
      }
      files := files.(cargoLock := text.value);
      return true;
    }
  }
}
