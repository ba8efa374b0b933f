// Texts on which the version tools fail, one for each condition that the
// general results ask for.
//
// A Cargo.toml whose own header is indented, and which quotes another manifest in
// a string, is set inside the string before the digest's trimming and outside it
// afterwards; a Cargo.toml or a Cargo.lock with an indented version line is set
// on one line and read, where no TOML library is there, from another.  Each text
// is a list of tokens, one for a line, whose kind and meaning to a reader are
// known from the token; what a writer or a reader makes of the text is computed
// from those.
module VersionExamples {
  import opened VersionText
  import opened SourceDigest
  import V = SemVer

  // ------------------------------------------------------------------ tokens

  datatype Token =
    | Head(indented: bool)
    | LockHead
    | Vers(indented: bool, v: string)
    | Titled(n: string)
    | Opening                       // of a string over several lines
    | Closing
    | Empty

  function Indent(indented: bool, line: string): string {
    if indented then "  " + line else line
  }

  function VersLine(v: string): string {
    "version = \"" + v + "\""
  }

  function TitleLine(n: string): string {
    "name = \"" + n + "\""
  }

  function LineOf(t: Token): string {
    match t
    case Head(indented) => Indent(indented, "[package]")
    case LockHead => "[[package]]"
    case Vers(indented, v) => Indent(indented, VersLine(v))
    case Titled(n) => TitleLine(n)
    case Opening => "description = \"\"\""
    case Closing => "\"\"\""
    case Empty => ""
  }

  predicate Fine(t: Token) {
    (t.Vers? ==> Settable(t.v)) && (t.Titled? ==> Settable(t.n))
  }

  function KindFor(t: Token): Kind {
    match t
    case Head(indented) => if indented then Plain else PackageHeader
    case LockHead => LockHeader
    case Vers(indented, _) => if indented then Plain else VersionLine
    case Titled(n) => NameLine(n)
    case _ => Plain
  }

  function SeenFor(t: Token): Seen {
    match t
    case Head(_) => SeenPackage
    case LockHead => SeenLockPackage
    case Vers(_, v) => SeenVersion(v)
    case Titled(n) => SeenName(n)
    case _ => SeenOther
  }

  lemma VersLineIs(v: string, w: string)
    requires Settable(v)
    ensures IsVersionLine(VersLine(v)) && VersionIn(VersLine(v)) == v
    ensures SetLine(VersLine(v), w) == VersLine(w)
  {
    var line := VersLine(v);
    var span := Span(11, 11 + |v|);
    assert line[11..11 + |v|] == v && line[..11] == "version = \"" && line[11 + |v|..] == "\"";
    assert V.IsSpace(' ') && VERSION <= line && line[8] == '=' && line[10] == '"';
    QuotedIsFound(line, VERSION, 8, span);
  }

  lemma TitleLineIs(n: string)
    requires Settable(n)
    ensures IsQuoted(TitleLine(n), NAME, 5, Span(8, 8 + |n|)) && TitleLine(n)[8..8 + |n|] == n && |TitleLine(n)| == 9 + |n|
  {
    var line := TitleLine(n);
    assert line[8..8 + |n|] == n && line[8 + |n|] == '"';
    assert V.IsSpace(' ') && NAME <= line && line[5] == '=' && line[7] == '"';
  }

  lemma TitleKind(n: string)
    requires Settable(n)
    ensures KindOf(TitleLine(n)) == NameLine(n)
  {
    TitleLineIs(n);
    QuotedIsFound(TitleLine(n), NAME, 5, Span(8, 8 + |n|));
    assert TitleLine(n)[0] == 'n';
  }

  lemma VersKind(v: string)
    requires Settable(v)
    ensures KindOf(VersLine(v)) == VersionLine
  {
    VersLineIs(v, v);
    KindOfVersionLine(VersLine(v));
  }

  lemma IndentedKind(line: string)
    ensures KindOf(Indent(true, line)) == Plain
  {
    assert Indent(true, line)[0] == ' ';
  }

  lemma OtherKinds()
    ensures KindOf("[package]") == PackageHeader && KindOf("[[package]]") == LockHeader
    ensures KindOf("description = \"\"\"") == Plain && KindOf("\"\"\"") == Plain && KindOf("") == Plain
  {
    assert "[[package]]"[1] == '[' && "[package]"[1] == 'p';
    assert "description = \"\"\""[0] == 'd' && "\"\"\""[0] == '"';
  }

  lemma TokenKind(t: Token)
    requires Fine(t)
    ensures KindOf(LineOf(t)) == KindFor(t)
  {
    match t
    case Head(indented) =>
      if indented {
        IndentedKind("[package]");
      } else {
        OtherKinds();
      }
    case Vers(indented, v) =>
      if indented {
        IndentedKind(VersLine(v));
      } else {
        VersKind(v);
      }
    case Titled(n) => TitleKind(n);
    case _ => OtherKinds();
  }

  /** A line that begins and ends with something other than a blank. */
  predicate Solid(line: string) {
    line != "" && !V.IsSpace(line[0]) && !V.IsSpace(line[|line| - 1])
  }

  lemma SolidStrips(line: string, indented: bool)
    requires Solid(line)
    ensures V.Strip(Indent(indented, line)) == line && RightStrip(Indent(indented, line)) == Indent(indented, line)
    ensures !IsBlank(Indent(indented, line))
  {
    var l := Indent(indented, line);
    var d := |l| - |line|;
    assert l[d] == line[0] && l[|l| - 1] == line[|line| - 1];
    StripIs(l, d, |l|);
    assert l[d..|l|] == line;
    RightStripAt(l, |l|);
    assert l[..|l|] == l;
  }

  lemma SolidLeftStrips(line: string, indented: bool)
    requires Solid(line)
    ensures LeftStrip(Indent(indented, line)) == line
  {
    var l := Indent(true, line);
    assert l[1..] == " " + line && (" " + line)[1..] == line;
    assert LeftStrip(l) == LeftStrip(" " + line) == LeftStrip(line) == line;
  }

  lemma VersSolid(v: string)
    ensures Solid(VersLine(v))
  {
    assert VersLine(v)[0] == 'v' && VersLine(v)[|VersLine(v)| - 1] == '"';
  }

  lemma NamesAreSeen(s: string, n: string)
    requires V.Strip(s) == s && NAME <= s && s[0] == 'n' && ParseTomlString(s) == Some(n)
    ensures SeenIn(s) == SeenName(n)
  {
  }

  lemma TitleSeen(n: string)
    requires Settable(n)
    ensures SeenIn(TitleLine(n)) == SeenName(n)
  {
    var line := TitleLine(n);
    TitleLineIs(n);
    KeyValueIsParsed(line, NAME, 5, Span(8, 8 + |n|));
    assert line[0] == 'n' && line[|line| - 1] == '"';
    SolidStrips(line, false);
    NamesAreSeen(line, n);
  }

  lemma VersSeen(v: string, indented: bool)
    requires Settable(v)
    ensures SeenIn(Indent(indented, VersLine(v))) == SeenVersion(v)
  {
    VersSolid(v);
    SolidStrips(VersLine(v), indented);
    SolidStrips(VersLine(v), false);
    SameStripSeen(Indent(indented, VersLine(v)), VersLine(v));
    VersLineIs(v, v);
    VersionLineIsSeen(VersLine(v));
  }

  lemma HeadSeen(indented: bool)
    ensures SeenIn(Indent(indented, "[package]")) == SeenPackage && SeenIn("[[package]]") == SeenLockPackage
  {
    SolidStrips("[package]", indented);
    SolidStrips("[[package]]", false);
    assert "[[package]]"[1] == '[' && "[package]"[1] == 'p';
  }

  lemma OtherSeen()
    ensures SeenIn("description = \"\"\"") == SeenOther && SeenIn("\"\"\"") == SeenOther && SeenIn("") == SeenOther
  {
    SolidStrips("description = \"\"\"", false);
    SolidStrips("\"\"\"", false);
    assert "description = \"\"\""[0] == 'd' && "\"\"\""[0] == '"';
  }

  lemma TokenSeen(t: Token)
    requires Fine(t)
    ensures SeenIn(LineOf(t)) == SeenFor(t)
  {
    match t
    case Head(indented) => HeadSeen(indented);
    case LockHead => HeadSeen(false);
    case Vers(indented, v) => VersSeen(v, indented);
    case Titled(n) => TitleSeen(n);
    case _ => OtherSeen();
  }

  // ------------------------------------------------------------------- texts

  function TextOf(ts: seq<Token>): (t: Text)
    ensures |t| == |ts|
  {
    seq(|ts|, i requires 0 <= i < |ts| => LineOf(ts[i]))
  }

  function KindsFor(ts: seq<Token>): (ks: seq<Kind>)
    ensures |ks| == |ts|
  {
    seq(|ts|, i requires 0 <= i < |ts| => KindFor(ts[i]))
  }

  function SeenAllFor(ts: seq<Token>): (seen: seq<Seen>)
    ensures |seen| == |ts|
  {
    seq(|ts|, i requires 0 <= i < |ts| => SeenFor(ts[i]))
  }

  predicate AllFine(ts: seq<Token>) {
    forall i :: 0 <= i < |ts| ==> Fine(ts[i])
  }

  lemma TextKinds(ts: seq<Token>)
    requires AllFine(ts)
    ensures Kinds(TextOf(ts)) == KindsFor(ts)
  {
    forall i | 0 <= i < |ts| ensures KindOf(LineOf(ts[i])) == KindFor(ts[i]) {
      TokenKind(ts[i]);
    }
  }

  lemma TextSeen(ts: seq<Token>)
    requires AllFine(ts)
    ensures SeenAll(TextOf(ts)) == SeenAllFor(ts)
  {
    forall i | 0 <= i < |ts| ensures SeenIn(LineOf(ts[i])) == SeenFor(ts[i]) {
      TokenSeen(ts[i]);
    }
  }

  lemma FirstIs(ks: seq<Kind>, i: nat, p: Kind -> bool, k: nat)
    requires i <= k <= |ks| && (forall j :: i <= j < k ==> !p(ks[j])) && (k < |ks| ==> p(ks[k]))
    ensures First(ks, i, p) == k
  {
  }

  /** `us` is `ts` with the version tokens at `at` saying `x`. */
  predicate Sets(ts: seq<Token>, us: seq<Token>, at: set<nat>, x: string) {
    |us| == |ts| && forall k :: 0 <= k < |ts| ==>
      if k in at then ts[k].Vers? && !ts[k].indented && us[k] == Vers(false, x) else us[k] == ts[k]
  }

  lemma TokenIsSet(t: Token, x: string)
    requires Fine(t) && t.Vers? && !t.indented
    ensures IsVersionLine(LineOf(t)) && SetLine(LineOf(t), x) == LineOf(Vers(false, x))
  {
    VersLineIs(t.v, x);
  }

  lemma TokensAreRewritten(ts: seq<Token>, us: seq<Token>, at: set<nat>, x: string, t: Text)
    requires AllFine(ts) && Sets(ts, us, at, x) && IsSet(TextOf(ts), t, at, x)
    ensures t == TextOf(us)
  {
    forall k: nat | k < |ts| ensures |t| == |us| && t[k] == TextOf(us)[k] {
      SetAt(TextOf(ts), t, at, x, k);
      if k in at {
        TokenIsSet(ts[k], x);
      }
    }
  }

  /** A Cargo.toml made of tokens is set on a version token. */
  lemma TokensAreSet(ts: seq<Token>, us: seq<Token>, m: nat, x: string)
    requires AllFine(ts) && PackageVersionAt(KindsFor(ts)) == Some(m) && Sets(ts, us, {m}, x)
    ensures ReplacePackageVersion(TextOf(ts), x) == Some(TextOf(us))
  {
    TextKinds(ts);
    PackageIsRewrite(TextOf(ts), x);
    TokensAreRewritten(ts, us, {m}, x, ReplacePackageVersion(TextOf(ts), x).value);
  }

  lemma LockTokensAreSet(ts: seq<Token>, us: seq<Token>, at: set<nat>, x: string)
    requires AllFine(ts) && LockVersionsAt(KindsFor(ts)) == Some(at) && Sets(ts, us, at, x)
    ensures SetCargoLock(TextOf(ts), x) == Some(TextOf(us))
  {
    TextKinds(ts);
    LockSets(TextOf(ts), x, Some(at));
    TokensAreRewritten(ts, us, at, x, SetCargoLock(TextOf(ts), x).value);
  }

  lemma ReadFrom(ts: seq<Token>, v: string)
    requires AllFine(ts) && |ts| >= 2 && ts[0].Head? && ts[1].Vers? && ts[1].v == v
    ensures PackageVersion(TextOf(ts)) == Some(v)
  {
    TextSeen(ts);
    var seen := SeenAll(TextOf(ts));
    assert seen[0] == SeenPackage && seen[1] == SeenVersion(v);
    assert ReadAt(seen, 1, true) == Some(1);
    PackageVersionIsSeen(TextOf(ts));
  }

  // ------------------------------------------------ a version that is indented

  function OddVersion(v: string): seq<Token> {
    [Head(false), Vers(true, "1.0.0"), Vers(false, v)]
  }

  lemma OddVersionPlace(v: string)
    ensures PackageVersionAt(KindsFor(OddVersion(v))) == Some(2)
  {
    var ks := KindsFor(OddVersion(v));
    assert ks == [PackageHeader, Plain, VersionLine];
    FirstIs(ks, 0, IsPackageHeader, 0);
    FirstIs(ks, 1, InSection, 3);
    FirstIs(ks, 1, IsVersion, 2);
  }

  lemma OddVersionIsSet(v: string, x: string)
    requires Settable(v)
    ensures ReplacePackageVersion(TextOf(OddVersion(v)), x) == Some(TextOf(OddVersion(x)))
  {
    OddVersionPlace(v);
    TokensAreSet(OddVersion(v), OddVersion(x), 2, x);
  }

  lemma OddVersionIsRead(v: string)
    requires Settable(v)
    ensures PackageVersion(TextOf(OddVersion(v))) == Some("1.0.0")
  {
    ReadFrom(OddVersion(v), "1.0.0");
  }

  /** The reader takes the indented version, which the writer does not see. */
  lemma IndentedVersionIsReadInstead()
    ensures ReplacePackageVersion(TextOf(OddVersion("2.0.0")), "3.0.0") == Some(TextOf(OddVersion("3.0.0")))
    ensures PackageVersion(TextOf(OddVersion("3.0.0"))) == Some("1.0.0")
  {
    var v, x := "2.0.0", "3.0.0";
    assert Settable(v) && Settable(x);
    OddVersionIsSet(v, x);
    OddVersionIsRead(x);
  }

  // ------------------------------------------------------------ and in a lock

  function Twice(v: string): seq<Token> {
    [LockHead, Titled("tauri-shell"), Vers(false, v), Vers(true, "1.0.0"), LockHead, Titled("tyde-server"), Vers(false, v)]
  }

  lemma FoldTwo(a: string, i: nat, b: string, k: nat)
    requires a != b
    ensures Fold([Named(a, Some(i)), Named(b, Some(k))], {}, {}) == Some(({i, k}, {a, b}))
  {
    var first, second := Named(a, Some(i)), Named(b, Some(k));
    assert [first, second][1..] == [second] && [second][1..] == [];
    var none: set<string>, nowhere: set<nat> := {}, {};
    assert none + {a} == {a} && nowhere + {i} == {i} && {a} + {b} == {a, b} && {i} + {k} == {i, k};
    assert Fold([second], {a}, {i}) == Fold([], {a, b}, {i, k});
    assert Fold([first, second], none, nowhere) == Fold([second], {a}, {i});
  }

  /** Two chunks, the named packages one after the other with their versions at `i` and `k`. */
  lemma TwoPlaces(ks: seq<Kind>, s: nat, i: nat, k: nat)
    requires 2 <= i < s && s + 2 <= k < |ks|
    requires ks[0] == LockHeader && ks[s] == LockHeader
    requires ks[1] == NameLine("tauri-shell") && ks[s + 1] == NameLine("tyde-server") && ks[i] == VersionLine && ks[k] == VersionLine
    requires forall j :: 0 <= j < |ks| && j !in {0, 1, s, s + 1, i, k} ==> ks[j] == Plain
    ensures LockVersionsAt(ks) == Some({i, k})
  {
    FirstIs(ks, 0, IsLockHeader, 0);
    FirstIs(ks, 1, IsLockHeader, s);
    FirstIs(ks, 0, IsName, 1);
    FirstIs(ks, 0, IsVersion, i);
    FirstIs(ks, s + 1, IsLockHeader, |ks|);
    FirstIs(ks, s, IsName, s + 1);
    FirstIs(ks, s, IsVersion, k);
    LockTargetsFold(ks, 0, {}, {});
    ChunksUnfold(ks, 0, s);
    ChunksUnfold(ks, s, |ks|);
    assert Chunks(ks, 0) == [Named("tauri-shell", Some(i)), Named("tyde-server", Some(k))];
    FoldTwo("tauri-shell", i, "tyde-server", k);
  }

  lemma PairLines(a: string, i: nat, b: string, k: nat)
    requires a in LOCK_NAMES && b in LOCK_NAMES && a != b
    ensures VersionLines([Package(Some(a), Some(i)), Package(Some(b), Some(k))]) == Some(map[a := i, b := k])
  {
    var first, second := Package(Some(a), Some(i)), Package(Some(b), Some(k));
    var ps := [first, second];
    assert ps[..1] == [first] && ps[..1][..0] == [];
    assert VersionLines(ps[..1]) == Some(map[a := i]);
  }

  lemma TwiceScanned(seen: seq<Seen>, v: string)
    requires seen == SeenAllFor(Twice(v))
    ensures PackagesIn(seen) == [Package(Some("tauri-shell"), Some(3)), Package(Some("tyde-server"), Some(6))]
  {
    var first := Package(Some("tauri-shell"), Some(3));
    assert ScanTo(seen, 1) == Scan([], Some(Package(None, None)));
    assert ScanTo(seen, 2) == Scan([], Some(Package(Some("tauri-shell"), None)));
    assert ScanTo(seen, 3) == Scan([], Some(Package(Some("tauri-shell"), Some(2))));
    assert ScanTo(seen, 4) == Scan([], Some(first));
    assert ScanTo(seen, 5) == Scan([first], Some(Package(None, None)));
    assert ScanTo(seen, 6) == Scan([first], Some(Package(Some("tyde-server"), None)));
    assert ScanTo(seen, 7) == Scan([first], Some(Package(Some("tyde-server"), Some(6))));
  }

  lemma TwiceRead(seen: seq<Seen>)
    requires seen == SeenAllFor(Twice("1.0.0"))
    ensures !ReadsWhatIsSet(seen, {2, 6}, "2.0.0")
  {
    TwiceScanned(seen, "1.0.0");
    assert "tauri-shell" != "tyde-server";
    PairLines("tauri-shell", 3, "tyde-server", 6);
    var at := LockReadsAt(seen);
    assert at.Some? ==> at.value["tauri-shell"] == 3 && seen[3] == SeenVersion("1.0.0");
    assert "1.0.0"[0] != "2.0.0"[0];
  }

  /** In a lock the last version line of a package is read and the first one is set. */
  lemma IndentedLockVersionIsReadInstead()
    ensures SetCargoLock(TextOf(Twice("1.0.0")), "2.0.0").Some?
    ensures !AllSay(LockVersions(SetCargoLock(TextOf(Twice("1.0.0")), "2.0.0").value), "2.0.0")
  {
    var ts := Twice("1.0.0");
    TextKinds(ts);
    TextSeen(ts);
    TwicePlaces("1.0.0");
    TwiceRead(SeenAllFor(ts));
    LockIsReadInstead(TextOf(ts), SeenAllFor(ts));
  }

  lemma TwicePlaces(v: string)
    ensures LockVersionsAt(KindsFor(Twice(v))) == Some({2, 6})
  {
    var ks := KindsFor(Twice(v));
    assert ks == [LockHeader, NameLine("tauri-shell"), VersionLine, Plain, LockHeader, NameLine("tyde-server"), VersionLine];
    TwoPlaces(ks, 4, 2, 6);
  }

  lemma LockIsReadInstead(text: Text, seen: seq<Seen>)
    requires LockVersionsAt(Kinds(text)) == Some({2, 6}) && seen == SeenAll(text) && !ReadsWhatIsSet(seen, {2, 6}, "2.0.0")
    ensures SetCargoLock(text, "2.0.0").Some?
    ensures !AllSay(LockVersions(SetCargoLock(text, "2.0.0").value), "2.0.0")
  {
    LockSets(text, "2.0.0", Some({2, 6}));
    LockReadsBackIff(text, "2.0.0");
  }

  // ------------------------------------------------- a header that is indented

  /** A manifest with an indented header and another manifest quoted in a string, as it is and as
      `git show` hands it over. */
  function Quoting(v: string, w: string): seq<Token> {
    [Head(true), Vers(false, v), Opening, Head(false), Vers(false, w), Closing]
  }

  function QuotingShown(v: string, w: string): seq<Token> {
    [Head(false), Vers(false, v), Opening, Head(false), Vers(false, w), Closing, Empty]
  }

  function PlainLock(v: string): seq<Token> {
    [LockHead, Titled("tauri-shell"), Vers(false, v), LockHead, Titled("tyde-server"), Vers(false, v), Empty]
  }

  lemma QuotingPlaces(v: string, w: string)
    ensures PackageVersionAt(KindsFor(Quoting(v, w))) == Some(4)
    ensures PackageVersionAt(KindsFor(QuotingShown(v, w))) == Some(1)
  {
    var ks := KindsFor(Quoting(v, w));
    assert ks == [Plain, VersionLine, Plain, PackageHeader, VersionLine, Plain];
    FirstIs(ks, 0, IsPackageHeader, 3);
    FirstIs(ks, 4, InSection, 6);
    FirstIs(ks, 4, IsVersion, 4);
    var us := KindsFor(QuotingShown(v, w));
    assert us == [PackageHeader, VersionLine, Plain, PackageHeader, VersionLine, Plain, Plain];
    FirstIs(us, 0, IsPackageHeader, 0);
    FirstIs(us, 1, InSection, 3);
    FirstIs(us, 1, IsVersion, 1);
  }

  lemma PlainLockPlaces(v: string)
    ensures LockVersionsAt(KindsFor(PlainLock(v))) == Some({2, 5})
  {
    var ks := KindsFor(PlainLock(v));
    assert ks == [LockHeader, NameLine("tauri-shell"), VersionLine, LockHeader, NameLine("tyde-server"), VersionLine, Plain];
    TwoPlaces(ks, 3, 2, 5);
  }

  /** The files as they are set. */
  lemma QuotingIsSet(v: string, w: string, x: string)
    requires Settable(v) && Settable(w)
    ensures ReplacePackageVersion(TextOf(Quoting(v, w)), x) == Some(TextOf(Quoting(v, x)))
  {
    QuotingPlaces(v, w);
    TokensAreSet(Quoting(v, w), Quoting(v, x), 4, x);
  }

  lemma QuotingShownIsSet(v: string, w: string, x: string)
    requires Settable(v) && Settable(w)
    ensures ReplacePackageVersion(TextOf(QuotingShown(v, w)), x) == Some(TextOf(QuotingShown(x, w)))
  {
    QuotingPlaces(v, w);
    TokensAreSet(QuotingShown(v, w), QuotingShown(x, w), 1, x);
  }

  lemma PlainLockIsFine(v: string, x: string)
    requires Settable(v)
    ensures AllFine(PlainLock(v)) && Sets(PlainLock(v), PlainLock(x), {2, 5}, x)
  {
    assert Settable("tauri-shell") && Settable("tyde-server");
  }

  lemma PlainLockIsSet(v: string, x: string)
    requires Settable(v)
    ensures SetCargoLock(TextOf(PlainLock(v)), x) == Some(TextOf(PlainLock(x)))
  {
    PlainLockPlaces(v);
    PlainLockIsFine(v, x);
    LockTokensAreSet(PlainLock(v), PlainLock(x), {2, 5}, x);
  }

  /** A text of tokens is trimmed to the tokens up to its last line, the first one without its indentation. */
  lemma TokensAreTrimmed(ts: seq<Token>, us: seq<Token>, n: nat)
    requires 2 <= n <= |ts| && |us| == n + 1 && us[n] == Empty
    requires (forall k :: 0 < k < n ==> us[k] == ts[k]) && (forall k :: n <= k < |ts| ==> ts[k] == Empty)
    requires !IsBlank(LineOf(ts[0])) && LeftStrip(LineOf(ts[0])) == LineOf(us[0])
    requires !IsBlank(LineOf(ts[n - 1])) && RightStrip(LineOf(ts[n - 1])) == LineOf(ts[n - 1])
    ensures Trim(TextOf(ts)) == TextOf(us)
  {
    TokensAreBound(ts, n);
    TrimIs(TextOf(ts), 0, n);
    forall k: nat | k < n ensures TextOf(us)[k] == EndLine(TextOf(ts)[0 + k], k == 0, k == n - 0 - 1) {}
    SameTrim(TextOf(ts), 0, n, Trim(TextOf(ts)), TextOf(us));
  }

  lemma TokensAreBound(ts: seq<Token>, n: nat)
    requires 0 < n <= |ts| && forall k :: n <= k < |ts| ==> ts[k] == Empty
    requires !IsBlank(LineOf(ts[0])) && !IsBlank(LineOf(ts[n - 1]))
    ensures Bounds(TextOf(ts), 0, n)
  {
  }

  lemma SameTrim(text: Text, d: nat, e: nat, u: Text, w: Text)
    requires IsTrim(text, d, e, u) && IsTrim(text, d, e, w)
    ensures u == w
  {
    forall k | 0 <= k < |u| ensures u[k] == w[k] {
      if k < e - d {
        assert u[k] == EndLine(text[d + k], k == 0, k == e - d - 1);
      }
    }
  }

  lemma QuotingIsTrimmed(v: string, w: string)
    ensures Trim(TextOf(Quoting(v, w))) == TextOf(QuotingShown(v, w))
  {
    EndsOfQuoting();
    TokensAreTrimmed(Quoting(v, w), QuotingShown(v, w), 6);
  }

  lemma QuotingShownIsTrimmed(v: string, w: string)
    ensures Trim(TextOf(QuotingShown(v, w))) == TextOf(QuotingShown(v, w))
  {
    EndsOfQuoting();
    TokensAreTrimmed(QuotingShown(v, w), QuotingShown(v, w), 6);
  }

  lemma EndsOfQuoting()
    ensures LeftStrip(LineOf(Head(true))) == LineOf(Head(false)) && LeftStrip(LineOf(Head(false))) == LineOf(Head(false))
    ensures RightStrip(LineOf(Closing)) == LineOf(Closing) && !IsBlank(LineOf(Closing))
    ensures !IsBlank(LineOf(Head(true))) && !IsBlank(LineOf(Head(false)))
  {
    SolidStrips("[package]", true);
    SolidStrips("[package]", false);
    SolidLeftStrips("[package]", true);
    SolidLeftStrips("[package]", false);
    SolidStrips("\"\"\"", false);
  }

  lemma PlainLockIsTrimmed(v: string)
    ensures Trim(TextOf(PlainLock(v))) == TextOf(PlainLock(v))
  {
    VersSolid(v);
    SolidStrips(VersLine(v), false);
    SolidStrips("[[package]]", false);
    SolidLeftStrips("[[package]]", false);
    TokensAreTrimmed(PlainLock(v), PlainLock(v), 6);
  }

  function BothSay(v: string): map<string, string> {
    map["tauri-shell" := v, "tyde-server" := v]
  }

  /** Readers find in these files what they say, as a TOML library does, for which the second manifest is
      part of a string. */
  ghost predicate ReadsThem(c: Formats) {
    && (forall v, w :: Settable(v) && Settable(w) ==> c.package(TextOf(Quoting(v, w))) == Some(v))
    && (forall v, w :: Settable(v) && Settable(w) ==> c.package(TextOf(QuotingShown(v, w))) == Some(v))
    && (forall v :: Settable(v) ==> c.lock(TextOf(PlainLock(v))) == Some(BothSay(v)))
  }

  lemma PlainLockRead(v: string)
    requires Settable(v)
    ensures LockVersions(TextOf(PlainLock(v))) == Some(BothSay(v))
  {
    TextSeen(PlainLock(v));
    PlainLockSeenRead(SeenAllFor(PlainLock(v)), v);
  }

  lemma PlainLockScanned(seen: seq<Seen>, v: string)
    requires seen == SeenAllFor(PlainLock(v))
    ensures PackagesIn(seen) == [Package(Some("tauri-shell"), Some(2)), Package(Some("tyde-server"), Some(5))]
  {
    var first, second := Package(Some("tauri-shell"), Some(2)), Package(Some("tyde-server"), Some(5));
    assert ScanTo(seen, 1) == Scan([], Some(Package(None, None)));
    assert ScanTo(seen, 2) == Scan([], Some(Package(Some("tauri-shell"), None)));
    assert ScanTo(seen, 3) == Scan([], Some(first));
    assert ScanTo(seen, 4) == Scan([first], Some(Package(None, None)));
    assert ScanTo(seen, 5) == Scan([first], Some(Package(Some("tyde-server"), None)));
    assert ScanTo(seen, 6) == Scan([first], Some(second));
    assert ScanTo(seen, 7) == Scan([first], Some(second));
  }

  lemma PlainLockSeenRead(seen: seq<Seen>, v: string)
    requires seen == SeenAllFor(PlainLock(v))
    ensures VersionsSeen(seen) == Some(BothSay(v))
  {
    PlainLockScanned(seen, v);
    assert "tauri-shell" != "tyde-server";
    PairLines("tauri-shell", 2, "tyde-server", 5);
    var at := map["tauri-shell" := 2, "tyde-server" := 5];
    assert LockReadsAt(seen) == Some(at);
    assert seen[2] == SeenVersion(v) && seen[5] == SeenVersion(v);
    assert VersionsSeen(seen).value == BothSay(v);
  }

  /** The line readers do too. */
  lemma LineReadersReadThem(decode: Text -> Option<Json>, encode: Json -> Text)
    ensures ReadsThem(Fallback(decode, encode))
  {
    forall v, w | Settable(v) && Settable(w) ensures PackageVersion(TextOf(Quoting(v, w))) == Some(v) {
      ReadFrom(Quoting(v, w), v);
    }
    forall v, w | Settable(v) && Settable(w) ensures PackageVersion(TextOf(QuotingShown(v, w))) == Some(v) {
      ReadFrom(QuotingShown(v, w), v);
    }
    forall v | Settable(v) ensures LockVersions(TextOf(PlainLock(v))) == Some(BothSay(v)) {
      PlainLockRead(v);
    }
  }

  // -------------------------------------------------- the digest of such a tree

  function Versioned(v: string): Json {
    Obj([Field(VERSION, Str(v))])
  }

  function Locked(v: string): Json {
    Obj([Field(VERSION, Str(v)), Field(PACKAGES, Obj([Field("", Versioned(v))]))])
  }

  lemma VersionedIsSet(v: string, x: string)
    ensures WellFormed(Versioned(v)) && JsonSays(Versioned(v), v) && SetJson(Versioned(v), x) == Some(Versioned(x))
  {
    assert [Field(VERSION, Str(v))][0 := Field(VERSION, Str(x))] == [Field(VERSION, Str(x))];
  }

  lemma LockedFields(v: string)
    ensures Get(Locked(v), VERSION) == Some(Str(v)) && At(Locked(v).fields, VERSION) == Some(0)
    ensures At(Locked(v).fields, PACKAGES) == Some(1) && Root(Locked(v)) == Some(Versioned(v))
  {
    var fields := Locked(v).fields;
    assert VERSION != PACKAGES && fields[1..] == [fields[1]];
    assert At(fields[1..], PACKAGES) == Some(0);
  }

  lemma LockedIsSet(v: string, x: string)
    ensures WellFormed(Locked(v)) && PackageLockSays(Locked(v), v) && SetPackageLock(Locked(v), x) == Some(Locked(x))
  {
    var j := Locked(v);
    LockedFields(v);
    VersionedIsSet(v, v);
    VersionedIsSet(v, x);
    var t := Put(j, VERSION, Str(x));
    assert t.fields == [Field(VERSION, Str(x)), j.fields[1]];
    PutLaws(j, VERSION, Str(x), Str(x), PACKAGES);
    SameKeys(j.fields, t.fields, PACKAGES);
    var packages := Obj([Field("", Versioned(v))]);
    assert Get(t, PACKAGES) == Some(packages);
    assert Put(packages, "", Versioned(x)).fields == [Field("", Versioned(x))];
    assert PutRoot(t, Versioned(x)).fields == Locked(x).fields;
  }

  /** Files that say `v`, with the second manifest's version at `w`; `shown` when they come from `git show`. */
  function Files(json: Text, lock: Text, v: string, w: string, shown: bool): Repo {
    Repo(json, json, lock, TextOf(if shown then QuotingShown(v, w) else Quoting(v, w)), TextOf(QuotingShown(v, "0.9.0")),
         TextOf(PlainLock(v)))
  }

  /** The JSON texts say `v`. */
  predicate TextsSay(c: Formats, json: Text, lock: Text, v: string) {
    c.decode(json) == Some(Versioned(v)) && c.decode(lock) == Some(Locked(v))
  }

  lemma WrittenSays(c: Formats, v: string)
    requires Lawful(c)
    ensures TextsSay(c, c.encode(Versioned(v)), c.encode(Locked(v)), v)
  {
    VersionedIsSet(v, v);
    LockedIsSet(v, v);
  }

  lemma TextsAreSet(c: Formats, json: Text, lock: Text, v: string, x: string)
    requires TextsSay(c, json, lock, v)
    ensures WriteJson(c, json, x) == Some(c.encode(Versioned(x))) && WritePackageLock(c, lock, x) == Some(c.encode(Locked(x)))
  {
    VersionedIsSet(v, x);
    LockedIsSet(v, x);
  }

  lemma ShownFilesAreSet(c: Formats, json: Text, lock: Text, v: string, w: string, x: string)
    requires TextsSay(c, json, lock, v) && Settable(v) && Settable(w) && Settable("0.9.0")
    ensures SetAll(c, Files(json, lock, v, w, true), x) == Some(Files(c.encode(Versioned(x)), c.encode(Locked(x)), x, w, true))
  {
    TextsAreSet(c, json, lock, v, x);
    QuotingShownIsSet(v, w, x);
    QuotingShownIsSet(v, "0.9.0", x);
    PlainLockIsSet(v, x);
  }

  /** Bumping to what the files say already changes the string alone. */
  lemma FilesAreSet(c: Formats, json: Text, lock: Text, v: string, w: string)
    requires TextsSay(c, json, lock, v) && Settable(v) && Settable(w) && Settable("0.9.0")
    ensures SetAll(c, Files(json, lock, v, w, false), v) == Some(Files(c.encode(Versioned(v)), c.encode(Locked(v)), v, v, false))
  {
    TextsAreSet(c, json, lock, v, v);
    QuotingIsSet(v, w, v);
    QuotingShownIsSet(v, "0.9.0", v);
    PlainLockIsSet(v, v);
  }

  lemma FilesAreRead(c: Formats, json: Text, lock: Text, v: string, w: string, shown: bool)
    requires ReadsThem(c) && TextsSay(c, json, lock, v) && Settable(v) && Settable(w) && Settable("0.9.0")
    ensures var r := Files(json, lock, v, w, shown); Collects(c, r) && AllVersionsAre(c, r, v)
  {
    VersionedIsSet(v, v);
    LockedIsSet(v, v);
  }

  lemma FilesAreShown(c: Formats, json: Text, lock: Text, v: string, w: string)
    requires IgnoresMargins(c) && TextsSay(c, json, lock, v)
    ensures TrimAll(Files(json, lock, v, w, false)) == Files(Trim(json), Trim(lock), v, w, true)
    ensures TextsSay(c, Trim(json), Trim(lock), v)
  {
    QuotingIsTrimmed(v, w);
    QuotingShownIsTrimmed(v, "0.9.0");
    PlainLockIsTrimmed(v);
  }

  lemma TagOf(a: char, b: char, c: char)
    requires V.IsDigit(a) && V.IsDigit(b) && V.IsDigit(c)
    ensures NormalizeTag(['v', a, '.', b, '.', c]) == Some([a, '.', b, '.', c]) && Settable([a, '.', b, '.', c])
  {
    V.DigitVersion(a, b, c);
    assert ['v', a, '.', b, '.', c][1..] == [a, '.', b, '.', c];
  }

  lemma Tags()
    ensures NormalizeTag("v1.0.0") == Some("1.0.0") && NormalizeTag("v0.0.0") == Some("0.0.0")
    ensures Settable("1.0.0") && Settable("0.0.0") && Settable("0.9.0")
  {
    TagOf('1', '0', '0');
    TagOf('0', '0', '0');
    TagOf('0', '9', '0');
  }

  lemma FilesAreBumped(c: Formats, json: Text, lock: Text, v: string, w: string, tag: string)
    requires Lawful(c) && ReadsThem(c) && TextsSay(c, json, lock, v) && NormalizeTag(tag) == Some(v)
    requires Settable(v) && Settable(w) && Settable("0.9.0")
    ensures SetReleaseVersion(c, Files(json, lock, v, w, false), tag).Some?
  {
    FilesAreRead(c, json, lock, v, w, false);
    FilesAreSet(c, json, lock, v, w);
    WrittenSays(c, v);
    FilesAreRead(c, c.encode(Versioned(v)), c.encode(Locked(v)), v, v, false);
  }

  lemma ShownFilesAreBumped(c: Formats, json: Text, lock: Text, v: string, w: string, tag: string, x: string)
    requires Lawful(c) && ReadsThem(c) && TextsSay(c, json, lock, v) && NormalizeTag(tag) == Some(x)
    requires Settable(v) && Settable(w) && Settable(x) && Settable("0.9.0")
    ensures SetReleaseVersion(c, Files(json, lock, v, w, true), tag).Some?
  {
    FilesAreRead(c, json, lock, v, w, true);
    ShownFilesAreSet(c, json, lock, v, w, x);
    WrittenSays(c, x);
    FilesAreRead(c, c.encode(Versioned(x)), c.encode(Locked(x)), x, w, true);
  }

  /** A tree that says `v`, and `w` in the string. */
  function Example(c: Formats, v: string, w: string, modes: map<string, string>, rest: map<string, string>): Tree {
    Tree(Files(c.encode(Versioned(v)), c.encode(Locked(v)), v, w, false), modes, rest)
  }

  lemma KeepsBump(text: Text, v: string, m: nat, n: nat)
    requires PackageVersionAt(Kinds(text)) == Some(m) && PackageVersionAt(Kinds(Trim(text))) == Some(n)
    requires m != FirstLine(text) + n && !Says(text, m, v)
    ensures !PackageErases(text, v)
  {
  }

  lemma QuotingSays(v: string, w: string)
    requires Settable(w) && v != w
    ensures !Says(TextOf(Quoting(v, w)), 4, v) && FirstLine(TextOf(Quoting(v, w))) == 0
  {
    VersLineIs(w, w);
    assert TextOf(Quoting(v, w))[4] == VersLine(w);
    SolidStrips("[package]", true);
    assert TextOf(Quoting(v, w))[0] == Indent(true, "[package]");
  }

  lemma QuotingKeepsBump(v: string, w: string)
    requires Settable(v) && Settable(w) && v != w
    ensures !PackageErases(TextOf(Quoting(v, w)), v)
  {
    TextKinds(Quoting(v, w));
    TextKinds(QuotingShown(v, w));
    QuotingPlaces(v, w);
    QuotingIsTrimmed(v, w);
    QuotingSays(v, w);
    KeepsBump(TextOf(Quoting(v, w)), v, 4, 1);
  }

  lemma ExampleChanges(c: Formats, v: string, w: string, tag: string, t: Tree)
    requires Lawful(c) && IgnoresMargins(c) && ReadsThem(c) && NormalizeTag(tag) == Some(v) && v != w
    requires Settable(v) && Settable(w) && Settable("0.9.0") && NormalizeTag("v0.0.0") == Some("0.0.0") && Settable("0.0.0")
    requires t.versioned == Files(c.encode(Versioned(v)), c.encode(Locked(v)), v, w, false)
    ensures Bump(c, t, tag).Some? && Digest(c, t).Some? && Digest(c, Bump(c, t, tag).value) != Digest(c, t)
  {
    var json, lock := c.encode(Versioned(v)), c.encode(Locked(v));
    WrittenSays(c, v);
    FilesAreBumped(c, json, lock, v, w, tag);
    FilesAreShown(c, json, lock, v, w);
    ShownFilesAreBumped(c, Trim(json), Trim(lock), v, w, "v0.0.0", "0.0.0");
    DigestIs(c, t, t.versioned);
    QuotingKeepsBump(v, w);
    DigestIgnoresBumpIff(c, t, tag);
  }

  /** A bump to 1.0.0 changes the source digest of this tree, whatever else is in it and whichever
      readers are used. */
  lemma BumpCanChangeDigest(c: Formats, modes: map<string, string>, rest: map<string, string>)
    requires Lawful(c) && IgnoresMargins(c) && ReadsThem(c)
    ensures var t := Example(c, "1.0.0", "0.9.0", modes, rest);
      && Bump(c, t, "v1.0.0").Some? && Digest(c, t).Some?
      && Digest(c, Bump(c, t, "v1.0.0").value) != Digest(c, t)
  {
    Tags();
    assert "0.9.0"[0] != "1.0.0"[0];
    ExampleChanges(c, "1.0.0", "0.9.0", "v1.0.0", Example(c, "1.0.0", "0.9.0", modes, rest));
  }
}
