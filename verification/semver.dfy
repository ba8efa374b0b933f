// Release version strings and the order the mobile web manifest compares them
// by, against the precedence of section 11 of SemVer 2.0.0.
module SemVer {

  datatype Result<+T> = Ok(value: T) | CheckError

  // ------------------------------------------------------ lexicographic order

  /** `a` comes before `b`: they agree up to some place, where `a` ends or has the smaller element. */
  predicate LexLess<T(==)>(less: (T, T) -> bool, a: seq<T>, b: seq<T>) {
    exists i :: 0 <= i <= |a| && DiffersAt(less, a, b, i)
  }

  predicate DiffersAt<T(==)>(less: (T, T) -> bool, a: seq<T>, b: seq<T>, i: nat)
    requires i <= |a|
  {
    i < |b| && a[..i] == b[..i] && (i < |a| ==> less(a[i], b[i]))
  }

  ghost predicate StrictTotal<T(!new)>(less: (T, T) -> bool) {
    && (forall x :: !less(x, x))
    && (forall x, y, z :: less(x, y) && less(y, z) ==> less(x, z))
    && (forall x, y :: less(x, y) || less(y, x) || x == y)
  }

  lemma LexIrreflexive<T(!new)>(less: (T, T) -> bool, a: seq<T>)
    requires StrictTotal(less)
    ensures !LexLess(less, a, a)
  {
  }

  lemma LexTransitive<T(!new)>(less: (T, T) -> bool, a: seq<T>, b: seq<T>, c: seq<T>)
    requires StrictTotal(less) && LexLess(less, a, b) && LexLess(less, b, c)
    ensures LexLess(less, a, c)
  {
    var i :| 0 <= i <= |a| && DiffersAt(less, a, b, i);
    var j :| 0 <= j <= |b| && DiffersAt(less, b, c, j);
    var k := if i < j then i else j;
    assert a[..k] == a[..i][..k] && b[..k] == b[..i][..k] && b[..k] == b[..j][..k] && c[..k] == c[..j][..k];
    assert DiffersAt(less, a, c, k);
  }

  lemma LexTotal<T(!new)>(less: (T, T) -> bool, a: seq<T>, b: seq<T>)
    requires StrictTotal(less)
    ensures LexLess(less, a, b) || LexLess(less, b, a) || a == b
  {
    var i := 0;
    while i < |a| && i < |b| && a[i] == b[i]
      invariant i <= |a| && i <= |b| && a[..i] == b[..i]
    {
      i := i + 1;
    }
    if i < |b| && (i == |a| || less(a[i], b[i])) {
      assert DiffersAt(less, a, b, i);
    } else if i < |a| {
      assert DiffersAt(less, b, a, i);
    } else {
      assert a == a[..i] && b == b[..i];
    }
  }

  lemma LexIsStrictTotal<T(!new)>(less: (T, T) -> bool)
    requires StrictTotal(less)
    ensures forall a :: !LexLess(less, a, a)
    ensures forall a, b, c :: LexLess(less, a, b) && LexLess(less, b, c) ==> LexLess(less, a, c)
    ensures forall a, b :: LexLess(less, a, b) || LexLess(less, b, a) || a == b
  {
    forall a: seq<T> ensures !LexLess(less, a, a) {
      LexIrreflexive(less, a);
    }
    forall a, b, c | LexLess(less, a, b) && LexLess(less, b, c) ensures LexLess(less, a, c) {
      LexTransitive(less, a, b, c);
    }
    forall a, b ensures LexLess(less, a, b) || LexLess(less, b, a) || a == b {
      LexTotal(less, a, b);
    }
  }

  // ------------------------------------------------------------------ parsing

  predicate IsSpace(c: char) {
    '\t' <= c <= '\r' || '\U{1c}' <= c <= ' ' || c == '\U{85}' || c == '\U{a0}' || c == '\U{1680}'
    || '\U{2000}' <= c <= '\U{200a}' || c == '\U{2028}' || c == '\U{2029}' || c == '\U{202f}'
    || c == '\U{205f}' || c == '\U{3000}'
  }

  function Strip(s: string): string {
    if s == "" then s
    else if IsSpace(s[0]) then Strip(s[1..])
    else if IsSpace(s[|s| - 1]) then Strip(s[..|s| - 1])
    else s
  }

  /** The first place of `c`, or the length. */
  function Find(s: string, c: char): (i: nat)
    ensures i <= |s| && c !in s[..i] && (i < |s| ==> s[i] == c)
  {
    if s == "" || s[0] == c then 0 else
      var i := 1 + Find(s[1..], c);
      assert s[..i] == [s[0]] + s[1..][..i - 1];
      i
  }

  function Split(s: string, c: char): (parts: seq<string>)
    ensures |parts| >= 1
    decreases |s|
  {
    var i := Find(s, c);
    if i == |s| then [s] else [s[..i]] + Split(s[i + 1..], c)
  }

  function Join(parts: seq<string>, c: char): string
    requires |parts| >= 1
  {
    if |parts| == 1 then parts[0] else parts[0] + [c] + Join(parts[1..], c)
  }

  lemma {:induction false} JoinOfSplit(s: string, c: char)
    ensures Join(Split(s, c), c) == s
    decreases |s|
  {
    var i := Find(s, c);
    if i < |s| {
      JoinOfSplit(s[i + 1..], c);
      assert Split(s, c)[1..] == Split(s[i + 1..], c);
      assert s == s[..i] + [c] + s[i + 1..];
    } else {
      assert s[..i] == s;
    }
  }

  predicate IsDigit(c: char) {
    '0' <= c <= '9'
  }

  predicate IsDigits(s: string) {
    s != "" && forall i :: 0 <= i < |s| ==> IsDigit(s[i])
  }

  predicate IsIdentifier(s: string) {
    s != "" && forall i :: 0 <= i < |s| ==> IsDigit(s[i]) || 'A' <= s[i] <= 'Z' || 'a' <= s[i] <= 'z' || s[i] == '-'
  }

  function CoreText(v: string): seq<string> {
    Split(v[..Find(v, '-')], '.')
  }

  function PreText(v: string): seq<string>
    requires Find(v, '-') < |v|
  {
    Split(v[Find(v, '-') + 1..], '.')
  }

  /** `major.minor.patch[-identifier[.identifier]...]` */
  predicate IsRelease(v: string) {
    && |CoreText(v)| == 3
    && (forall i :: 0 <= i < 3 ==> IsDigits(CoreText(v)[i]))
    && (Find(v, '-') < |v| ==> forall i :: 0 <= i < |PreText(v)| ==> IsIdentifier(PreText(v)[i]))
  }

  function NormalizeReleaseVersion(raw: string): Result<string> {
    var stripped := Strip(raw);
    var value := if "v" <= stripped then stripped[1..] else stripped;
    if value == "" || '/' in value || '\\' in value || (exists i :: 0 <= i < |value| && IsSpace(value[i])) then CheckError
    else if !IsRelease(value) then CheckError
    else Ok(value)
  }

  function Number(s: string): nat
    requires IsDigits(s)
  {
    var digit := s[|s| - 1] as int - '0' as int;
    if |s| == 1 then digit else 10 * Number(s[..|s| - 1]) + digit
  }

  function Digit(c: char): nat
    requires IsDigit(c)
  {
    c as nat - '0' as nat
  }

  datatype Identifier = Numeric(n: nat) | Text(s: string)

  datatype Key = Key(core: seq<nat>, pre: seq<Identifier>)

  const STABLE := [Text("")]

  function IdentifierOf(s: string): Identifier {
    if IsDigits(s) then Numeric(Number(s)) else Text(s)
  }

  function Identifiers(parts: seq<string>): seq<Identifier> {
    seq(|parts|, i requires 0 <= i < |parts| => IdentifierOf(parts[i]))
  }

  function Numbers(parts: seq<string>): seq<nat>
    requires forall i :: 0 <= i < |parts| ==> IsDigits(parts[i])
  {
    seq(|parts|, i requires 0 <= i < |parts| => Number(parts[i]))
  }

  function VersionKey(v: string): Key
    requires IsRelease(v)
  {
    Key(Numbers(CoreText(v)), if Find(v, '-') == |v| then STABLE else Identifiers(PreText(v)))
  }

  /** The key of a version of three digits. */
  lemma DigitVersion(a: char, b: char, c: char)
    requires IsDigit(a) && IsDigit(b) && IsDigit(c)
    ensures var v := [a, '.', b, '.', c];
      IsRelease(v) && IsCanonical(v) && VersionKey(v) == Key([Digit(a), Digit(b), Digit(c)], STABLE)
  {
    var v := [a, '.', b, '.', c];
    assert Find(v, '-') == 5 && v[..5] == v;
    assert v[1] == '.' && Find(v, '.') == 1;
    var w := [b, '.', c];
    assert v[2..] == w && w[1] == '.' && Find(w, '.') == 1;
    assert w[2..] == [c] && Split([c], '.') == [[c]];
    assert w[..1] == [b] && Split(w, '.') == [[b], [c]];
    assert v[..1] == [a] && Split(v, '.') == [[a], [b], [c]];
  }

  // --------------------------------------------------------------- comparison

  predicate NatLess(x: nat, y: nat) { x < y }

  predicate CharLess(x: char, y: char) { x < y }

  predicate IdentifierLess(x: Identifier, y: Identifier) {
    match (x, y)
    case (Numeric(m), Numeric(n)) => m < n
    case (Numeric(_), Text(_)) => true
    case (Text(_), Numeric(_)) => false
    case (Text(s), Text(t)) => LexLess(CharLess, s, t)
  }

  /** The walk over two identifier lists from place `i` on. */
  function ComparePre(left: seq<Identifier>, right: seq<Identifier>, i: nat): int
    requires i <= |left| && i <= |right|
    decreases |left| - i
  {
    if i < |left| && i < |right| then
      if left[i] == right[i] then ComparePre(left, right, i + 1)
      else if left[i].Numeric? != right[i].Numeric? then (if left[i].Numeric? then -1 else 1)
      else if IdentifierLess(left[i], right[i]) then -1 else 1
    else if |left| < |right| then -1 else 1
  }

  function CompareNormalized(left: string, right: string): int
    requires IsRelease(left) && IsRelease(right)
  {
    if left == right then 0 else
    var l, r := VersionKey(left), VersionKey(right);
    if l.core != r.core then (if LexLess(NatLess, l.core, r.core) then -1 else 1)
    else if l.pre == STABLE || r.pre == STABLE then (if l.pre == STABLE then 1 else -1)
    else ComparePre(l.pre, r.pre, 0)
  }

  function CompareReleaseVersions(left: string, right: string): Result<int> {
    match (NormalizeReleaseVersion(left), NormalizeReleaseVersion(right))
    case (Ok(l), Ok(r)) => Ok(CompareNormalized(l, r))
    case _ => CheckError
  }

  // -------------------------------------------------- section 11 of SemVer 2.0

  /** Precedence: the core numbers first; then a prerelease before its release; then the identifiers
      one by one, numbers before texts, and the shorter list first when all before are equal. */
  predicate Precedes(a: Key, b: Key) {
    || LexLess(NatLess, a.core, b.core)
    || (a.core == b.core && a.pre != STABLE && (b.pre == STABLE || LexLess(IdentifierLess, a.pre, b.pre)))
  }

  lemma BaseOrders()
    ensures StrictTotal(NatLess) && StrictTotal(CharLess) && StrictTotal(IdentifierLess)
  {
    LexIsStrictTotal(CharLess);
  }

  lemma PrecedesIsStrictTotal(a: Key, b: Key, c: Key)
    ensures !Precedes(a, a)
    ensures Precedes(a, b) && Precedes(b, c) ==> Precedes(a, c)
    ensures Precedes(a, b) || Precedes(b, a) || a == b
  {
    BaseOrders();
    LexIsStrictTotal(NatLess);
    LexIsStrictTotal(IdentifierLess);
  }

  lemma {:induction false} ComparePreIsLex(left: seq<Identifier>, right: seq<Identifier>, i: nat)
    requires i <= |left| && i <= |right| && left[..i] == right[..i]
    ensures ComparePre(left, right, i) == (if LexLess(IdentifierLess, left, right) then -1 else 1)
    decreases |left| - i
  {
    BaseOrders();
    LexIsStrictTotal(IdentifierLess);
    if i < |left| && i < |right| {
      if left[i] == right[i] {
        ComparePreIsLex(left, right, i + 1);
      } else if IdentifierLess(left[i], right[i]) {
        assert DiffersAt(IdentifierLess, left, right, i);
      } else {
        assert DiffersAt(IdentifierLess, right, left, i);
      }
    } else if |left| < |right| {
      assert DiffersAt(IdentifierLess, left, right, i);
    } else if i < |left| {
      assert DiffersAt(IdentifierLess, right, left, i);
    } else {
      assert left == left[..i] && right == right[..i];
    }
  }

  /** The comparison says -1 exactly for precedence, and 0 only for the same text: it agrees with
      section 11 except that two spellings of one version compare as greater both ways. */
  lemma CompareIsPrecedence(left: string, right: string)
    requires IsRelease(left) && IsRelease(right)
    ensures CompareNormalized(left, right) ==
      if left == right then 0 else if Precedes(VersionKey(left), VersionKey(right)) then -1 else 1
  {
    BaseOrders();
    LexIsStrictTotal(NatLess);
    ComparePreIsLex(VersionKey(left).pre, VersionKey(right).pre, 0);
  }

  /** The comparison is antisymmetric exactly on pairs that are equal or differ in precedence. */
  lemma AntisymmetricIff(left: string, right: string)
    requires IsRelease(left) && IsRelease(right)
    ensures CompareNormalized(left, right) == -CompareNormalized(right, left)
      <==> (left == right || VersionKey(left) != VersionKey(right))
  {
    CompareIsPrecedence(left, right);
    CompareIsPrecedence(right, left);
    PrecedesIsStrictTotal(VersionKey(left), VersionKey(right), VersionKey(left));
  }

  // ---------------------------------------------------- without leading zeros

  predicate CanonicalPart(s: string) {
    IsDigits(s) ==> s == "0" || s[0] != '0'
  }

  /** No numeric part has a leading zero. */
  predicate IsCanonical(v: string) {
    && IsRelease(v)
    && (forall i :: 0 <= i < |CoreText(v)| ==> CanonicalPart(CoreText(v)[i]))
    && (Find(v, '-') < |v| ==> forall i :: 0 <= i < |PreText(v)| ==> CanonicalPart(PreText(v)[i]))
  }

  lemma {:induction false} PositiveNumber(s: string)
    requires IsDigits(s) && s[0] != '0'
    ensures Number(s) > 0
  {
    if |s| > 1 {
      PositiveNumber(s[..|s| - 1]);
    }
  }

  lemma {:induction false} NumberIsInjective(s: string, t: string)
    requires IsDigits(s) && IsDigits(t) && CanonicalPart(s) && CanonicalPart(t) && Number(s) == Number(t)
    ensures s == t
    decreases |s|
  {
    var a, b := s[|s| - 1], t[|t| - 1];
    if |s| == 1 && |t| == 1 {
      assert a == b;
    } else if |s| == 1 {
      PositiveNumber(t[..|t| - 1]);
    } else if |t| == 1 {
      PositiveNumber(s[..|s| - 1]);
    } else {
      var p, q := Number(s[..|s| - 1]), Number(t[..|t| - 1]);
      LastDigit(p, a as int - '0' as int, q, b as int - '0' as int);
      NumberIsInjective(s[..|s| - 1], t[..|t| - 1]);
      assert s == s[..|s| - 1] + [a] && t == t[..|t| - 1] + [b];
    }
  }

  lemma LastDigit(p: nat, a: int, q: nat, b: int)
    requires 0 <= a < 10 && 0 <= b < 10 && 10 * p + a == 10 * q + b
    ensures p == q && a == b
  {
  }

  lemma PartIsInjective(s: string, t: string)
    requires CanonicalPart(s) && CanonicalPart(t) && IdentifierOf(s) == IdentifierOf(t)
    ensures s == t
  {
    if IsDigits(s) {
      NumberIsInjective(s, t);
    }
  }

  lemma PartsAreInjective(a: seq<string>, b: seq<string>)
    requires forall i :: 0 <= i < |a| ==> CanonicalPart(a[i])
    requires forall i :: 0 <= i < |b| ==> CanonicalPart(b[i])
    requires Identifiers(a) == Identifiers(b)
    ensures a == b
  {
    assert |a| == |Identifiers(a)| == |Identifiers(b)| == |b|;
    forall i | 0 <= i < |a| ensures a[i] == b[i] {
      assert Identifiers(a)[i] == Identifiers(b)[i];
      PartIsInjective(a[i], b[i]);
    }
  }

  lemma CoreIsInjective(a: seq<string>, b: seq<string>)
    requires forall i :: 0 <= i < |a| ==> IsDigits(a[i]) && CanonicalPart(a[i])
    requires forall i :: 0 <= i < |b| ==> IsDigits(b[i]) && CanonicalPart(b[i])
    requires Numbers(a) == Numbers(b)
    ensures a == b
  {
    assert |a| == |Numbers(a)| == |Numbers(b)| == |b|;
    forall i | 0 <= i < |a| ensures a[i] == b[i] {
      assert Numbers(a)[i] == Numbers(b)[i];
      NumberIsInjective(a[i], b[i]);
    }
  }

  lemma SplitIsInjective(s: string, t: string, c: char)
    requires Split(s, c) == Split(t, c)
    ensures s == t
  {
    JoinOfSplit(s, c);
    JoinOfSplit(t, c);
  }

  lemma SameCore(left: string, right: string)
    requires IsCanonical(left) && IsCanonical(right) && VersionKey(left).core == VersionKey(right).core
    ensures left[..Find(left, '-')] == right[..Find(right, '-')]
  {
    CoreIsInjective(CoreText(left), CoreText(right));
    SplitIsInjective(left[..Find(left, '-')], right[..Find(right, '-')], '.');
  }

  lemma StableIff(v: string)
    requires IsRelease(v)
    ensures VersionKey(v).pre == STABLE <==> Find(v, '-') == |v|
  {
    if Find(v, '-') < |v| {
      var part := PreText(v)[0];
      assert IsIdentifier(part) && VersionKey(v).pre[0] == IdentifierOf(part);
      assert IdentifierOf(part) != STABLE[0];
    }
  }

  lemma SamePre(left: string, right: string)
    requires IsCanonical(left) && IsCanonical(right) && VersionKey(left).pre == VersionKey(right).pre
    ensures left[Find(left, '-')..] == right[Find(right, '-')..]
  {
    var i, j := Find(left, '-'), Find(right, '-');
    StableIff(left);
    StableIff(right);
    if i < |left| {
      SamePreText(left, right);
      FromDash(left);
      FromDash(right);
    }
  }

  lemma FromDash(v: string)
    requires Find(v, '-') < |v|
    ensures v[Find(v, '-')..] == ['-'] + v[Find(v, '-') + 1..]
  {
    FromPlace(v, Find(v, '-'));
  }

  lemma FromPlace(s: string, i: nat)
    requires i < |s|
    ensures s[i..] == [s[i]] + s[i + 1..]
  {
  }

  lemma SamePreText(left: string, right: string)
    requires IsCanonical(left) && IsCanonical(right) && Find(left, '-') < |left| && Find(right, '-') < |right|
    requires Identifiers(PreText(left)) == Identifiers(PreText(right))
    ensures left[Find(left, '-') + 1..] == right[Find(right, '-') + 1..]
  {
    PartsAreInjective(PreText(left), PreText(right));
    SplitIsInjective(left[Find(left, '-') + 1..], right[Find(right, '-') + 1..], '.');
  }

  /** A version without leading zeros has only one spelling. */
  lemma CanonicalKeysAreDistinct(left: string, right: string)
    requires IsCanonical(left) && IsCanonical(right) && VersionKey(left) == VersionKey(right)
    ensures left == right
  {
    var i, j := Find(left, '-'), Find(right, '-');
    SameCore(left, right);
    SamePre(left, right);
    assert left == left[..i] + left[i..] && right == right[..j] + right[j..];
  }

  /** On versions without leading zeros the comparison is a total order. */
  lemma CanonicalTotalOrder(a: string, b: string, c: string)
    requires IsCanonical(a) && IsCanonical(b) && IsCanonical(c)
    ensures CompareNormalized(a, b) == -CompareNormalized(b, a)
    ensures CompareNormalized(a, b) == 0 <==> a == b
    ensures CompareNormalized(a, b) <= 0 && CompareNormalized(b, c) <= 0 ==> CompareNormalized(a, c) <= 0
  {
    if VersionKey(a) == VersionKey(b) {
      CanonicalKeysAreDistinct(a, b);
    }
    AntisymmetricIff(a, b);
    CompareIsPrecedence(a, b);
    CompareIsPrecedence(b, c);
    CompareIsPrecedence(a, c);
    PrecedesIsStrictTotal(VersionKey(a), VersionKey(b), VersionKey(c));
  }

  lemma {:induction false} LeadingZeroIsNothing(s: string)
    requires IsDigits(s)
    ensures IsDigits("0" + s) && Number("0" + s) == Number(s)
  {
    var t := "0" + s;
    assert t[|t| - 1] == s[|s| - 1];
    if |s| == 1 {
      assert t[..|t| - 1] == "0";
    } else {
      LeadingZeroIsNothing(s[..|s| - 1]);
      assert t[..|t| - 1] == "0" + s[..|s| - 1];
    }
  }

  lemma SplitWithPrefix(s: string, c: char)
    requires c != '0'
    ensures Split("0" + s, c) == ["0" + Split(s, c)[0]] + Split(s, c)[1..]
  {
    var t, i := "0" + s, Find(s, c);
    assert forall k :: 0 < k < |t| ==> t[k] == s[k - 1];
    FindIn(t, c, i + 1);
    assert t[..i + 1] == "0" + s[..i];
    if i < |s| {
      assert t[i + 2..] == s[i + 1..];
    }
  }

  lemma FindWithPrefix(v: string)
    ensures Find("0" + v, '-') == 1 + Find(v, '-')
  {
  }

  lemma LeadingZeroCore(v: string)
    ensures CoreText("0" + v) == ["0" + CoreText(v)[0]] + CoreText(v)[1..]
  {
    FindWithPrefix(v);
    assert ("0" + v)[..Find(v, '-') + 1] == "0" + v[..Find(v, '-')];
    SplitWithPrefix(v[..Find(v, '-')], '.');
  }

  lemma LeadingZeroPre(v: string)
    requires Find(v, '-') < |v|
    ensures Find("0" + v, '-') < |"0" + v| && PreText("0" + v) == PreText(v)
  {
  }

  lemma LeadingZeroNumbers(parts: seq<string>)
    requires |parts| >= 1 && forall i :: 0 <= i < |parts| ==> IsDigits(parts[i])
    ensures var t := ["0" + parts[0]] + parts[1..];
      (forall i :: 0 <= i < |t| ==> IsDigits(t[i])) && Numbers(t) == Numbers(parts)
  {
    LeadingZeroIsNothing(parts[0]);
  }

  lemma LeadingZeroSameKey(v: string)
    requires IsRelease(v)
    ensures IsRelease("0" + v) && VersionKey("0" + v) == VersionKey(v)
  {
    LeadingZeroCore(v);
    FindWithPrefix(v);
    if Find(v, '-') < |v| {
      LeadingZeroPre(v);
    }
    LeadingZeroNumbers(CoreText(v));
  }

  /** With a leading zero it is not: every version and its spelling with one more zero in front
      each compare as the greater one. */
  lemma LeadingZeroBreaksAntisymmetry(v: string)
    requires IsRelease(v)
    ensures IsRelease("0" + v) && CompareNormalized(v, "0" + v) == 1 && CompareNormalized("0" + v, v) == 1
  {
    LeadingZeroSameKey(v);
    CompareIsPrecedence(v, "0" + v);
    CompareIsPrecedence("0" + v, v);
    PrecedesIsStrictTotal(VersionKey(v), VersionKey(v), VersionKey(v));
  }

  lemma FindIn(s: string, c: char, i: nat)
    requires i <= |s| && c !in s[..i] && (i < |s| ==> s[i] == c)
    ensures Find(s, c) == i
  {
  }

  // ------------------------------------------------------------ normalization

  lemma {:induction false} StripNothing(s: string)
    requires forall i :: 0 <= i < |s| ==> !IsSpace(s[i])
    ensures Strip(s) == s
  {
  }

  lemma {:induction false} PartsAreWithin(s: string, c: char, k: nat)
    requires k < |s| && s[k] != c
    ensures exists i, j :: 0 <= i < |Split(s, c)| && 0 <= j < |Split(s, c)[i]| && Split(s, c)[i][j] == s[k]
    decreases |s|
  {
    var n := Find(s, c);
    var parts := Split(s, c);
    if k < n {
      assert parts[0][k] == s[k];
    } else {
      var rest := Split(s[n + 1..], c);
      PartsAreWithin(s[n + 1..], c, k - n - 1);
      var i, j :| 0 <= i < |rest| && 0 <= j < |rest[i]| && rest[i][j] == s[k];
      assert parts[i + 1] == rest[i];
    }
  }

  /** What a release version is made of. */
  lemma ReleaseCharacters(v: string, k: nat)
    requires IsRelease(v) && k < |v|
    ensures IsDigit(v[k]) || v[k] == '.' || v[k] == '-' || 'A' <= v[k] <= 'Z' || 'a' <= v[k] <= 'z'
    ensures k == 0 ==> IsDigit(v[k])
  {
    var n := Find(v, '-');
    if k < n && v[k] != '.' {
      PartsAreWithin(v[..n], '.', k);
      var i, j :| 0 <= i < |CoreText(v)| && 0 <= j < |CoreText(v)[i]| && CoreText(v)[i][j] == v[..n][k];
      assert IsDigits(CoreText(v)[i]);
    } else if k > n && v[k] != '.' {
      PartsAreWithin(v[n + 1..], '.', k - n - 1);
      var i, j :| 0 <= i < |PreText(v)| && 0 <= j < |PreText(v)[i]| && PreText(v)[i][j] == v[n + 1..][k - n - 1];
      assert IsIdentifier(PreText(v)[i]);
    }
    if k == 0 {
      var first := CoreText(v)[0];
      assert IsDigits(first);
      assert first == v[..n][..Find(v[..n], '.')];
      assert first[0] == v[0];
    }
  }

  /** Normalizing is idempotent, and its fixed points are exactly the release versions. */
  lemma NormalizedIsFixed(v: string)
    ensures NormalizeReleaseVersion(v) == Ok(v) <==> IsRelease(v)
  {
    if IsRelease(v) {
      forall k | 0 <= k < |v| ensures !IsSpace(v[k]) && v[k] != '/' && v[k] != '\\' {
        ReleaseCharacters(v, k);
      }
      StripNothing(v);
      assert v != "" by {
        assert v == "" ==> CoreText(v) == [""];
      }
      ReleaseCharacters(v, 0);
    }
  }

  /** `t` with blanks around it. */
  ghost predicate Surrounds(s: string, i: nat, t: string) {
    && i + |t| <= |s| && s[i..i + |t|] == t
    && forall k :: (0 <= k < i || i + |t| <= k < |s|) ==> IsSpace(s[k])
  }

  /** Stripping takes off all the blanks at both ends and nothing else. */
  lemma {:induction false} StripSurrounds(s: string) returns (i: nat)
    ensures Surrounds(s, i, Strip(s))
    ensures Strip(s) != "" ==> !IsSpace(Strip(s)[0]) && !IsSpace(Strip(s)[|Strip(s)| - 1])
    decreases |s|
  {
    i := 0;
    if s != "" && IsSpace(s[0]) {
      i := StripSurrounds(s[1..]);
      BlankBefore(s, i, Strip(s));
      i := i + 1;
    } else if s != "" && IsSpace(s[|s| - 1]) {
      i := StripSurrounds(s[..|s| - 1]);
      BlankAfter(s, i, Strip(s));
    } else {
      assert s[0..|s|] == s;
    }
  }

  lemma BlankBefore(s: string, i: nat, t: string)
    requires s != "" && IsSpace(s[0]) && Surrounds(s[1..], i, t)
    ensures Surrounds(s, i + 1, t)
  {
    assert s[i + 1..i + 1 + |t|] == s[1..][i..i + |t|];
    assert forall k :: 0 < k < |s| ==> s[k] == s[1..][k - 1];
  }

  lemma BlankAfter(s: string, i: nat, t: string)
    requires s != "" && IsSpace(s[|s| - 1]) && Surrounds(s[..|s| - 1], i, t)
    ensures Surrounds(s, i, t)
  {
    assert s[i..i + |t|] == s[..|s| - 1][i..i + |t|];
    assert forall k :: 0 <= k < |s| - 1 ==> s[k] == s[..|s| - 1][k];
  }

  lemma {:induction false} StripFinds(s: string, i: nat, t: string)
    requires Surrounds(s, i, t) && t != "" && !IsSpace(t[0]) && !IsSpace(t[|t| - 1])
    ensures Strip(s) == t
    decreases |s|
  {
    assert s[i] == t[0] && s[i + |t| - 1] == t[|t| - 1];
    if i > 0 {
      assert s[1..][i - 1..i - 1 + |t|] == t;
      StripFinds(s[1..], i - 1, t);
    } else if |t| < |s| {
      assert s[..|s| - 1][..|t|] == t;
      StripFinds(s[..|s| - 1], 0, t);
    } else {
      assert s == t;
    }
  }

  /** Which texts normalize, and to what: a release version, with a `v` before it or not, between blanks. */
  lemma NormalizesIff(raw: string, v: string)
    ensures NormalizeReleaseVersion(raw) == Ok(v) <==>
      IsRelease(v) && exists i :: 0 <= i <= |raw| && (Surrounds(raw, i, v) || Surrounds(raw, i, "v" + v))
  {
    if NormalizeReleaseVersion(raw) == Ok(v) {
      var i := StripSurrounds(raw);
      assert Strip(raw) == v || Strip(raw) == "v" + v;
    } else if IsRelease(v) {
      ReleaseEnds(v);
      forall k | 0 <= k < |v| ensures !IsSpace(v[k]) && v[k] != '/' && v[k] != '\\' {
        ReleaseCharacters(v, k);
      }
      if i :| 0 <= i <= |raw| && Surrounds(raw, i, v) {
        StripFinds(raw, i, v);
      }
      if i :| 0 <= i <= |raw| && Surrounds(raw, i, "v" + v) {
        StripFinds(raw, i, "v" + v);
      }
    }
  }

  lemma ReleaseEnds(v: string)
    requires IsRelease(v)
    ensures v != "" && IsDigit(v[0]) && !IsSpace(v[|v| - 1])
  {
    assert v != "" by {
      assert v == "" ==> CoreText(v) == [""];
    }
    ReleaseCharacters(v, 0);
    ReleaseCharacters(v, |v| - 1);
  }

  // ---------------------------------------------------- the text of a version

  lemma {:induction false} SplitOfJoin(parts: seq<string>, c: char)
    requires parts != [] && forall i :: 0 <= i < |parts| ==> c !in parts[i]
    ensures Split(Join(parts, c), c) == parts
  {
    var s := Join(parts, c);
    if |parts| == 1 {
      FindIn(s, c, |s|);
      assert s[..|s|] == s;
    } else {
      SplitOfJoin(parts[1..], c);
      FindIn(s, c, |parts[0]|);
      assert s[|parts[0]| + 1..] == Join(parts[1..], c);
      assert s[..|parts[0]|] == parts[0];
    }
  }

  /** The text of three numbers and, unless it is stable, some identifiers. */
  function VersionOf(core: seq<string>, pre: seq<string>): string
    requires core != []
  {
    Join(core, '.') + if pre == [] then "" else "-" + Join(pre, '.')
  }

  predicate AllDigits(core: seq<string>) {
    forall i :: 0 <= i < |core| ==> IsDigits(core[i])
  }

  predicate AllIdentifiers(pre: seq<string>) {
    forall i :: 0 <= i < |pre| ==> IsIdentifier(pre[i])
  }

  lemma {:induction false} JoinIsWithin(parts: seq<string>, c: char, d: char)
    requires parts != [] && c != d && forall i :: 0 <= i < |parts| ==> d !in parts[i]
    ensures d !in Join(parts, c)
  {
    if |parts| > 1 {
      JoinIsWithin(parts[1..], c, d);
    }
  }

  lemma NoneInDigits(core: seq<string>)
    requires AllDigits(core)
    ensures forall i :: 0 <= i < |core| ==> '.' !in core[i] && '-' !in core[i]
  {
    forall i | 0 <= i < |core| ensures '.' !in core[i] && '-' !in core[i] {
      assert IsDigits(core[i]);
    }
  }

  lemma NoDotInIdentifiers(pre: seq<string>)
    requires AllIdentifiers(pre)
    ensures forall i :: 0 <= i < |pre| ==> '.' !in pre[i]
  {
    forall i | 0 <= i < |pre| ensures '.' !in pre[i] {
      assert IsIdentifier(pre[i]);
    }
  }

  /** Which characters are stripped: those with the White_Space property of Unicode, and the four
      information separators. */
  lemma SpacesAre(c: char)
    ensures IsSpace(c) <==> c as int in {9, 10, 11, 12, 13, 28, 29, 30, 31, 32, 133, 160, 5760, 8192, 8193, 8194, 8195, 8196, 8197,
                                         8198, 8199, 8200, 8201, 8202, 8232, 8233, 8239, 8287, 12288}
  {
  }

  /** An identifier is made of ASCII digits, letters and dashes; one of digits alone stands for its number. */
  lemma IdentifierIff(s: string)
    ensures IsIdentifier(s) <==> |s| > 0 && forall i :: 0 <= i < |s| ==>
      48 <= s[i] as int <= 57 || 65 <= s[i] as int <= 90 || 97 <= s[i] as int <= 122 || s[i] as int == 45
    ensures IsDigits(s) <==> |s| > 0 && forall i :: 0 <= i < |s| ==> 48 <= s[i] as int <= 57
    ensures (exists n :: IdentifierOf(s) == Numeric(n)) <==> IsDigits(s)
    ensures IsDigits(s) ==> IdentifierOf(s) == Numeric(Number(s))
    ensures !IsDigits(s) ==> IdentifierOf(s) == Text(s)
  {
  }

  /** Numbers of one length are in the order of the first digits that differ; a zero in front changes
      nothing, so this orders any two. */
  lemma {:induction false} NumbersAreInDigitOrder(a: string, b: string, i: nat)
    requires IsDigits(a) && IsDigits(b) && |a| == |b| && i < |a| && a[..i] == b[..i] && a[i] < b[i]
    ensures Number(a) < Number(b) && Number("0" + a) == Number(a)
  {
    LeadingZeroIsNothing(a);
    var n := |a| - 1;
    if n > 0 {
      if i < n {
        assert a[..n][..i] == a[..i] == b[..i] == b[..n][..i];
        NumbersAreInDigitOrder(a[..n], b[..n], i);
      } else {
        assert a[..n] == b[..n];
      }
    }
  }

  /** The release versions are exactly the texts of three numbers and any identifiers, and the key of
      each is read off its parts. */
  lemma VersionTextIs(core: seq<string>, pre: seq<string>)
    requires |core| == 3 && AllDigits(core) && AllIdentifiers(pre)
    ensures var v := VersionOf(core, pre);
      && IsRelease(v) && CoreText(v) == core && (pre == [] <==> Find(v, '-') == |v|) && (pre != [] ==> PreText(v) == pre)
      && VersionKey(v) == Key(Numbers(core), if pre == [] then STABLE else Identifiers(pre))
  {
    CoreTextIs(core, pre);
    if pre != [] {
      PreTextIs(core, pre);
    }
  }

  lemma CoreTextIs(core: seq<string>, pre: seq<string>)
    requires |core| == 3 && AllDigits(core)
    ensures var v := VersionOf(core, pre);
      Find(v, '-') == |Join(core, '.')| && CoreText(v) == core && (pre == [] <==> Find(v, '-') == |v|)
  {
    var v := VersionOf(core, pre);
    NoneInDigits(core);
    JoinIsWithin(core, '.', '-');
    var n := |Join(core, '.')|;
    FindIn(v, '-', n);
    assert v[..n] == Join(core, '.');
    SplitOfJoin(core, '.');
  }

  lemma PreTextIs(core: seq<string>, pre: seq<string>)
    requires core != [] && pre != [] && AllIdentifiers(pre)
    requires Find(VersionOf(core, pre), '-') == |Join(core, '.')|
    ensures PreText(VersionOf(core, pre)) == pre
  {
    assert VersionOf(core, pre)[|Join(core, '.')| + 1..] == Join(pre, '.');
    NoDotInIdentifiers(pre);
    SplitOfJoin(pre, '.');
  }

  lemma ReleaseIsText(v: string) returns (core: seq<string>, pre: seq<string>)
    requires IsRelease(v)
    ensures |core| == 3 && AllDigits(core) && AllIdentifiers(pre) && v == VersionOf(core, pre)
  {
    core := CoreText(v);
    CoreIsJoined(v);
    if Find(v, '-') == |v| {
      pre := [];
      assert v[..|v|] == v;
    } else {
      pre := PreText(v);
      PreIsJoined(v);
      AroundDash(v);
    }
  }

  lemma CoreIsJoined(v: string)
    ensures Join(CoreText(v), '.') == v[..Find(v, '-')]
  {
    JoinOfSplit(v[..Find(v, '-')], '.');
  }

  lemma PreIsJoined(v: string)
    requires Find(v, '-') < |v|
    ensures Join(PreText(v), '.') == v[Find(v, '-') + 1..] && PreText(v) != []
  {
    SplitJoins(v[Find(v, '-') + 1..]);
  }

  lemma SplitJoins(s: string)
    ensures Split(s, '.') != [] && Join(Split(s, '.'), '.') == s
  {
    JoinOfSplit(s, '.');
  }

  lemma AroundDash(v: string)
    requires Find(v, '-') < |v|
    ensures v == v[..Find(v, '-')] + ("-" + v[Find(v, '-') + 1..])
  {
    FromDash(v);
  }

  /** A number without a leading zero, or no number. */
  predicate NoLeadingZero(part: string) {
    IsDigits(part) ==> |part| == 1 || part[0] != '0'
  }

  /** The strict versions are those none of whose numbers has a leading zero. */
  lemma CanonicalTextIff(core: seq<string>, pre: seq<string>)
    requires |core| == 3 && AllDigits(core) && AllIdentifiers(pre)
    ensures IsCanonical(VersionOf(core, pre)) <==>
      (forall i :: 0 <= i < 3 ==> NoLeadingZero(core[i])) && (forall i :: 0 <= i < |pre| ==> NoLeadingZero(pre[i]))
  {
    VersionTextIs(core, pre);
    forall s: string ensures CanonicalPart(s) <==> NoLeadingZero(s) {
      SamePart(s);
    }
  }

  lemma SamePart(s: string)
    ensures CanonicalPart(s) <==> NoLeadingZero(s)
  {
    assert |s| == 1 && s[0] == '0' ==> s == "0";
  }

  // ------------------------------------------------------- precedence, by law

  lemma CoreBefore(c: seq<nat>, d: seq<nat>, i: nat)
    requires i < |c| && i < |d| && c[..i] == d[..i] && c[i] < d[i]
    ensures LexLess(NatLess, c, d)
  {
    assert DiffersAt(NatLess, c, d, i);
  }

  lemma PreBefore(p: seq<Identifier>, x: Identifier, q: seq<Identifier>, y: Identifier, r: seq<Identifier>)
    requires IdentifierLess(x, y)
    ensures LexLess(IdentifierLess, p + [x] + q, p + [y] + r)
  {
    var a, b := p + [x] + q, p + [y] + r;
    assert a[..|p|] == p && b[..|p|] == p && a[|p|] == x && b[|p|] == y;
    assert DiffersAt(IdentifierLess, a, b, |p|);
  }

  /** Section 11 law by law: the first number that differs decides; a prerelease comes before its release;
      of two prereleases the first identifier that differs decides, numbers by value, numbers before
      texts, texts by their first character that differs, and a prefix before what it begins. */
  lemma PrecedenceLaws(c: Key, d: Key, i: nat, p: seq<Identifier>, q: seq<Identifier>, r: seq<Identifier>,
                       m: nat, n: nat, s: string, t: string, u: string, x: char, y: char)
    ensures i < |c.core| && i < |d.core| && c.core[..i] == d.core[..i] && c.core[i] < d.core[i] ==> Precedes(c, d)
    ensures p != STABLE ==> Precedes(Key(c.core, p), Key(c.core, STABLE))
    ensures p != STABLE && q != [] && p + q != STABLE ==> Precedes(Key(c.core, p), Key(c.core, p + q))
    ensures m < n ==> Precedes(Key(c.core, p + [Numeric(m)] + q), Key(c.core, p + [Numeric(n)] + r))
    ensures s != "" ==> Precedes(Key(c.core, p + [Numeric(m)] + q), Key(c.core, p + [Text(s)] + r))
    ensures x < y ==> Precedes(Key(c.core, p + [Text(s + [x] + t)] + q), Key(c.core, p + [Text(s + [y] + u)] + r))
    ensures s != "" && t != "" ==> Precedes(Key(c.core, p + [Text(s)] + q), Key(c.core, p + [Text(s + t)] + r))
  {
    if i < |c.core| && i < |d.core| && c.core[..i] == d.core[..i] && c.core[i] < d.core[i] {
      CoreBefore(c.core, d.core, i);
    }
    if q != [] {
      assert (p + q)[..|p|] == p && p[..|p|] == p;
      assert DiffersAt(IdentifierLess, p, p + q, |p|);
    }
    NumericLaws(c, p, q, r, m, n, s);
    TextLaws(c, p, q, r, s, t, u, x, y);
  }

  lemma NotStable(p: seq<Identifier>, x: Identifier, q: seq<Identifier>)
    requires x != Text("")
    ensures p + [x] + q != STABLE
  {
    assert (p + [x] + q)[|p|] == x;
  }

  lemma NumericLaws(c: Key, p: seq<Identifier>, q: seq<Identifier>, r: seq<Identifier>, m: nat, n: nat, s: string)
    ensures m < n ==> Precedes(Key(c.core, p + [Numeric(m)] + q), Key(c.core, p + [Numeric(n)] + r))
    ensures s != "" ==> Precedes(Key(c.core, p + [Numeric(m)] + q), Key(c.core, p + [Text(s)] + r))
  {
    NotStable(p, Numeric(m), q);
    if m < n {
      PreBefore(p, Numeric(m), q, Numeric(n), r);
    }
    PreBefore(p, Numeric(m), q, Text(s), r);
  }

  lemma TextLaws(c: Key, p: seq<Identifier>, q: seq<Identifier>, r: seq<Identifier>, s: string, t: string, u: string, x: char, y: char)
    ensures x < y ==> Precedes(Key(c.core, p + [Text(s + [x] + t)] + q), Key(c.core, p + [Text(s + [y] + u)] + r))
    ensures s != "" && t != "" ==> Precedes(Key(c.core, p + [Text(s)] + q), Key(c.core, p + [Text(s + t)] + r))
  {
    var a, b := s + [x] + t, s + [y] + u;
    if x < y {
      assert a[..|s|] == s && b[..|s|] == s && a[|s|] == x && b[|s|] == y;
      assert DiffersAt(CharLess, a, b, |s|);
      NotStable(p, Text(a), q);
      PreBefore(p, Text(a), q, Text(b), r);
    }
    if s != "" && t != "" {
      assert (s + t)[..|s|] == s && s[..|s|] == s;
      assert DiffersAt(CharLess, s, s + t, |s|);
      NotStable(p, Text(s), q);
      PreBefore(p, Text(s), q, Text(s + t), r);
    }
  }

  /** The comparison reads both versions first: it answers exactly when both normalize, and then for
      the normalized texts. */
  lemma ComparesNormalized(left: string, right: string)
    ensures CompareReleaseVersions(left, right).Ok? <==>
      NormalizeReleaseVersion(left).Ok? && NormalizeReleaseVersion(right).Ok?
    ensures IsRelease(left) && IsRelease(right) ==>
      CompareReleaseVersions(left, right) == Ok(CompareNormalized(left, right))
  {
    NormalizedIsFixed(left);
    NormalizedIsFixed(right);
  }
}
