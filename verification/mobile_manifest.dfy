// The mobile web manifest: which releases it lists, which of them policy
// allows, and how one release is merged into a deployed manifest.
//
// A manifest's keys, its blocked list and its minimum are texts that are
// normalized wherever they are read; a text that is no version makes every
// operation that reads it fail, and None stands for that failure.  The versions
// object keeps the order of its keys, because the support floor is a minimum
// over that order.  Two versions are compared by precedence, under which two
// spellings of one version are equal; "at least" is meant in that sense, and the
// results say where the spelling is fixed as well.
//
// The main results reduce a merge to conditions on its base: `Mergeable` says
// when one merge succeeds, `Admits` which versions the minimum it leaves lets
// through, and `Covered` when a second merge could as well have come first.
module MobileManifest {
  import V = SemVer

  datatype Option<+T> = None | Some(value: T)

  /** A release's entry.  `protocol` is None when the stamp is absent or not an integer. */
  datatype Entry = Entry(protocol: Option<int>, body: string)

  /** `order` is the order in which the versions object lists its keys. */
  datatype Manifest = Manifest(
    order: seq<string>, versions: map<string, Entry>, blocked: seq<string>, minSupported: Option<string>,
    served: bool)

  /** The repository's self-heal floor, and the checks on paths and integrity inside an entry. */
  datatype Policy = Policy(selfHeal: string, wellFormed: (string, Entry) -> bool)

  ghost predicate Valid(m: Manifest) {
    forall k :: k in m.order <==> k in m.versions
  }

  predicate Reads(raw: string) {
    V.NormalizeReleaseVersion(raw).Ok?
  }

  function Norm(raw: string): (v: string)
    requires Reads(raw)
    ensures V.IsRelease(v)
  {
    V.NormalizeReleaseVersion(raw).value
  }

  predicate Below(a: string, b: string)
    requires V.IsRelease(a) && V.IsRelease(b)
  {
    V.CompareNormalized(a, b) < 0
  }

  predicate Stamped(m: Manifest, k: string) {
    k in m.versions && m.versions[k].protocol.Some?
  }

  /** The stamped versions in the order of the object; None when one of them is not a version. */
  function StampedVersions(m: Manifest, n: nat): (r: Option<seq<string>>)
    requires n <= |m.order|
    ensures r.Some? ==> forall v :: v in r.value ==> V.IsRelease(v)
  {
    if n == 0 then Some([]) else
      var before := StampedVersions(m, n - 1);
      var k := m.order[n - 1];
      if before.None? || !Stamped(m, k) then before
      else if !Reads(k) then None
      else Some(before.value + [Norm(k)])
  }

  /** The first of the least elements, as `min` finds it. */
  function MinOf(vs: seq<string>): (v: string)
    requires vs != [] && forall v :: v in vs ==> V.IsRelease(v)
    ensures v in vs
  {
    var last := vs[|vs| - 1];
    if |vs| == 1 then last else
      var least := MinOf(vs[..|vs| - 1]);
      if Below(last, least) then last else least
  }

  function Floor(m: Manifest, p: Policy): (f: Option<string>)
    ensures f.Some? ==> V.IsRelease(f.value)
  {
    var stamped := StampedVersions(m, |m.order|);
    if stamped.None? || !Reads(p.selfHeal) then None
    else if stamped.value != [] && V.CompareNormalized(MinOf(stamped.value), Norm(p.selfHeal)) > 0
    then Some(MinOf(stamped.value))
    else Some(Norm(p.selfHeal))
  }

  predicate MinReads(m: Manifest) {
    m.minSupported.Some? ==> Reads(m.minSupported.value)
  }

  predicate BlockedReads(m: Manifest) {
    forall i :: 0 <= i < |m.blocked| ==> Reads(m.blocked[i])
  }

  predicate Blocked(m: Manifest, v: string)
    requires BlockedReads(m)
  {
    exists i :: 0 <= i < |m.blocked| && Norm(m.blocked[i]) == v
  }

  predicate NeedsFloor(m: Manifest, floor: string)
    requires MinReads(m) && V.IsRelease(floor)
  {
    m.minSupported.None? || Below(Norm(m.minSupported.value), floor)
  }

  /** `enforce_min_supported_floor`: raises the minimum to the floor when it is missing or lower. */
  function EnforceFloor(m: Manifest, p: Policy): Option<Manifest> {
    var floor := Floor(m, p);
    if floor.None? || !MinReads(m) then None
    else if NeedsFloor(m, floor.value) then Some(m.(minSupported := floor))
    else Some(m)
  }

  predicate BelowMin(m: Manifest, v: string)
    requires MinReads(m) && V.IsRelease(v)
  {
    m.minSupported.Some? && Below(v, Norm(m.minSupported.value))
  }

  /** `is_allowed_by_policy` on a manifest whose policy reads. */
  predicate Allowed(m: Manifest, v: string)
    requires MinReads(m) && BlockedReads(m) && V.IsRelease(v)
  {
    !BelowMin(m, v) && !Blocked(m, v)
  }

  predicate SupportedEntriesAreStamped(m: Manifest) {
    && MinReads(m) && BlockedReads(m)
    && forall k :: k in m.versions ==> Reads(k) && (Allowed(m, Norm(k)) ==> Stamped(m, k))
  }

  predicate MeetsFloor(m: Manifest, p: Policy) {
    var floor := Floor(m, p);
    floor.Some? && MinReads(m) && !NeedsFloor(m, floor.value)
  }

  predicate EntryIsValid(m: Manifest, v: string, expected: int, p: Policy) {
    v in m.versions && m.versions[v].protocol == Some(expected) && p.wellFormed(v, m.versions[v])
  }

  function SetEntry(m: Manifest, v: string, e: Entry): Manifest {
    m.(versions := m.versions[v := e], order := if v in m.versions then m.order else m.order + [v])
  }

  /** `merge_target_entry`; None stands for its error. */
  function Merge(base: Manifest, source: Manifest, raw: string, expected: int, p: Policy): Option<Manifest> {
    if !Reads(raw) || base.served || source.served || !EntryIsValid(source, Norm(raw), expected, p) then None
    else
      var v := Norm(raw);
      var merged := EnforceFloor(SetEntry(base, v, source.versions[v]), p);
      if merged.None? then None
      else
        var m := merged.value;
        if SupportedEntriesAreStamped(m) && MeetsFloor(m, p) && EntryIsValid(m, v, expected, p) && Allowed(m, v)
        then Some(m) else None
  }

  // -------------------------------------------------------------- the order

  predicate AtLeast(a: string, b: string)
    requires V.IsRelease(a) && V.IsRelease(b)
  {
    !V.Precedes(V.VersionKey(a), V.VersionKey(b))
  }

  lemma BelowIsNotAtLeast(a: string, b: string)
    requires V.IsRelease(a) && V.IsRelease(b)
    ensures Below(a, b) <==> !AtLeast(a, b)
    ensures V.CompareNormalized(a, b) > 0 ==> AtLeast(a, b)
    ensures V.CompareNormalized(a, b) <= 0 ==> AtLeast(b, a)
  {
    V.CompareIsPrecedence(a, b);
    V.PrecedesIsStrictTotal(V.VersionKey(a), V.VersionKey(b), V.VersionKey(a));
  }

  lemma NotPrecedesIsTransitive(a: V.Key, b: V.Key, c: V.Key)
    requires !V.Precedes(a, b) && !V.Precedes(b, c)
    ensures !V.Precedes(a, c)
  {
    V.PrecedesIsStrictTotal(b, c, a);
    V.PrecedesIsStrictTotal(a, c, b);
  }

  lemma AtLeastOrder(a: string, b: string, c: string)
    requires V.IsRelease(a) && V.IsRelease(b) && V.IsRelease(c)
    ensures AtLeast(a, a)
    ensures AtLeast(a, b) || AtLeast(b, a)
    ensures AtLeast(a, b) && AtLeast(b, c) ==> AtLeast(a, c)
    ensures AtLeast(a, b) && AtLeast(b, a) ==> V.VersionKey(a) == V.VersionKey(b)
  {
    V.PrecedesIsStrictTotal(V.VersionKey(a), V.VersionKey(b), V.VersionKey(a));
    if AtLeast(a, b) && AtLeast(b, c) {
      NotPrecedesIsTransitive(V.VersionKey(a), V.VersionKey(b), V.VersionKey(c));
    }
  }

  lemma {:induction false} MinIsLeast(vs: seq<string>, v: string)
    requires v in vs && forall v :: v in vs ==> V.IsRelease(v)
    ensures AtLeast(v, MinOf(vs))
  {
    var last := vs[|vs| - 1];
    if |vs| == 1 {
      AtLeastOrder(v, v, v);
    } else {
      var rest := vs[..|vs| - 1];
      RestAndLast(vs, rest, last, v);
      if v in rest {
        MinIsLeast(rest, v);
      }
      LesserIsLeast(MinOf(rest), last, v);
    }
  }

  lemma RestAndLast(vs: seq<string>, rest: seq<string>, last: string, v: string)
    requires |vs| > 1 && rest == vs[..|vs| - 1] && last == vs[|vs| - 1]
    requires v in vs && forall x :: x in vs ==> V.IsRelease(x)
    ensures V.IsRelease(last) && (forall x :: x in rest ==> V.IsRelease(x)) && (v == last || v in rest)
  {
    assert last in vs && vs == rest + [last];
  }

  /** Of two versions `min` keeps one that nothing above either is below. */
  lemma LesserIsLeast(least: string, last: string, v: string)
    requires V.IsRelease(least) && V.IsRelease(last) && V.IsRelease(v) && (v == last || AtLeast(v, least))
    ensures AtLeast(v, if Below(last, least) then last else least)
  {
    BelowIsNotAtLeast(last, least);
    AtLeastOrder(last, least, last);
    AtLeastOrder(v, least, last);
  }

  /** `v` is one of the stamped versions. */
  predicate IsStamped(m: Manifest, v: string) {
    exists k :: k in m.versions && Stamped(m, k) && Reads(k) && Norm(k) == v
  }

  predicate StampedAt(m: Manifest, i: nat, v: string)
    requires i < |m.order|
  {
    Stamped(m, m.order[i]) && Reads(m.order[i]) && Norm(m.order[i]) == v
  }

  lemma {:induction false} StampedAre(m: Manifest, n: nat, v: string)
    requires n <= |m.order| && StampedVersions(m, n).Some?
    ensures v in StampedVersions(m, n).value <==> exists i :: 0 <= i < n && StampedAt(m, i, v)
  {
    if n > 0 {
      StampedOneMore(m, n, v);
      StampedAre(m, n - 1, v);
      if i :| 0 <= i < n && StampedAt(m, i, v) {
        assert i == n - 1 || i < n - 1;
      }
    }
  }

  lemma StampedOneMore(m: Manifest, n: nat, v: string)
    requires 0 < n <= |m.order| && StampedVersions(m, n).Some?
    ensures StampedVersions(m, n - 1).Some?
    ensures v in StampedVersions(m, n).value <==> v in StampedVersions(m, n - 1).value || StampedAt(m, n - 1, v)
  {
  }

  lemma StampedVersionsAre(m: Manifest, v: string)
    requires Valid(m) && StampedVersions(m, |m.order|).Some?
    ensures v in StampedVersions(m, |m.order|).value <==> IsStamped(m, v)
  {
    StampedAre(m, |m.order|, v);
    if IsStamped(m, v) {
      var k :| k in m.versions && Stamped(m, k) && Reads(k) && Norm(k) == v;
      var i :| 0 <= i < |m.order| && m.order[i] == k;
      assert StampedAt(m, i, v);
    }
  }

  /** What the floor lets through: at least the self-heal floor, and at least some stamped version
      when there is one. */
  predicate Clears(m: Manifest, p: Policy, x: string)
    requires V.IsRelease(x) && Reads(p.selfHeal)
  {
    && AtLeast(x, Norm(p.selfHeal))
    && ((forall k :: k in m.versions ==> !Stamped(m, k))
        || exists k :: k in m.versions && Stamped(m, k) && Reads(k) && AtLeast(x, Norm(k)))
  }

  lemma FloorIs(m: Manifest, p: Policy, x: string)
    requires Valid(m) && Floor(m, p).Some? && V.IsRelease(x)
    ensures AtLeast(x, Floor(m, p).value) <==> Clears(m, p, x)
  {
    var vs := StampedVersions(m, |m.order|).value;
    var h := Norm(p.selfHeal);
    if vs == [] {
      NoneStamped(m);
    } else {
      var least := MinOf(vs);
      StampedVersionsAre(m, least);
      var k :| k in m.versions && Stamped(m, k) && Reads(k) && Norm(k) == least;
      forall j | j in m.versions && Stamped(m, j) && Reads(j) && AtLeast(x, Norm(j)) ensures AtLeast(x, least) {
        StampedVersionsAre(m, Norm(j));
        MinIsLeast(vs, Norm(j));
        AtLeastOrder(x, Norm(j), least);
      }
      BelowIsNotAtLeast(least, h);
      AtLeastOrder(x, least, h);
      AtLeastOrder(x, h, least);
    }
  }

  lemma {:induction false} StampedRead(m: Manifest, n: nat, i: nat)
    requires i < n <= |m.order| && StampedVersions(m, n).Some? && Stamped(m, m.order[i])
    ensures Reads(m.order[i])
  {
    if i < n - 1 {
      StampedRead(m, n - 1, i);
    }
  }

  lemma NoneStamped(m: Manifest)
    requires Valid(m) && StampedVersions(m, |m.order|) == Some([])
    ensures forall k :: k in m.versions ==> !Stamped(m, k)
  {
    forall k | k in m.versions ensures !Stamped(m, k) {
      if Stamped(m, k) {
        var i :| 0 <= i < |m.order| && m.order[i] == k;
        StampedRead(m, |m.order|, i);
        StampedVersionsAre(m, Norm(k));
      }
    }
  }

  /** The support floor does not depend on the order in which the manifest lists its versions; its
      spelling does not either when no version has a leading zero. */
  lemma FloorIgnoresOrder(m: Manifest, n: Manifest, p: Policy)
    requires Valid(m) && Valid(n) && m.versions == n.versions && Floor(m, p).Some? && Floor(n, p).Some?
    ensures V.VersionKey(Floor(m, p).value) == V.VersionKey(Floor(n, p).value)
    ensures V.IsCanonical(Floor(m, p).value) && V.IsCanonical(Floor(n, p).value) ==> Floor(m, p) == Floor(n, p)
  {
    var f, g := Floor(m, p).value, Floor(n, p).value;
    AtLeastOrder(f, g, f);
    AtLeastOrder(g, f, g);
    FloorIs(m, p, f);
    FloorIs(n, p, f);
    FloorIs(m, p, g);
    FloorIs(n, p, g);
    ClearsIgnoresOrder(m, n, p, f);
    ClearsIgnoresOrder(m, n, p, g);
    if V.IsCanonical(f) && V.IsCanonical(g) {
      V.CanonicalKeysAreDistinct(f, g);
    }
  }

  lemma ClearsIgnoresOrder(m: Manifest, n: Manifest, p: Policy, x: string)
    requires m.versions == n.versions && V.IsRelease(x) && Reads(p.selfHeal)
    ensures Clears(m, p, x) <==> Clears(n, p, x)
  {
  }

  // ----------------------------------------------------------------- one merge

  /** `x` is at least some stamped version of the manifest. */
  predicate AboveSomeStamped(m: Manifest, x: string)
    requires V.IsRelease(x)
  {
    exists k :: k in m.versions && StampedBelow(m, k, x)
  }

  /** The minimum that merging `v` leaves lets `x` through. */
  predicate Admits(base: Manifest, p: Policy, v: string, x: string)
    requires V.IsRelease(v) && V.IsRelease(x) && MinReads(base) && Reads(p.selfHeal)
  {
    && (base.minSupported.Some? ==> AtLeast(x, Norm(base.minSupported.value)))
    && AtLeast(x, Norm(p.selfHeal))
    && (AtLeast(x, v) || AboveSomeStamped(base, x))
  }

  /** What a caller can check of the base: policy reads and admits `v`, and it would leave no
      unstamped entry allowed. */
  predicate Mergeable(base: Manifest, p: Policy, v: string)
    requires V.IsRelease(v)
  {
    && MinReads(base) && BlockedReads(base) && Reads(p.selfHeal)
    && !Blocked(base, v) && Admits(base, p, v, v)
    && forall k :: k in base.versions && k != v ==>
      Reads(k) && (Admits(base, p, v, Norm(k)) && !Blocked(base, Norm(k)) ==> Stamped(base, k))
  }

  lemma {:induction false} StampedVersionsRead(m: Manifest, n: nat)
    requires n <= |m.order| && forall i :: 0 <= i < n && Stamped(m, m.order[i]) ==> Reads(m.order[i])
    ensures StampedVersions(m, n).Some?
  {
    if n > 0 {
      StampedVersionsRead(m, n - 1);
    }
  }

  predicate StampedBelow(m: Manifest, k: string, x: string)
    requires V.IsRelease(x)
  {
    k in m.versions && Stamped(m, k) && Reads(k) && AtLeast(x, Norm(k))
  }

  lemma SetEntryStampsAt(base: Manifest, v: string, e: Entry, k: string, x: string)
    requires V.IsRelease(v) && V.IsRelease(x) && e.protocol.Some?
    ensures StampedBelow(SetEntry(base, v, e), k, x) <==> (if k == v then AtLeast(x, v) else StampedBelow(base, k, x))
  {
    V.NormalizedIsFixed(v);
  }

  lemma SetEntryStamps(base: Manifest, v: string, e: Entry, x: string)
    requires V.IsRelease(v) && V.IsRelease(x) && e.protocol.Some?
    ensures AboveSomeStamped(SetEntry(base, v, e), x) <==> AtLeast(x, v) || AboveSomeStamped(base, x)
  {
    V.NormalizedIsFixed(v);
    SetEntryStampsAt(base, v, e, v, x);
    forall k ensures StampedBelow(SetEntry(base, v, e), k, x) <==> (if k == v then AtLeast(x, v) else StampedBelow(base, k, x)) {
      SetEntryStampsAt(base, v, e, k, x);
    }
    assert StampedBelow(base, v, x) ==> AtLeast(x, v);
  }

  lemma SetEntryClears(base: Manifest, p: Policy, v: string, e: Entry, x: string)
    requires V.IsRelease(v) && V.IsRelease(x) && e.protocol.Some? && Reads(p.selfHeal)
    ensures Clears(SetEntry(base, v, e), p, x) <==>
      AtLeast(x, Norm(p.selfHeal)) && (AtLeast(x, v) || AboveSomeStamped(base, x))
  {
    var m := SetEntry(base, v, e);
    assert v in m.versions && Stamped(m, v);
    SetEntryStamps(base, v, e, x);
  }

  /** The minimum after `enforce_min_supported_floor` is the larger of the old one and the floor. */
  lemma EnforcedMinIs(m: Manifest, p: Policy, x: string)
    requires Valid(m) && EnforceFloor(m, p).Some? && V.IsRelease(x)
    ensures var n := EnforceFloor(m, p).value;
      && n == m.(minSupported := n.minSupported) && n.minSupported.Some? && Reads(n.minSupported.value)
      && (AtLeast(x, Norm(n.minSupported.value)) <==>
           (m.minSupported.Some? ==> AtLeast(x, Norm(m.minSupported.value))) && Clears(m, p, x))
  {
    var n, f := EnforceFloor(m, p).value, Floor(m, p).value;
    V.NormalizedIsFixed(f);
    FloorIs(m, p, x);
    if m.minSupported.Some? {
      var c := Norm(m.minSupported.value);
      BelowIsNotAtLeast(c, f);
      AtLeastOrder(f, c, f);
      AtLeastOrder(x, f, c);
      AtLeastOrder(x, c, f);
    }
  }

  lemma ClearsIgnoresMin(m: Manifest, n: Manifest, p: Policy, x: string)
    requires n == m.(minSupported := n.minSupported) && V.IsRelease(x) && Reads(p.selfHeal)
    ensures Clears(m, p, x) <==> Clears(n, p, x)
  {
  }

  lemma EnforcedMeetsFloor(m: Manifest, p: Policy)
    requires Valid(m) && EnforceFloor(m, p).Some?
    requires Floor(EnforceFloor(m, p).value, p).Some?
    ensures MeetsFloor(EnforceFloor(m, p).value, p)
  {
    var n := EnforceFloor(m, p).value;
    EnforcedMinIs(m, p, Floor(m, p).value);
    var c, f := Norm(n.minSupported.value), Floor(n, p).value;
    EnforcedMinIs(m, p, c);
    AtLeastOrder(c, c, c);
    ClearsIgnoresMin(m, n, p, c);
    FloorIs(n, p, c);
    BelowIsNotAtLeast(c, f);
  }

  lemma FloorReads(m: Manifest, p: Policy)
    requires Valid(m) && Reads(p.selfHeal) && forall k :: k in m.versions ==> Reads(k)
    ensures Floor(m, p).Some?
  {
    StampedVersionsRead(m, |m.order|);
  }

  /** The manifest a merge settles on before its checks. */
  lemma EnforcedMergeIs(base: Manifest, p: Policy, v: string, e: Entry, x: string)
    requires Valid(base) && V.IsRelease(v) && V.IsRelease(x) && e.protocol.Some? && EnforceFloor(SetEntry(base, v, e), p).Some?
    ensures var m := EnforceFloor(SetEntry(base, v, e), p).value;
      && Valid(m) && m == SetEntry(base, v, e).(minSupported := m.minSupported)
      && m.minSupported.Some? && Reads(m.minSupported.value)
      && MinReads(base) && Reads(p.selfHeal)
      && (AtLeast(x, Norm(m.minSupported.value)) <==> Admits(base, p, v, x))
  {
    var s := SetEntry(base, v, e);
    assert Valid(s);
    EnforcedMinIs(s, p, x);
    SetEntryClears(base, p, v, e, x);
  }

  lemma AllowedIs(m: Manifest, x: string)
    requires MinReads(m) && BlockedReads(m) && m.minSupported.Some? && V.IsRelease(x)
    ensures Allowed(m, x) <==> AtLeast(x, Norm(m.minSupported.value)) && !Blocked(m, x)
  {
    BelowIsNotAtLeast(x, Norm(m.minSupported.value));
  }

  lemma SameBlocked(m: Manifest, n: Manifest, x: string)
    requires m.blocked == n.blocked && BlockedReads(m)
    ensures BlockedReads(n) && (Blocked(m, x) <==> Blocked(n, x))
  {
  }

  /** One entry of the merged manifest. */
  lemma EntryCheckIs(base: Manifest, p: Policy, v: string, e: Entry, k: string)
    requires Valid(base) && V.IsRelease(v) && e.protocol.Some? && EnforceFloor(SetEntry(base, v, e), p).Some?
    requires BlockedReads(base) && Reads(k)
    ensures var m := EnforceFloor(SetEntry(base, v, e), p).value;
      && MinReads(base) && Reads(p.selfHeal) && MinReads(m) && BlockedReads(m)
      && (Stamped(m, k) <==> k == v || Stamped(base, k))
      && (Allowed(m, Norm(k)) <==> Admits(base, p, v, Norm(k)) && !Blocked(base, Norm(k)))
  {
    var m := EnforceFloor(SetEntry(base, v, e), p).value;
    EnforcedMergeIs(base, p, v, e, Norm(k));
    EnforcedMergeBlocks(base, m, v, e, k);
    AllowedIs(m, Norm(k));
  }

  lemma EnforcedMergeBlocks(base: Manifest, m: Manifest, v: string, e: Entry, k: string)
    requires m == SetEntry(base, v, e).(minSupported := m.minSupported) && e.protocol.Some? && BlockedReads(base) && Reads(k)
    ensures BlockedReads(m) && (Blocked(m, Norm(k)) <==> Blocked(base, Norm(k)))
    ensures Stamped(m, k) <==> k == v || Stamped(base, k)
  {
    SameBlocked(base, m, Norm(k));
  }

  lemma PassingIsMergeable(base: Manifest, p: Policy, v: string, e: Entry)
    requires Valid(base) && V.IsRelease(v) && e.protocol.Some? && EnforceFloor(SetEntry(base, v, e), p).Some?
    requires var m := EnforceFloor(SetEntry(base, v, e), p).value;
      SupportedEntriesAreStamped(m) && Allowed(m, v)
    ensures Mergeable(base, p, v)
  {
    var m := EnforceFloor(SetEntry(base, v, e), p).value;
    EnforcedMergeIs(base, p, v, e, v);
    assert BlockedReads(base);
    V.NormalizedIsFixed(v);
    EntryCheckIs(base, p, v, e, v);
    forall k | k in base.versions && k != v
      ensures Reads(k) && (Admits(base, p, v, Norm(k)) && !Blocked(base, Norm(k)) ==> Stamped(base, k))
    {
      assert k in m.versions;
      EntryCheckIs(base, p, v, e, k);
    }
  }

  lemma MergeablePasses(base: Manifest, p: Policy, v: string, e: Entry)
    requires Valid(base) && V.IsRelease(v) && e.protocol.Some? && EnforceFloor(SetEntry(base, v, e), p).Some?
    requires Mergeable(base, p, v)
    ensures var m := EnforceFloor(SetEntry(base, v, e), p).value;
      SupportedEntriesAreStamped(m) && Allowed(m, v)
  {
    var m := EnforceFloor(SetEntry(base, v, e), p).value;
    V.NormalizedIsFixed(v);
    EntryCheckIs(base, p, v, e, v);
    forall k | k in m.versions
      ensures Reads(k) && (Allowed(m, Norm(k)) ==> Stamped(m, k))
    {
      EntryCheckIs(base, p, v, e, k);
    }
  }

  lemma MergeableReads(base: Manifest, p: Policy, v: string, e: Entry)
    requires Valid(base) && V.IsRelease(v) && Mergeable(base, p, v)
    ensures Valid(SetEntry(base, v, e)) && EnforceFloor(SetEntry(base, v, e), p).Some?
    ensures Floor(EnforceFloor(SetEntry(base, v, e), p).value, p).Some?
  {
    var s := SetEntry(base, v, e);
    V.NormalizedIsFixed(v);
    FloorReads(s, p);
    var m := EnforceFloor(s, p).value;
    FloorReads(m, p);
  }

  /** A merge succeeds exactly for a well-formed entry of a readable version into an unserved base
      that is mergeable. */
  lemma MergeSucceedsIff(base: Manifest, source: Manifest, raw: string, expected: int, p: Policy)
    requires Valid(base)
    ensures Merge(base, source, raw, expected, p).Some? <==>
      && Reads(raw) && !base.served && !source.served
      && EntryIsValid(source, Norm(raw), expected, p) && Mergeable(base, p, Norm(raw))
  {
    if Reads(raw) && EntryIsValid(source, Norm(raw), expected, p) {
      var v, e := Norm(raw), source.versions[Norm(raw)];
      if Mergeable(base, p, v) {
        MergeableReads(base, p, v, e);
        MergeablePasses(base, p, v, e);
        EnforcedMeetsFloor(SetEntry(base, v, e), p);
        EnforcedMergeIs(base, p, v, e, v);
      } else if Merge(base, source, raw, expected, p).Some? {
        PassingIsMergeable(base, p, v, e);
      }
    }
  }

  /** The manifest blocks `v`, in some spelling. */
  ghost predicate IsBlocked(m: Manifest, v: string) {
    exists i :: 0 <= i < |m.blocked| && V.NormalizeReleaseVersion(m.blocked[i]) == V.Ok(v)
  }

  /** The entry `k` carries a protocol stamp. */
  predicate HasStamp(m: Manifest, k: string) {
    k in m.versions && m.versions[k].protocol != None
  }

  /** The minimum that merging `v` into the base leaves is at most `x`: neither the base's own minimum, nor
      the self-heal floor, nor the least of `v` and the stamped versions comes after `x`. */
  ghost predicate LetsThrough(base: Manifest, p: Policy, v: string, x: string)
    requires V.IsRelease(v) && V.IsRelease(x)
  {
    && (base.minSupported.Some? ==>
          exists b :: V.NormalizeReleaseVersion(base.minSupported.value) == V.Ok(b) && V.IsRelease(b)
            && !V.Precedes(V.VersionKey(x), V.VersionKey(b)))
    && (exists h :: V.NormalizeReleaseVersion(p.selfHeal) == V.Ok(h) && V.IsRelease(h) && !V.Precedes(V.VersionKey(x), V.VersionKey(h)))
    && (!V.Precedes(V.VersionKey(x), V.VersionKey(v))
        || exists k, s :: HasStamp(base, k) && V.NormalizeReleaseVersion(k) == V.Ok(s) && V.IsRelease(s)
             && !V.Precedes(V.VersionKey(x), V.VersionKey(s)))
  }

  lemma NormIs(raw: string, v: string)
    ensures V.NormalizeReleaseVersion(raw) == V.Ok(v) <==> Reads(raw) && Norm(raw) == v
  {
  }

  lemma BlockedIs(m: Manifest, v: string)
    requires BlockedReads(m)
    ensures Blocked(m, v) <==> IsBlocked(m, v)
  {
    if IsBlocked(m, v) {
      var i :| 0 <= i < |m.blocked| && V.NormalizeReleaseVersion(m.blocked[i]) == V.Ok(v);
      assert Norm(m.blocked[i]) == v;
    }
    if Blocked(m, v) {
      var i :| 0 <= i < |m.blocked| && Norm(m.blocked[i]) == v;
      NormIs(m.blocked[i], v);
    }
  }

  lemma AboveIs(base: Manifest, x: string)
    requires V.IsRelease(x)
    ensures AboveSomeStamped(base, x) <==>
      exists k, s :: HasStamp(base, k) && V.NormalizeReleaseVersion(k) == V.Ok(s) && V.IsRelease(s) && !V.Precedes(V.VersionKey(x), V.VersionKey(s))
  {
    if AboveSomeStamped(base, x) {
      var k :| k in base.versions && StampedBelow(base, k, x);
      NormIs(k, Norm(k));
      assert HasStamp(base, k);
    }
    if k, s :| HasStamp(base, k) && V.NormalizeReleaseVersion(k) == V.Ok(s) && V.IsRelease(s) && !V.Precedes(V.VersionKey(x), V.VersionKey(s)) {
      NormIs(k, s);
      assert StampedBelow(base, k, x);
    }
  }

  lemma AdmitsIs(base: Manifest, p: Policy, v: string, x: string)
    requires V.IsRelease(v) && V.IsRelease(x) && MinReads(base) && Reads(p.selfHeal)
    ensures Admits(base, p, v, x) <==> LetsThrough(base, p, v, x)
  {
    AboveIs(base, x);
    NormIs(p.selfHeal, Norm(p.selfHeal));
    if base.minSupported.Some? {
      NormIs(base.minSupported.value, Norm(base.minSupported.value));
    }
  }

  /** Another entry of the base reads, and has a stamp if it would be let through unblocked. */
  ghost predicate EntryFits(base: Manifest, p: Policy, v: string, k: string)
    requires V.IsRelease(v)
  {
    exists x :: V.NormalizeReleaseVersion(k) == V.Ok(x) && V.IsRelease(x)
      && (LetsThrough(base, p, v, x) && !IsBlocked(base, x) ==> HasStamp(base, k))
  }

  lemma EntryFitsIff(base: Manifest, p: Policy, v: string, k: string)
    requires V.IsRelease(v) && MinReads(base) && BlockedReads(base) && Reads(p.selfHeal) && k in base.versions
    ensures EntryFits(base, p, v, k) <==>
      Reads(k) && (Admits(base, p, v, Norm(k)) && !Blocked(base, Norm(k)) ==> Stamped(base, k))
  {
    if Reads(k) {
      AdmitsIs(base, p, v, Norm(k));
      BlockedIs(base, Norm(k));
      NormIs(k, Norm(k));
    }
    if EntryFits(base, p, v, k) {
      var x :| V.NormalizeReleaseVersion(k) == V.Ok(x) && V.IsRelease(x);
      NormIs(k, x);
    }
  }

  /** What makes a base mergeable, in full: its minimum, its blocked list and the policy's floor read; it
      does not block `v` and lets it through; and each of its other entries fits. */
  lemma MergeableIff(base: Manifest, p: Policy, v: string)
    requires V.IsRelease(v)
    ensures Mergeable(base, p, v) <==>
      && (base.minSupported.Some? ==> V.NormalizeReleaseVersion(base.minSupported.value).Ok?)
      && (forall i :: 0 <= i < |base.blocked| ==> V.NormalizeReleaseVersion(base.blocked[i]).Ok?)
      && V.NormalizeReleaseVersion(p.selfHeal).Ok?
      && !IsBlocked(base, v) && LetsThrough(base, p, v, v)
      && forall k :: k in base.versions && k != v ==> EntryFits(base, p, v, k)
  {
    if MinReads(base) && BlockedReads(base) && Reads(p.selfHeal) {
      AdmitsIs(base, p, v, v);
      BlockedIs(base, v);
      forall k | k in base.versions
        ensures EntryFits(base, p, v, k) <==>
          Reads(k) && (Admits(base, p, v, Norm(k)) && !Blocked(base, Norm(k)) ==> Stamped(base, k))
      {
        EntryFitsIff(base, p, v, k);
      }
    }
  }

  /** The source must list the release under its normalized version, with the expected protocol. */
  lemma SourceEntryIs(source: Manifest, v: string, expected: int, p: Policy)
    ensures EntryIsValid(source, v, expected, p) <==>
      v in source.versions && source.versions[v].protocol == Some(expected) && p.wellFormed(v, source.versions[v])
  {
  }

  /** What a successful merge leaves: the target entry is set and every other entry, the blocked
      list and the order of the others are kept; the minimum is never lowered; every entry that
      policy allows is stamped; and the target is allowed, under the expected protocol. */
  lemma MergeKeepsPolicy(base: Manifest, source: Manifest, raw: string, expected: int, p: Policy, x: string)
    requires Valid(base) && Merge(base, source, raw, expected, p).Some? && V.IsRelease(x)
    ensures var m, v := Merge(base, source, raw, expected, p).value, Norm(raw);
      && Valid(m) && m.versions == base.versions[v := source.versions[v]] && m.blocked == base.blocked && !m.served
      && m.order == (if v in base.versions then base.order else base.order + [v])
      && m.minSupported.Some? && Reads(m.minSupported.value) && MinReads(base) && Reads(p.selfHeal)
      && (base.minSupported.Some? ==> AtLeast(Norm(m.minSupported.value), Norm(base.minSupported.value)))
      && AtLeast(Norm(m.minSupported.value), Norm(p.selfHeal))
      && (AtLeast(x, Norm(m.minSupported.value)) <==> Admits(base, p, v, x))
      && m.versions[v].protocol == Some(expected) && BlockedReads(m) && Allowed(m, v)
      && (forall k :: k in m.versions ==> Reads(k) && (Allowed(m, Norm(k)) ==> Stamped(m, k)))
  {
    var v := Norm(raw);
    var e := source.versions[v];
    var m := Merge(base, source, raw, expected, p).value;
    EnforcedMergeIs(base, p, v, e, x);
    var c := Norm(m.minSupported.value);
    EnforcedMergeIs(base, p, v, e, c);
    AtLeastOrder(c, c, c);
  }

  // ---------------------------------------------------------------- two merges

  /** `m` is the base with `v` set, under the minimum that merging `v` leaves. */
  ghost predicate Follows(base: Manifest, m: Manifest, p: Policy, v: string, e: Entry)
    requires V.IsRelease(v)
  {
    && MinReads(base) && Reads(p.selfHeal) && m == SetEntry(base, v, e).(minSupported := m.minSupported)
    && m.minSupported.Some? && Reads(m.minSupported.value)
    && forall x: string :: V.IsRelease(x) ==> (AtLeast(x, Norm(m.minSupported.value)) <==> Admits(base, p, v, x))
  }

  lemma EnforcedMergeFollows(base: Manifest, p: Policy, v: string, e: Entry)
    requires Valid(base) && V.IsRelease(v) && e.protocol.Some? && EnforceFloor(SetEntry(base, v, e), p).Some?
    ensures Follows(base, EnforceFloor(SetEntry(base, v, e), p).value, p, v, e)
  {
    EnforcedMergeIs(base, p, v, e, v);
    var m := EnforceFloor(SetEntry(base, v, e), p).value;
    forall x: string | V.IsRelease(x) ensures AtLeast(x, Norm(m.minSupported.value)) <==> Admits(base, p, v, x) {
      EnforcedMergeIs(base, p, v, e, x);
    }
  }

  /** After merging `v`, merging `w` leaves the minimum where it is. */
  lemma SecondAdmits(base: Manifest, m: Manifest, p: Policy, v: string, e: Entry, w: string, x: string)
    requires V.IsRelease(v) && V.IsRelease(w) && V.IsRelease(x) && e.protocol.Some? && Follows(base, m, p, v, e)
    ensures Admits(m, p, w, x) <==> Admits(base, p, v, x)
  {
    SetEntryStamps(base, v, e, x);
    var s := SetEntry(base, v, e);
    assert forall k :: Stamped(s, k) <==> Stamped(m, k);
  }

  /** What the second of two merges asks of one entry it finds. */
  lemma SecondEntry(base: Manifest, m: Manifest, p: Policy, v: string, e: Entry, w: string, k: string)
    requires V.IsRelease(v) && V.IsRelease(w) && e.protocol.Some? && v != w
    requires Follows(base, m, p, v, e) && Mergeable(base, p, v) && k in m.versions && k != w
    ensures BlockedReads(m) && Reads(k)
    ensures Admits(m, p, w, Norm(k)) && !Blocked(m, Norm(k)) ==> Stamped(m, k)
  {
    V.NormalizedIsFixed(v);
    SecondAdmits(base, m, p, v, e, w, Norm(k));
    SameBlocked(base, m, Norm(k));
    assert k == v || (k in base.versions && (Stamped(m, k) <==> Stamped(base, k)));
  }

  /** Some stamped version of the base, or `w` itself, is at most `v`. */
  predicate Covered(base: Manifest, v: string, w: string)
    requires V.IsRelease(v) && V.IsRelease(w)
  {
    AtLeast(v, w) || AboveSomeStamped(base, v)
  }

  lemma AboveIsUpward(m: Manifest, x: string, y: string)
    requires V.IsRelease(x) && V.IsRelease(y) && AtLeast(y, x) && AboveSomeStamped(m, x)
    ensures AboveSomeStamped(m, y)
  {
    var k :| k in m.versions && StampedBelow(m, k, x);
    AtLeastOrder(y, x, Norm(k));
    assert StampedBelow(m, k, y);
  }

  /** When each version is covered by the other, either one leaves the same minimum. */
  lemma SameAdmits(base: Manifest, p: Policy, v: string, w: string, x: string)
    requires V.IsRelease(v) && V.IsRelease(w) && V.IsRelease(x) && MinReads(base) && Reads(p.selfHeal)
    requires Covered(base, v, w) && Covered(base, w, v)
    ensures Admits(base, p, v, x) <==> Admits(base, p, w, x)
  {
    if AtLeast(x, v) {
      if AtLeast(v, w) {
        AtLeastOrder(x, v, w);
      } else {
        AboveIsUpward(base, v, x);
      }
    }
    if AtLeast(x, w) {
      if AtLeast(w, v) {
        AtLeastOrder(x, w, v);
      } else {
        AboveIsUpward(base, w, x);
      }
    }
  }

  /** The same manifest but for the order of its keys and the spelling of its minimum. */
  predicate Agree(m: Manifest, n: Manifest) {
    && m.versions == n.versions && m.blocked == n.blocked && m.served == n.served
    && m.minSupported.Some? && n.minSupported.Some? && Reads(m.minSupported.value) && Reads(n.minSupported.value)
    && V.VersionKey(Norm(m.minSupported.value)) == V.VersionKey(Norm(n.minSupported.value))
  }

  function MergeTwo(base: Manifest, s: Manifest, v: string, expected: int,
                    t: Manifest, w: string, expectedToo: int, p: Policy): Option<Manifest> {
    var m := Merge(base, s, v, expected, p);
    if m.None? then None else Merge(m.value, t, w, expectedToo, p)
  }

  /** The second of two merges finds its base mergeable exactly when the first minimum admits it and it
      is not blocked. */
  lemma SecondIsMergeableIff(base: Manifest, m: Manifest, p: Policy, v: string, e: Entry, w: string)
    requires Valid(base) && V.IsRelease(v) && V.IsRelease(w) && e.protocol.Some? && v != w
    requires EnforceFloor(SetEntry(base, v, e), p) == Some(m)
    ensures Mergeable(base, p, v) ==>
      (Mergeable(m, p, w) <==> Admits(base, p, v, w) && !Blocked(base, w))
  {
    EnforcedMergeFollows(base, p, v, e);
    SecondAdmits(base, m, p, v, e, w, w);
    if Mergeable(base, p, v) {
      SameBlocked(base, m, w);
      forall k | k in m.versions && k != w
        ensures Reads(k) && (Admits(m, p, w, Norm(k)) && !Blocked(m, Norm(k)) ==> Stamped(m, k))
      {
        SecondEntry(base, m, p, v, e, w, k);
      }
    }
  }

  /** Two merges succeed one after the other exactly when each is admitted by the first one's minimum. */
  lemma MergeTwoSucceedsIff(base: Manifest, s: Manifest, v: string, expected: int,
                            t: Manifest, w: string, expectedToo: int, p: Policy)
    requires Valid(base) && V.IsRelease(v) && V.IsRelease(w) && v != w
    ensures MergeTwo(base, s, v, expected, t, w, expectedToo, p).Some? <==>
      && !base.served && !s.served && !t.served && EntryIsValid(s, v, expected, p) && EntryIsValid(t, w, expectedToo, p)
      && Mergeable(base, p, v) && Admits(base, p, v, w) && !Blocked(base, w)
  {
    V.NormalizedIsFixed(v);
    V.NormalizedIsFixed(w);
    MergeSucceedsIff(base, s, v, expected, p);
    var m := Merge(base, s, v, expected, p);
    if m.Some? {
      MergeKeepsPolicy(base, s, v, expected, p, v);
      MergeSucceedsIff(m.value, t, w, expectedToo, p);
      SecondIsMergeableIff(base, m.value, p, v, s.versions[v], w);
    }
  }

  /** What two successful merges leave. */
  lemma MergeTwoIs(base: Manifest, s: Manifest, v: string, expected: int,
                   t: Manifest, w: string, expectedToo: int, p: Policy, x: string)
    requires Valid(base) && V.IsRelease(v) && V.IsRelease(w) && V.IsRelease(x) && v != w
    requires MergeTwo(base, s, v, expected, t, w, expectedToo, p).Some?
    ensures var n := MergeTwo(base, s, v, expected, t, w, expectedToo, p).value;
      && v in s.versions && w in t.versions && MinReads(base) && Reads(p.selfHeal)
      && n.versions == base.versions[v := s.versions[v]][w := t.versions[w]]
      && n.blocked == base.blocked && !n.served && n.minSupported.Some? && Reads(n.minSupported.value)
      && (AtLeast(x, Norm(n.minSupported.value)) <==> Admits(base, p, v, x))
  {
    V.NormalizedIsFixed(v);
    V.NormalizedIsFixed(w);
    var m := Merge(base, s, v, expected, p).value;
    MergeKeepsPolicy(base, s, v, expected, p, v);
    MergeKeepsPolicy(m, t, w, expectedToo, p, x);
    EnforcedMergeFollows(base, p, v, s.versions[v]);
    SecondAdmits(base, m, p, v, s.versions[v], w, x);
  }

  /** When two merges succeed in one order, they succeed in the other exactly if the one that now
      comes last is covered and not already there without a stamp.  They then leave the same manifest. */
  lemma MergesCommuteIff(base: Manifest, s: Manifest, v: string, expected: int,
                         t: Manifest, w: string, expectedToo: int, p: Policy)
    requires Valid(base) && V.IsRelease(v) && V.IsRelease(w) && v != w
    requires MergeTwo(base, s, v, expected, t, w, expectedToo, p).Some?
    ensures MergeTwo(base, t, w, expectedToo, s, v, expected, p).Some?
      <==> (Covered(base, v, w) && (v in base.versions ==> Stamped(base, v)))
    ensures MergeTwo(base, t, w, expectedToo, s, v, expected, p).Some? ==>
      Agree(MergeTwo(base, s, v, expected, t, w, expectedToo, p).value,
            MergeTwo(base, t, w, expectedToo, s, v, expected, p).value)
  {
    MergeTwoSucceedsIff(base, s, v, expected, t, w, expectedToo, p);
    MergeTwoSucceedsIff(base, t, w, expectedToo, s, v, expected, p);
    V.NormalizedIsFixed(v);
    V.NormalizedIsFixed(w);
    AtLeastOrder(v, v, v);
    AtLeastOrder(w, w, w);
    if Covered(base, v, w) && (v in base.versions ==> Stamped(base, v)) {
      SwappedIsMergeable(base, p, v, w);
    }
    if MergeTwo(base, t, w, expectedToo, s, v, expected, p).Some? {
      SwappedAgree(base, s, v, expected, t, w, expectedToo, p,
                   MergeTwo(base, s, v, expected, t, w, expectedToo, p).value,
                   MergeTwo(base, t, w, expectedToo, s, v, expected, p).value);
    }
  }

  lemma SwappedIsMergeable(base: Manifest, p: Policy, v: string, w: string)
    requires Valid(base) && V.IsRelease(v) && V.IsRelease(w) && v != w
    requires Mergeable(base, p, v) && Admits(base, p, v, w) && !Blocked(base, w)
    requires Covered(base, v, w) && (v in base.versions ==> Stamped(base, v))
    ensures Mergeable(base, p, w) && Admits(base, p, w, v)
  {
    SameAdmits(base, p, v, w, v);
    SameAdmits(base, p, v, w, w);
    V.NormalizedIsFixed(v);
    forall k | k in base.versions && k != w
      ensures Reads(k) && (Admits(base, p, w, Norm(k)) && !Blocked(base, Norm(k)) ==> Stamped(base, k))
    {
      if k != v {
        SameAdmits(base, p, v, w, Norm(k));
      }
    }
  }

  /** One order's minimum is at least the other's. */
  lemma FirstMinIsAtLeast(base: Manifest, s: Manifest, v: string, expected: int,
                          t: Manifest, w: string, expectedToo: int, p: Policy, a: Manifest, b: Manifest)
    requires Valid(base) && V.IsRelease(v) && V.IsRelease(w) && v != w && Covered(base, v, w) && Covered(base, w, v)
    requires MergeTwo(base, s, v, expected, t, w, expectedToo, p) == Some(a)
    requires MergeTwo(base, t, w, expectedToo, s, v, expected, p) == Some(b)
    ensures a.minSupported.Some? && b.minSupported.Some? && MinReads(a) && MinReads(b)
    ensures AtLeast(Norm(a.minSupported.value), Norm(b.minSupported.value))
  {
    MergeTwoIs(base, s, v, expected, t, w, expectedToo, p, v);
    var c := Norm(a.minSupported.value);
    MergeTwoIs(base, s, v, expected, t, w, expectedToo, p, c);
    MergeTwoIs(base, t, w, expectedToo, s, v, expected, p, c);
    AtLeastOrder(c, c, c);
    SameAdmits(base, p, v, w, c);
  }

  lemma MergedEntries(base: Manifest, s: Manifest, v: string, expected: int,
                      t: Manifest, w: string, expectedToo: int, p: Policy, a: Manifest)
    requires Valid(base) && V.IsRelease(v) && V.IsRelease(w) && v != w
    requires MergeTwo(base, s, v, expected, t, w, expectedToo, p) == Some(a)
    ensures v in s.versions && w in t.versions
    ensures a.versions == base.versions[v := s.versions[v]][w := t.versions[w]]
    ensures a.blocked == base.blocked && !a.served
  {
    MergeTwoIs(base, s, v, expected, t, w, expectedToo, p, v);
  }

  lemma SwapUpdates(m: map<string, Entry>, v: string, d: Entry, w: string, e: Entry)
    requires v != w
    ensures m[v := d][w := e] == m[w := e][v := d]
  {
  }

  lemma SameKey(x: string, y: string)
    requires V.IsRelease(x) && V.IsRelease(y) && AtLeast(x, y) && AtLeast(y, x)
    ensures V.VersionKey(x) == V.VersionKey(y)
  {
    AtLeastOrder(x, y, x);
  }

  lemma SwappedAgree(base: Manifest, s: Manifest, v: string, expected: int,
                     t: Manifest, w: string, expectedToo: int, p: Policy, a: Manifest, b: Manifest)
    requires Valid(base) && V.IsRelease(v) && V.IsRelease(w) && v != w && Covered(base, v, w) && Covered(base, w, v)
    requires MergeTwo(base, s, v, expected, t, w, expectedToo, p) == Some(a)
    requires MergeTwo(base, t, w, expectedToo, s, v, expected, p) == Some(b)
    ensures Agree(a, b)
  {
    FirstMinIsAtLeast(base, s, v, expected, t, w, expectedToo, p, a, b);
    FirstMinIsAtLeast(base, t, w, expectedToo, s, v, expected, p, b, a);
    SameKey(Norm(a.minSupported.value), Norm(b.minSupported.value));
    MergedEntries(base, s, v, expected, t, w, expectedToo, p, a);
    MergedEntries(base, t, w, expectedToo, s, v, expected, p, b);
    SwapUpdates(base.versions, v, s.versions[v], w, t.versions[w]);
  }

  /** From a validated base with a stamped entry two distinct releases commute: in whichever order
      they merge, they succeed or fail together, and agree. */
  lemma MergesFromValidatedBaseCommute(base: Manifest, s: Manifest, v: string, expected: int,
                                       t: Manifest, w: string, expectedToo: int, p: Policy)
    requires Valid(base) && V.IsRelease(v) && V.IsRelease(w) && v != w
    requires MeetsFloor(base, p) && SupportedEntriesAreStamped(base)
    requires exists k :: k in base.versions && Stamped(base, k)
    ensures MergeTwo(base, s, v, expected, t, w, expectedToo, p).Some? <==>
            MergeTwo(base, t, w, expectedToo, s, v, expected, p).Some?
    ensures MergeTwo(base, s, v, expected, t, w, expectedToo, p).Some? ==>
      Agree(MergeTwo(base, s, v, expected, t, w, expectedToo, p).value,
            MergeTwo(base, t, w, expectedToo, s, v, expected, p).value)
  {
    if MergeTwo(base, s, v, expected, t, w, expectedToo, p).Some? {
      ValidatedBaseCovers(base, s, v, expected, t, w, expectedToo, p);
      MergesCommuteIff(base, s, v, expected, t, w, expectedToo, p);
    }
    if MergeTwo(base, t, w, expectedToo, s, v, expected, p).Some? {
      ValidatedBaseCovers(base, t, w, expectedToo, s, v, expected, p);
      MergesCommuteIff(base, t, w, expectedToo, s, v, expected, p);
    }
  }

  lemma ValidatedBaseCovers(base: Manifest, s: Manifest, v: string, expected: int,
                            t: Manifest, w: string, expectedToo: int, p: Policy)
    requires Valid(base) && V.IsRelease(v) && V.IsRelease(w) && v != w
    requires MeetsFloor(base, p) && SupportedEntriesAreStamped(base)
    requires exists k :: k in base.versions && Stamped(base, k)
    requires MergeTwo(base, s, v, expected, t, w, expectedToo, p).Some?
    ensures Covered(base, v, w) && (v in base.versions ==> Stamped(base, v))
  {
    MergeTwoSucceedsIff(base, s, v, expected, t, w, expectedToo, p);
    var c, f := Norm(base.minSupported.value), Floor(base, p).value;
    BelowIsNotAtLeast(c, f);
    AtLeastOrder(v, c, f);
    FloorIs(base, p, v);
    V.NormalizedIsFixed(v);
    if v in base.versions {
      BelowIsNotAtLeast(v, c);
      assert Allowed(base, Norm(v));
    }
  }

  lemma MetFloorStays(m: Manifest, p: Policy)
    requires MeetsFloor(m, p)
    ensures EnforceFloor(m, p) == Some(m)
  {
  }

  /** From a base with no stamped entry only one order of two releases can succeed: the older first. */
  lemma UnstampedBaseTakesOneOrder(base: Manifest, s: Manifest, v: string, expected: int,
                                   t: Manifest, w: string, expectedToo: int, p: Policy)
    requires Valid(base) && V.IsRelease(v) && V.IsRelease(w) && V.VersionKey(v) != V.VersionKey(w)
    requires forall k :: k in base.versions ==> !Stamped(base, k)
    requires MergeTwo(base, s, v, expected, t, w, expectedToo, p).Some?
    ensures AtLeast(w, v) && MergeTwo(base, t, w, expectedToo, s, v, expected, p).None?
  {
    assert v != w;
    MergeTwoSucceedsIff(base, s, v, expected, t, w, expectedToo, p);
    MergesCommuteIff(base, s, v, expected, t, w, expectedToo, p);
    AtLeastOrder(v, w, v);
  }

  lemma LowerCoreIsLower(a: string, b: string)
    requires V.IsRelease(a) && V.IsRelease(b) && |V.VersionKey(a).core| > 0 && |V.VersionKey(b).core| > 0
    requires V.VersionKey(a).core[0] < V.VersionKey(b).core[0]
    ensures !AtLeast(a, b) && AtLeast(b, a)
  {
    assert V.DiffersAt(V.NatLess, V.VersionKey(a).core, V.VersionKey(b).core, 0);
    AtLeastOrder(a, b, a);
  }

  function Release(v: string, protocol: Option<int>): Manifest {
    Manifest([v], map[v := Entry(protocol, "")], [], None, false)
  }

  /** A base that lists one unstamped version takes any release above it. */
  lemma OldBaseIsMergeable(u: string, v: string, p: Policy)
    requires V.IsRelease(u) && V.IsRelease(v) && Reads(p.selfHeal) && Norm(p.selfHeal) == u
    requires !AtLeast(u, v) && AtLeast(v, u)
    ensures Mergeable(Release(u, None), p, v) && Valid(Release(u, None)) && u != v
    ensures forall x :: V.IsRelease(x) ==> !AboveSomeStamped(Release(u, None), x) && !Blocked(Release(u, None), x)
  {
    V.NormalizedIsFixed(u);
    AtLeastOrder(v, v, v);
    AtLeastOrder(u, u, u);
    assert forall x :: V.IsRelease(x) ==> !AboveSomeStamped(Release(u, None), x);
  }

  /** A base that lists one unstamped version below the two. */
  lemma OldBaseTakesOneOrder(u: string, v: string, w: string, p: Policy)
    requires V.IsRelease(u) && V.IsRelease(v) && V.IsRelease(w) && Reads(p.selfHeal) && Norm(p.selfHeal) == u
    requires !AtLeast(u, v) && AtLeast(v, u) && !AtLeast(v, w) && AtLeast(w, v) && AtLeast(w, u)
    requires forall k, e :: p.wellFormed(k, e)
    ensures MergeTwo(Release(u, None), Release(v, Some(1)), v, 1, Release(w, Some(1)), w, 1, p).Some?
    ensures MergeTwo(Release(u, None), Release(w, Some(1)), w, 1, Release(v, Some(1)), v, 1, p).None?
  {
    OldBaseIsMergeable(u, v, p);
    ReleaseIsValid(v, p);
    ReleaseIsValid(w, p);
    ReleaseIsUnstamped(u);
    AdmittedAbove(Release(u, None), v, w, p);
    UnstampedBaseTakesOlderFirst(Release(u, None), Release(v, Some(1)), v, Release(w, Some(1)), w, p);
  }

  lemma ReleaseIsValid(v: string, p: Policy)
    requires V.IsRelease(v) && forall k, e :: p.wellFormed(k, e)
    ensures EntryIsValid(Release(v, Some(1)), v, 1, p) && !Release(v, Some(1)).served
  {
  }

  lemma ReleaseIsUnstamped(u: string)
    ensures forall k :: k in Release(u, None).versions ==> !Stamped(Release(u, None), k)
    ensures !Release(u, None).served
  {
  }

  lemma AdmittedAbove(base: Manifest, v: string, w: string, p: Policy)
    requires V.IsRelease(v) && V.IsRelease(w) && Mergeable(base, p, v) && base.minSupported.None?
    requires AtLeast(w, v) && AtLeast(w, Norm(p.selfHeal))
    ensures Admits(base, p, v, w)
  {
  }

  /** From a base with no stamped entry that takes the older release and admits the newer one, the
      older first succeeds and the newer first does not. */
  lemma UnstampedBaseTakesOlderFirst(base: Manifest, s: Manifest, v: string, t: Manifest, w: string, p: Policy)
    requires Valid(base) && V.IsRelease(v) && V.IsRelease(w) && !AtLeast(v, w)
    requires forall k :: k in base.versions ==> !Stamped(base, k)
    requires !base.served && !s.served && !t.served && EntryIsValid(s, v, 1, p) && EntryIsValid(t, w, 1, p)
    requires Mergeable(base, p, v) && Admits(base, p, v, w) && !Blocked(base, w)
    ensures MergeTwo(base, s, v, 1, t, w, 1, p).Some? && MergeTwo(base, t, w, 1, s, v, 1, p).None?
  {
    AtLeastOrder(v, v, v);
    MergeTwoSucceedsIff(base, s, v, 1, t, w, 1, p);
    UnstampedBaseTakesOneOrder(base, s, v, 1, t, w, 1, p);
  }

  /** Such a base exists.  With 0.0.0 listed and unstamped, merging 1.0.0 and then 2.0.0 succeeds,
      and the other order does not. */
  lemma OneOrderOnly() returns (base: Manifest, p: Policy)
    ensures base == Release("0.0.0", None)
    ensures MergeTwo(base, Release("1.0.0", Some(1)), "1.0.0", 1, Release("2.0.0", Some(1)), "2.0.0", 1, p).Some?
    ensures MergeTwo(base, Release("2.0.0", Some(1)), "2.0.0", 1, Release("1.0.0", Some(1)), "1.0.0", 1, p).None?
  {
    V.DigitVersion('0', '0', '0');
    V.DigitVersion('1', '0', '0');
    V.DigitVersion('2', '0', '0');
    V.NormalizedIsFixed("0.0.0");
    LowerCoreIsLower("0.0.0", "1.0.0");
    LowerCoreIsLower("1.0.0", "2.0.0");
    LowerCoreIsLower("0.0.0", "2.0.0");
    base, p := Release("0.0.0", None), Policy("0.0.0", (v, e) => true);
    OldBaseTakesOneOrder("0.0.0", "1.0.0", "2.0.0", p);
  }

  lemma SetAgain(base: Manifest, v: string, e: Entry, m: Manifest)
    requires m == SetEntry(base, v, e).(minSupported := m.minSupported)
    ensures SetEntry(m, v, e) == m
  {
  }

  /** Merging the same entry again changes nothing. */
  lemma MergeIsIdempotent(base: Manifest, source: Manifest, raw: string, expected: int, p: Policy)
    requires Merge(base, source, raw, expected, p).Some?
    ensures var m := Merge(base, source, raw, expected, p);
      Merge(m.value, source, raw, expected, p) == m
  {
    var v := Norm(raw);
    var m := Merge(base, source, raw, expected, p).value;
    var e := source.versions[v];
    SetAgain(base, v, e, m);
    MetFloorStays(m, p);
  }

  // ------------------------------------------------------------- the document

  /** The manifest as the tool holds it: a dictionary that is changed in place. */
  class Document {
    var manifest: Manifest

    constructor (m: Manifest)
      ensures manifest == m
    {
      manifest := m;
    }

    /** None for an error, and otherwise whether the minimum was changed. */
    method EnforceMinSupportedFloor(p: Policy) returns (changed: Option<bool>)
      modifies this
      ensures EnforceFloor(old(manifest), p).None? <==> changed.None?
      ensures manifest == (if changed.None? then old(manifest) else EnforceFloor(old(manifest), p).value)
      ensures changed == Some(false) ==> manifest == old(manifest)
    {
      var floor := Floor(manifest, p);
      if floor.None? || !MinReads(manifest) {
        return None;
      }
      if NeedsFloor(manifest, floor.value) {
        manifest := manifest.(minSupported := floor);
        return Some(true);
      }
      return Some(false);
    }

    /** The merge works on a copy: the base document is untouched. */
    method MergeTargetEntry(source: Document, raw: string, expected: int, p: Policy) returns (merged: Option<Document>)
      ensures merged.Some? <==> Merge(manifest, source.manifest, raw, expected, p).Some?
      ensures merged.Some? ==>
        fresh(merged.value) && Some(merged.value.manifest) == Merge(manifest, source.manifest, raw, expected, p)
    {
      if !Reads(raw) || manifest.served || source.manifest.served
         || !EntryIsValid(source.manifest, Norm(raw), expected, p) {
        return None;
      }
      var v := Norm(raw);
      var copy := new Document(manifest);
      copy.manifest := SetEntry(copy.manifest, v, source.manifest.versions[v]);
      var changed := copy.EnforceMinSupportedFloor(p);
      if changed.None? {
        return None;
      }
      if SupportedEntriesAreStamped(copy.manifest) && MeetsFloor(copy.manifest, p)
         && EntryIsValid(copy.manifest, v, expected, p) && Allowed(copy.manifest, v) {
        return Some(copy);
      }
      return None;
    }
  }
}
