// Nightly betas and promotions.  A commit is its source, which is everything
// outside the version fields, and its version; git is a DAG that only grows; and
// every command is a step that other people's pushes and tags come between.
module ReleaseCadence {

  datatype Option<+T> = None | Some(value: T)

  datatype Core = Core(major: nat, minor: nat, patch: nat)

  predicate CoreLess(a: Core, b: Core) {
    || a.major < b.major
    || (a.major == b.major && (a.minor < b.minor || (a.minor == b.minor && a.patch < b.patch)))
  }

  /** A version or the tag that names it; `Other` is any other prerelease. */
  datatype Tag = Beta(core: Core, n: nat) | Stable(core: Core) | Other(core: Core, name: string)

  datatype Commit = Commit(source: string, version: Tag, parents: seq<nat>)

  /** Every parent was there before. */
  predicate IsDag(cs: seq<Commit>) {
    forall i, k :: 0 <= i < |cs| && 0 <= k < |cs[i].parents| ==> cs[i].parents[k] < i
  }

  predicate Ancestor(cs: seq<Commit>, a: nat, b: nat)
    requires IsDag(cs) && b < |cs|
    decreases b
  {
    a == b || exists k :: 0 <= k < |cs[b].parents| && Ancestor(cs, a, cs[b].parents[k])
  }

  lemma {:induction false} AncestorIsBefore(cs: seq<Commit>, a: nat, b: nat)
    requires IsDag(cs) && b < |cs| && Ancestor(cs, a, b)
    ensures a <= b
    decreases b
  {
    if a != b {
      var k :| 0 <= k < |cs[b].parents| && Ancestor(cs, a, cs[b].parents[k]);
      AncestorIsBefore(cs, a, cs[b].parents[k]);
    }
  }

  lemma {:induction false} AncestorTransitive(cs: seq<Commit>, a: nat, b: nat, c: nat)
    requires IsDag(cs) && b < |cs| && c < |cs| && Ancestor(cs, a, b) && Ancestor(cs, b, c)
    ensures Ancestor(cs, a, c)
    decreases c
  {
    if b != c {
      var k :| 0 <= k < |cs[c].parents| && Ancestor(cs, b, cs[c].parents[k]);
      AncestorTransitive(cs, a, b, cs[c].parents[k]);
    }
  }

  lemma {:induction false} AncestorKept(cs: seq<Commit>, ds: seq<Commit>, a: nat, b: nat)
    requires IsDag(cs) && IsDag(ds) && cs <= ds && b < |cs|
    ensures Ancestor(cs, a, b) <==> Ancestor(ds, a, b)
    decreases b
  {
    assert cs[b] == ds[b];
    forall k | 0 <= k < |cs[b].parents|
      ensures Ancestor(cs, a, cs[b].parents[k]) <==> Ancestor(ds, a, ds[b].parents[k])
    {
      AncestorKept(cs, ds, a, cs[b].parents[k]);
    }
  }

  // ---------------------------------------------------------------- planning

  datatype Action = Skip | NewBeta | Promote | Retry

  datatype Plan = Plan(head: nat, action: Action, tag: Option<Tag>, source: nat, beta: Option<Tag>, next: Option<Tag>)

  datatype CatalogEntry = CatalogEntry(draft: bool, prerelease: bool)

  /** What `stage` leaves: the release candidate, and the landing that main will move to. */
  datatype Staged = Staged(plan: Plan, release: nat, landing: nat)

  datatype Progress = Idle | Landed(staged: Staged) | Checked(staged: Staged) | Tagged(staged: Staged)

  /** One release that was pushed. */
  datatype Release = Release(tag: Tag, commit: nat, plan: Plan, landing: nat)

  /** `main`, `tracking` and `tags` are this clone's; `origin` and `remote` are the server's. */
  datatype State = State(
    commits: seq<Commit>, main: nat, tracking: nat, origin: nat, tags: map<Tag, nat>, remote: map<Tag, nat>,
    plans: set<Plan>, stages: set<Staged>, progress: Progress, ledger: seq<Release>)

  predicate Formed(s: State) {
    && IsDag(s.commits) && s.main < |s.commits| && s.tracking < |s.commits| && s.origin < |s.commits|
    && (forall t :: t in s.tags ==> s.tags[t] < |s.commits|)
    && (forall t :: t in s.remote ==> s.remote[t] < |s.commits|)
  }

  /** The tags `git tag --merged main` lists, in some order. */
  ghost predicate Lists(s: State, listing: seq<Tag>)
    requires Formed(s)
  {
    forall t :: t in listing <==> t in s.tags && Ancestor(s.commits, s.tags[t], s.main)
  }

  predicate BetaBefore(a: Tag, b: Tag)
    requires a.Beta? && b.Beta?
  {
    CoreLess(a.core, b.core) || (a.core == b.core && a.n < b.n)
  }

  /** The last of the sorted betas. */
  function LatestBeta(listing: seq<Tag>): (r: Option<Tag>)
    ensures r.Some? ==> r.value.Beta? && r.value in listing
  {
    if listing == [] then None else
    var before := LatestBeta(listing[..|listing| - 1]);
    var t := listing[|listing| - 1];
    if t.Beta? && (before.None? || !BetaBefore(t, before.value)) then Some(t) else before
  }

  /** The largest number among `start` and the betas of `core`. */
  function MaxNumber(listing: seq<Tag>, core: Core, start: nat): (n: nat)
    ensures n >= start && forall t :: t in listing && t.Beta? && t.core == core ==> t.n <= n
  {
    if listing == [] then start else
    var before := MaxNumber(listing[..|listing| - 1], core, start);
    var t := listing[|listing| - 1];
    if t.Beta? && t.core == core && t.n > before then t.n else before
  }

  predicate StablesBelow(listing: seq<Tag>, core: Core) {
    forall i :: 0 <= i < |listing| && listing[i].Stable? ==> CoreLess(listing[i].core, core)
  }

  function NextPatch(core: Core): Core {
    core.(patch := core.patch + 1)
  }

  /** The version that the next beta counts from. */
  function Cycle(current: Tag): Option<(Core, nat)> {
    match current
    case Beta(core, n) => Some((core, n))
    case Stable(core) => Some((NextPatch(core), 0))
    case Other(_, _) => None
  }

  function MakePlan(s: State, listing: seq<Tag>, catalog: map<Tag, CatalogEntry>, promote: Option<Tag>): Option<Plan>
    requires Formed(s) && forall t :: t in listing ==> t in s.tags
  {
    if s.main != s.tracking then None else
    var current := s.commits[s.main].version;
    match promote
    case Some(beta) =>
      if !beta.Beta? || beta !in listing || beta !in catalog || catalog[beta].draft || !catalog[beta].prerelease
         || !StablesBelow(listing, beta.core) || Stable(beta.core) in s.tags || current.core != beta.core
      then None
      else Some(Plan(s.main, Promote, Some(Stable(beta.core)), s.tags[beta], promote,
                     Some(Beta(NextPatch(beta.core), 0))))
    case None =>
      var latest := LatestBeta(listing);
      if latest.Some? && s.commits[s.tags[latest.value]].source == s.commits[s.main].source then
        if latest.value !in catalog || catalog[latest.value].draft
        then Some(Plan(s.main, Retry, latest, s.tags[latest.value], None, None))
        else Some(Plan(s.main, Skip, None, s.main, None, None))
      else
        var cycle := Cycle(current);
        if cycle.None? then None else
        var tag := Beta(cycle.value.0, MaxNumber(listing, cycle.value.0, cycle.value.1) + 1);
        if tag in s.tags then None else Some(Plan(s.main, NewBeta, Some(tag), s.main, None, None))
  }

  lemma BetaOrder(a: Tag, b: Tag, c: Tag)
    requires a.Beta? && b.Beta? && c.Beta?
    ensures !BetaBefore(a, a)
    ensures !BetaBefore(a, b) && !BetaBefore(b, c) ==> !BetaBefore(a, c)
    ensures BetaBefore(a, b) || BetaBefore(b, a) || a == b
  {
  }

  /** The latest beta is there when there is any, and no listed beta comes after it. */
  lemma {:induction false} LatestIsLast(listing: seq<Tag>, t: Tag)
    requires t in listing && t.Beta?
    ensures LatestBeta(listing).Some? && !BetaBefore(LatestBeta(listing).value, t)
  {
    var rest, last := listing[..|listing| - 1], listing[|listing| - 1];
    BetaOrder(t, t, t);
    if t in rest {
      LatestIsLast(rest, t);
      if last.Beta? {
        var before := LatestBeta(rest).value;
        BetaOrder(last, before, t);
        BetaOrder(before, last, before);
      }
    } else if LatestBeta(rest).Some? {
      BetaOrder(LatestBeta(rest).value, t, t);
    }
  }

  /** Cores are in order of major, then minor, then patch. */
  lemma CoresAreInOrder(a: Core, b: Core)
    ensures !(CoreLess(a, b) && CoreLess(b, a))
    ensures CoreLess(a, Core(a.major, a.minor, a.patch + 1 + b.patch))
    ensures CoreLess(a, Core(a.major, a.minor + 1 + b.minor, b.patch))
    ensures CoreLess(a, Core(a.major + 1 + b.major, b.minor, b.patch))
  {
  }

  /** A merged beta that comes after every other merged one. */
  ghost predicate IsLatest(listing: seq<Tag>, t: Tag) {
    && t in listing && t.Beta?
    && forall u :: u in listing && u.Beta? && u != t ==>
         CoreLess(u.core, t.core) || (u.core == t.core && u.n < t.n)
  }

  /** The latest merged beta is main's own source. */
  ghost predicate Covers(s: State, listing: seq<Tag>, t: Tag)
    requires Formed(s) && forall t :: t in listing ==> t in s.tags
  {
    IsLatest(listing, t) && s.commits[s.tags[t]].source == s.commits[s.main].source
  }

  /** The release of this tag is out: it is in the catalog and no draft. */
  predicate IsOut(catalog: map<Tag, CatalogEntry>, t: Tag) {
    t in catalog && !catalog[t].draft
  }

  /** One more than the largest of `start` and the numbers of the listed betas of `core`. */
  ghost predicate IsNextNumber(listing: seq<Tag>, core: Core, start: nat, number: nat) {
    && start < number && (forall t :: t in listing && t.Beta? && t.core == core ==> t.n < number)
    && (number == start + 1 || Beta(core, number - 1) in listing)
  }

  lemma {:induction false} MaxNumberIsListed(listing: seq<Tag>, core: Core, start: nat)
    ensures var n := MaxNumber(listing, core, start); n == start || Beta(core, n) in listing
  {
    if listing != [] {
      MaxNumberIsListed(listing[..|listing| - 1], core, start);
    }
  }

  lemma LatestIsLatest(listing: seq<Tag>)
    ensures LatestBeta(listing).Some? ==> IsLatest(listing, LatestBeta(listing).value)
    ensures forall t :: IsLatest(listing, t) ==> LatestBeta(listing) == Some(t)
  {
    var latest := LatestBeta(listing);
    forall u | u in listing && u.Beta? ensures latest.Some? && !BetaBefore(latest.value, u) {
      LatestIsLast(listing, u);
    }
    forall u | u in listing && u.Beta? && latest.Some? && u != latest.value ensures BetaBefore(u, latest.value) {
      BetaOrder(u, latest.value, u);
    }
    forall t | IsLatest(listing, t) ensures latest == Some(t) {
      BetaOrder(t, latest.value, t);
    }
  }

  /** A nightly whose latest merged beta is main's own source retries it exactly while that beta is not
      out, and then its own commit, and skips exactly when it is. */
  lemma NightlyIs(s: State, listing: seq<Tag>, catalog: map<Tag, CatalogEntry>, t: Tag)
    requires Formed(s) && (forall t :: t in listing ==> t in s.tags) && s.main == s.tracking
    requires Covers(s, listing, t)
    ensures MakePlan(s, listing, catalog, None) ==
      if IsOut(catalog, t) then Some(Plan(s.main, Skip, None, s.main, None, None))
      else Some(Plan(s.main, Retry, Some(t), s.tags[t], None, None))
  {
    LatestIsLatest(listing);
  }

  /** Otherwise it plans a new beta of main's own source in the cycle that main is in, numbered one more
      than the largest number there; there is none when main is on another prerelease or the tag is taken. */
  lemma NewBetaIs(s: State, listing: seq<Tag>, catalog: map<Tag, CatalogEntry>) returns (number: nat)
    requires Formed(s) && (forall t :: t in listing ==> t in s.tags) && s.main == s.tracking
    requires forall t :: !Covers(s, listing, t)
    ensures var current := s.commits[s.main].version;
      var core := if current.Beta? then current.core else Core(current.core.major, current.core.minor, current.core.patch + 1);
      && (current.Other? ==> MakePlan(s, listing, catalog, None).None?)
      && (!current.Other? ==>
            && IsNextNumber(listing, core, if current.Beta? then current.n else 0, number)
            && MakePlan(s, listing, catalog, None) ==
                 if Beta(core, number) in s.tags then None
                 else Some(Plan(s.main, NewBeta, Some(Beta(core, number)), s.main, None, None)))
  {
    LatestIsLatest(listing);
    var latest := LatestBeta(listing);
    assert latest.Some? ==> !Covers(s, listing, latest.value);
    var cycle := Cycle(s.commits[s.main].version);
    if cycle.Some? {
      MaxNumberIsListed(listing, cycle.value.0, cycle.value.1);
      number := MaxNumber(listing, cycle.value.0, cycle.value.1) + 1;
    } else {
      number := 0;
    }
  }

  /** A beta can be promoted exactly when it is merged and out as a prerelease, its core is main's and
      above every merged stable's, and the stable is not there; it is promoted from its own commit, and
      main goes on with the next patch. */
  lemma PromotionIs(s: State, listing: seq<Tag>, catalog: map<Tag, CatalogEntry>, beta: Tag)
    requires Formed(s) && (forall t :: t in listing ==> t in s.tags) && s.main == s.tracking
    ensures var p := MakePlan(s, listing, catalog, Some(beta));
      && (p.Some? <==>
            && beta.Beta? && beta in listing && IsOut(catalog, beta) && catalog[beta].prerelease
            && s.commits[s.main].version.core == beta.core && Stable(beta.core) !in s.tags
            && forall t :: t in listing && t.Stable? ==> CoreLess(t.core, beta.core))
      && (p.Some? ==> p.value == Plan(s.main, Promote, Some(Stable(beta.core)), s.tags[beta], Some(beta),
                                     Some(Beta(Core(beta.core.major, beta.core.minor, beta.core.patch + 1), 0))))
  {
  }

  /** Nothing is planned while main is not where the server last showed it. */
  lemma StaleMainPlansNothing(s: State, listing: seq<Tag>, catalog: map<Tag, CatalogEntry>, promote: Option<Tag>)
    requires Formed(s) && (forall t :: t in listing ==> t in s.tags) && s.main != s.tracking
    ensures MakePlan(s, listing, catalog, promote).None?
  {
  }

  predicate VerifyPlan(s: State, p: Plan)
    requires Formed(s)
  {
    && s.main == p.head && p.source < |s.commits|
    && (p.action == NewBeta ==> p.source == p.head)
    && (p.action == Promote ==> p.beta.Some? && p.beta.value in s.tags && s.tags[p.beta.value] == p.source)
    && Ancestor(s.commits, p.source, s.main)
  }

  // ----------------------------------------------------------------- staging

  /** `set_release_version` and a commit on top of `parents`; None when no file changed. */
  function Bump(cs: seq<Commit>, source: string, from: Tag, to: Tag, parents: seq<nat>): Option<seq<Commit>> {
    if from == to then None else Some(cs + [Commit(source, to, parents)])
  }

  function Stage(s: State, p: Plan): Option<(seq<Commit>, Staged)>
    requires Formed(s)
  {
    if !VerifyPlan(s, p) || !(p.action == NewBeta || p.action == Promote) || p.tag.None? then None else
    var base := s.commits[p.source];
    var release := |s.commits|;
    var candidate := Bump(s.commits, base.source, base.version, p.tag.value, [p.source]);
    if candidate.None? then None
    else if p.action == NewBeta then Some((candidate.value, Staged(p, release, release)))
    else if p.next.None? then None
    else
      // The "ours" merge: main's own content, with the candidate as a second parent.
      var head := s.commits[p.head];
      var merged := Bump(candidate.value, head.source, head.version, p.next.value, [p.head, release]);
      if merged.None? then None else Some((merged.value, Staged(p, release, release + 1)))
  }

  predicate CheckSource(cs: seq<Commit>, source: nat, commit: nat, tag: Option<Tag>)
    requires IsDag(cs) && source < |cs| && commit < |cs|
  {
    && Ancestor(cs, source, commit) && cs[source].source == cs[commit].source
    && tag == Some(cs[commit].version)
  }

  /** The checks of `land`, where `candidate` and `landing` are what the two worktrees hold by then. */
  predicate MayLand(s: State, sd: Staged, candidate: nat, landing: nat)
    requires Formed(s)
  {
    var p, cs := sd.plan, s.commits;
    && VerifyPlan(s, p) && candidate == sd.release && candidate < |cs| && landing < |cs|
    && CheckSource(cs, p.source, candidate, p.tag)
    && (if sd.landing == sd.release then landing == candidate else CheckSource(cs, p.head, landing, p.next))
    && Ancestor(cs, sd.release, landing)
    && cs[p.source].source == cs[sd.release].source
    && cs[if p.action == Promote then p.head else p.source].source == cs[landing].source
    && Ancestor(cs, s.main, landing)
  }

  // -------------------------------------------------------------------- steps

  /** How far a push got: not to the server, to it without its answer coming back, or there and back. */
  datatype Contact = Unreached | AnswerLost | Answered

  datatype Step =
    | AddCommit(commit: Commit)                      // anyone, in any worktree
    | DevPush(to: nat)                               // someone else moves main on the server
    | TagElsewhere(tag: Tag, to: nat)                // someone else pushes a tag
    | TagHere(tag: Tag, to: nat)                     // a local tag, made by hand or fetched
    | Fetch
    | Reset                                          // main goes back to origin/main
    | Reclone
    | Crash
    | DoPlan(listing: seq<Tag>, catalog: map<Tag, CatalogEntry>, promote: Option<Tag>)
    | DoStage(plan: Plan)
    | DoLand(staged: Staged, candidate: nat, landing: nat)
    | DoCheck
    | DoTag
    | DoPush(contact: Contact)

  ghost predicate Enabled(s: State, a: Step) {
    Formed(s) &&
    match a
    case AddCommit(c) => forall k :: 0 <= k < |c.parents| ==> c.parents[k] < |s.commits|
    case DevPush(to) => to < |s.commits| && Ancestor(s.commits, s.origin, to)
    case TagElsewhere(t, to) => to < |s.commits| && t !in s.remote
    case TagHere(t, to) => to < |s.commits| && t !in s.tags
    case Fetch => s.progress == Idle
    case Reset => true
    case Reclone => true
    case Crash => true
    case DoPlan(listing, _, _) => s.progress == Idle && Lists(s, listing)
    case DoStage(p) => s.progress == Idle && p in s.plans
    case DoLand(sd, _, _) => s.progress == Idle && sd in s.stages
    case DoCheck => s.progress.Landed?
    case DoTag => s.progress.Checked?
    case DoPush(_) => s.progress.Tagged?
  }

  function Land(s: State, sd: Staged, candidate: nat, landing: nat): State
    requires Formed(s)
  {
    if MayLand(s, sd, candidate, landing) then s.(main := landing, progress := Landed(sd)) else s
  }

  /** Fetch, and give up when main advanced or the tag is taken. */
  function Check(s: State, sd: Staged): State {
    var t := s.(tracking := s.origin);
    if s.origin != sd.plan.head || sd.plan.tag.None? || sd.plan.tag.value in s.remote
    then t.(progress := Idle) else t.(progress := Checked(sd))
  }

  function TagRelease(s: State, sd: Staged): State {
    if sd.plan.tag.None? || sd.plan.tag.value in s.tags then s.(progress := Idle)
    else s.(tags := s.tags[sd.plan.tag.value := sd.release], progress := Tagged(sd))
  }

  /** The atomic push of main and the tag: the server takes both or neither, and the clone hears of it
      unless the answer is lost. */
  function Push(s: State, sd: Staged, contact: Contact): State
    requires Formed(s)
  {
    if contact.Unreached? || sd.plan.tag.None? || sd.plan.tag.value in s.remote || !Ancestor(s.commits, s.origin, s.main)
    then s.(progress := Idle)
    else s.(origin := s.main, tracking := if contact.Answered? then s.main else s.tracking,
            remote := s.remote[sd.plan.tag.value := sd.release], progress := Idle,
            ledger := s.ledger + [Release(sd.plan.tag.value, sd.release, sd.plan, s.main)])
  }

  ghost function Next(s: State, a: Step): State
    requires Enabled(s, a)
  {
    match a
    case AddCommit(c) => s.(commits := s.commits + [c])
    case DevPush(to) => s.(origin := to)
    case TagElsewhere(t, to) => s.(remote := s.remote[t := to])
    case TagHere(t, to) => s.(tags := s.tags[t := to])
    case Fetch => s.(tracking := s.origin)
    case Reset => s.(main := s.tracking, progress := Idle)
    case Reclone => s.(main := s.origin, tracking := s.origin, tags := s.remote, progress := Idle)
    case Crash => s.(progress := Idle)
    case DoPlan(listing, catalog, promote) =>
      var p := MakePlan(s, listing, catalog, promote);
      if p.None? then s else s.(plans := s.plans + {p.value})
    case DoStage(p) =>
      var r := Stage(s, p);
      if r.None? then s else s.(commits := r.value.0, stages := s.stages + {r.value.1})
    case DoLand(sd, candidate, landing) => Land(s, sd, candidate, landing)
    case DoCheck => Check(s, s.progress.staged)
    case DoTag => TagRelease(s, s.progress.staged)
    case DoPush(contact) => Push(s, s.progress.staged, contact)
  }

  ghost predicate Reaches(s: State, run: seq<Step>, t: State)
    decreases |run|
  {
    if run == [] then s == t else Enabled(s, run[0]) && Reaches(Next(s, run[0]), run[1..], t)
  }

  /** Any history and any tags; nothing planned or released by this tool yet. */
  ghost predicate Initial(s: State) {
    && Formed(s) && Ancestor(s.commits, s.tracking, s.origin)
    && s.plans == {} && s.stages == {} && s.progress == Idle && s.ledger == []
  }

  // ---------------------------------------------------------------- invariant

  /** `tag` comes after every release so far. */
  predicate FreshTag(tag: Tag, ledger: seq<Release>) {
    forall i :: 0 <= i < |ledger| ==> After(ledger[i].tag, tag)
  }

  /** A beta's number goes up within its core, and a stable's core goes up. */
  predicate After(a: Tag, b: Tag) {
    && (a.Beta? && b.Beta? && a.core == b.core ==> a.n < b.n)
    && (a.Stable? && b.Stable? ==> CoreLess(a.core, b.core))
  }

  predicate Ordered(ledger: seq<Release>) {
    forall i, j :: 0 <= i < j < |ledger| ==> After(ledger[i].tag, ledger[j].tag)
  }

  /** A new beta or a promotion, with the tag that goes with it. */
  predicate Releases(p: Plan) {
    || (p.action == NewBeta && p.tag.Some? && p.tag.value.Beta?)
    || (p.action == Promote && p.beta.Some? && p.beta.value.Beta? && p.tag == Some(Stable(p.beta.value.core))
        && p.next == Some(Beta(NextPatch(p.beta.value.core), 0)))
  }

  /** A release as it should be: its commit is an ancestor of main and is the source that was chosen,
      under its own version; and main was landed on without changing its source, after a promotion
      at the start of the next core's betas. */
  predicate GoodRelease(cs: seq<Commit>, r: Release, main: nat)
    requires IsDag(cs) && main < |cs|
  {
    && Releases(r.plan) && r.plan.tag == Some(r.tag)
    && r.commit < |cs| && r.plan.source < |cs| && r.plan.head < |cs| && r.landing < |cs|
    && Ancestor(cs, r.commit, main) && Ancestor(cs, r.plan.source, r.commit)
    && cs[r.commit].source == cs[r.plan.source].source && cs[r.commit].version == r.tag
    && cs[r.landing].source == cs[r.plan.head].source
    && cs[r.landing].version == (if r.plan.action == NewBeta then r.tag else r.plan.next.value)
    && Ancestor(cs, r.plan.head, r.landing) && Ancestor(cs, r.landing, main)
  }

  predicate Recorded(s: State, r: Release)
    requires Formed(s)
  {
    && GoodRelease(s.commits, r, s.origin)
    && r.tag in s.tags && s.tags[r.tag] == r.commit && r.tag in s.remote && s.remote[r.tag] == r.commit
  }

  /** A plan may still be carried out only while the server's main is where it was planned. */
  predicate PlanIsFresh(s: State, p: Plan) {
    && p.head <= s.tracking
    && (p.action in {NewBeta, Promote} ==> Releases(p) && (s.origin == p.head ==> FreshTag(p.tag.value, s.ledger)))
  }

  predicate StageIsGood(s: State, sd: Staged)
    requires Formed(s)
  {
    && sd.plan in s.plans && sd.plan.head < sd.release < |s.commits| && sd.plan.action in {NewBeta, Promote}
    && (sd.landing == sd.release <==> sd.plan.action == NewBeta)
  }

  /** Between landing and pushing, main is the landing. */
  predicate ProgressIsGood(s: State)
    requires Formed(s)
  {
    s.progress.Idle? ||
    (var sd := s.progress.staged;
     && sd in s.stages && sd.plan.tag.Some?
     && GoodRelease(s.commits, Release(sd.plan.tag.value, sd.release, sd.plan, s.main), s.main)
     && (s.progress.Landed? || (s.tracking == sd.plan.head && FreshTag(sd.plan.tag.value, s.ledger)))
     && (s.progress.Tagged? ==> sd.plan.tag.value in s.tags && s.tags[sd.plan.tag.value] == sd.release))
  }

  ghost predicate Inv(s: State) {
    && Formed(s) && Ancestor(s.commits, s.tracking, s.origin)
    && (forall i :: 0 <= i < |s.ledger| ==> Recorded(s, s.ledger[i]))
    && (forall p :: p in s.plans ==> PlanIsFresh(s, p))
    && (forall sd :: sd in s.stages ==> StageIsGood(s, sd))
    && ProgressIsGood(s)
    && Ordered(s.ledger)
  }

  lemma GoodReleaseAdvances(cs: seq<Commit>, r: Release, main: nat, next: nat)
    requires IsDag(cs) && main < |cs| && next < |cs| && GoodRelease(cs, r, main) && Ancestor(cs, main, next)
    ensures GoodRelease(cs, r, next)
  {
  }

  lemma GoodReleaseKept(cs: seq<Commit>, ds: seq<Commit>, r: Release, main: nat)
    requires IsDag(cs) && IsDag(ds) && cs <= ds && main < |cs| && GoodRelease(cs, r, main)
    ensures GoodRelease(ds, r, main)
  {
    AncestorKept(cs, ds, r.commit, main);
    AncestorKept(cs, ds, r.plan.source, r.commit);
    AncestorKept(cs, ds, r.plan.head, r.landing);
    AncestorKept(cs, ds, r.landing, main);
  }

  /** More commits change nothing. */
  lemma MoreCommitsKeepInv(s: State, t: State)
    requires Inv(s) && IsDag(t.commits) && s.commits <= t.commits && t == s.(commits := t.commits)
    ensures Inv(t)
  {
    AncestorKept(s.commits, t.commits, s.tracking, s.origin);
    forall i | 0 <= i < |s.ledger| ensures Recorded(t, s.ledger[i]) {
      assert Recorded(s, s.ledger[i]);
      GoodReleaseKept(s.commits, t.commits, s.ledger[i], s.origin);
    }
    if !s.progress.Idle? {
      var sd := s.progress.staged;
      GoodReleaseKept(s.commits, t.commits, Release(sd.plan.tag.value, sd.release, sd.plan, s.main), s.main);
    }
  }

  lemma AddedIsDag(cs: seq<Commit>, c: Commit)
    requires IsDag(cs) && forall k :: 0 <= k < |c.parents| ==> c.parents[k] < |cs|
    ensures IsDag(cs + [c])
  {
  }

  /** The clone catches up with the server, and drops what it was doing. */
  lemma TrackingKeepsInv(s: State, t: State)
    requires Inv(s) && t.progress == Idle && t.main < |s.commits|
    requires t == s.(tracking := s.origin, progress := t.progress, main := t.main, tags := t.tags)
    requires t.tags == s.tags || t.tags == s.remote
    ensures Inv(t)
  {
    AncestorIsBefore(s.commits, s.tracking, s.origin);
    forall i | 0 <= i < |s.ledger| ensures Recorded(t, s.ledger[i]) {
      assert Recorded(s, s.ledger[i]);
    }
  }

  /** The clone stops what it was doing, and its main may move. */
  lemma IdleKeepsInv(s: State, t: State)
    requires Inv(s) && t.main < |s.commits| && t == s.(progress := Idle, main := t.main)
    ensures Inv(t)
  {
  }

  /** A tag that was not there changes nothing that is recorded. */
  lemma NewTagKeepsInv(s: State, t: State, tag: Tag, to: nat)
    requires Inv(s) && to < |s.commits|
    requires (tag !in s.tags && t == s.(tags := s.tags[tag := to])) || (tag !in s.remote && t == s.(remote := s.remote[tag := to]))
    ensures Inv(t)
  {
  }

  lemma DevPushKeepsInv(s: State, to: nat)
    requires Inv(s) && to < |s.commits| && Ancestor(s.commits, s.origin, to)
    ensures Inv(s.(origin := to))
  {
    var t := s.(origin := to);
    AncestorIsBefore(s.commits, s.tracking, s.origin);
    AncestorIsBefore(s.commits, s.origin, to);
    AncestorTransitive(s.commits, s.tracking, s.origin, to);
    forall i | 0 <= i < |s.ledger| ensures Recorded(t, s.ledger[i]) {
      assert Recorded(s, s.ledger[i]);
      GoodReleaseAdvances(s.commits, s.ledger[i], s.origin, to);
    }
    forall p | p in t.plans ensures PlanIsFresh(t, p) {
      assert PlanIsFresh(s, p);
    }
  }

  lemma PlanKeepsInv(s: State, listing: seq<Tag>, catalog: map<Tag, CatalogEntry>, promote: Option<Tag>)
    requires Inv(s) && Lists(s, listing) && MakePlan(s, listing, catalog, promote).Some?
    ensures Inv(s.(plans := s.plans + {MakePlan(s, listing, catalog, promote).value}))
  {
  }

  lemma StageMakes(s: State, p: Plan)
    requires Formed(s) && Stage(s, p).Some?
    ensures var (cs, sd) := Stage(s, p).value;
      && IsDag(cs) && s.commits <= cs && sd.plan == p && p.head < sd.release < |cs|
      && p.action in {NewBeta, Promote} && (sd.landing == sd.release <==> p.action == NewBeta)
  {
  }

  lemma StageKeepsInv(s: State, p: Plan)
    requires Inv(s) && p in s.plans && Stage(s, p).Some?
    ensures Inv(s.(commits := Stage(s, p).value.0, stages := s.stages + {Stage(s, p).value.1}))
  {
    var (cs, sd) := Stage(s, p).value;
    StageMakes(s, p);
    var m := s.(commits := cs);
    MoreCommitsKeepInv(s, m);
    var t := m.(stages := m.stages + {sd});
    forall i | 0 <= i < |m.ledger| ensures Recorded(t, m.ledger[i]) {
      assert Recorded(m, m.ledger[i]);
    }
  }

  lemma LandKeepsInv(s: State, sd: Staged, candidate: nat, landing: nat)
    requires Inv(s) && sd in s.stages && MayLand(s, sd, candidate, landing)
    ensures Inv(Land(s, sd, candidate, landing))
  {
  }

  lemma CheckKeepsInv(s: State, sd: Staged)
    requires Inv(s) && s.progress == Landed(sd)
    ensures Inv(Check(s, sd))
  {
    var t := s.(tracking := s.origin, progress := Idle);
    TrackingKeepsInv(s, t);
    var u := Check(s, sd);
    forall i | 0 <= i < |s.ledger| ensures Recorded(u, s.ledger[i]) {
      assert Recorded(t, s.ledger[i]);
    }
  }

  lemma TagKeepsInv(s: State, sd: Staged)
    requires Inv(s) && s.progress == Checked(sd)
    ensures Inv(TagRelease(s, sd))
  {
  }

  lemma PushedIsRecorded(s: State, sd: Staged, contact: Contact)
    requires Inv(s) && s.progress == Tagged(sd) && sd.plan.tag.value !in s.remote && Ancestor(s.commits, s.origin, s.main)
    requires !contact.Unreached?
    ensures var t := Push(s, sd, contact); forall i :: 0 <= i < |t.ledger| ==> Recorded(t, t.ledger[i])
  {
    var t := Push(s, sd, contact);
    forall i | 0 <= i < |t.ledger| ensures Recorded(t, t.ledger[i]) {
      if i < |s.ledger| {
        assert t.ledger[i] == s.ledger[i];
        assert Recorded(s, s.ledger[i]);
        GoodReleaseAdvances(s.commits, s.ledger[i], s.origin, s.main);
      }
    }
  }

  lemma PushKeepsOrder(s: State, sd: Staged)
    requires Inv(s) && s.progress == Tagged(sd)
    ensures Ordered(s.ledger + [Release(sd.plan.tag.value, sd.release, sd.plan, s.main)])
  {
  }

  lemma PushKeepsInv(s: State, sd: Staged, contact: Contact)
    requires Inv(s) && s.progress == Tagged(sd)
    ensures Inv(Push(s, sd, contact))
  {
    var t := Push(s, sd, contact);
    if t.ledger == s.ledger {
      IdleKeepsInv(s, t);
    } else {
      PushedIsRecorded(s, sd, contact);
      PushKeepsOrder(s, sd);
      AncestorTransitive(s.commits, s.tracking, s.origin, s.main);
      assert StageIsGood(s, sd);
      AncestorIsBefore(s.commits, sd.release, s.main);
      AncestorIsBefore(s.commits, s.tracking, s.main);
      forall p | p in t.plans ensures PlanIsFresh(t, p) {
        assert PlanIsFresh(s, p);
      }
    }
  }

  lemma StepKeepsInv(s: State, a: Step)
    requires Inv(s) && Enabled(s, a)
    ensures Inv(Next(s, a))
  {
    var t := Next(s, a);
    match a
    case AddCommit(c) =>
      AddedIsDag(s.commits, c);
      MoreCommitsKeepInv(s, t);
    case DevPush(to) => DevPushKeepsInv(s, to);
    case TagElsewhere(tag, to) => NewTagKeepsInv(s, t, tag, to);
    case TagHere(tag, to) => NewTagKeepsInv(s, t, tag, to);
    case Fetch => TrackingKeepsInv(s, t);
    case Reset => IdleKeepsInv(s, t);
    case Reclone => TrackingKeepsInv(s, t);
    case Crash => IdleKeepsInv(s, t);
    case DoPlan(listing, catalog, promote) =>
      if t != s {
        PlanKeepsInv(s, listing, catalog, promote);
      }
    case DoStage(p) =>
      if Stage(s, p).Some? {
        StageKeepsInv(s, p);
      }
    case DoLand(sd, candidate, landing) =>
      if MayLand(s, sd, candidate, landing) {
        LandKeepsInv(s, sd, candidate, landing);
      }
    case DoCheck => CheckKeepsInv(s, s.progress.staged);
    case DoTag => TagKeepsInv(s, s.progress.staged);
    case DoPush(contact) => PushKeepsInv(s, s.progress.staged, contact);
  }

  lemma {:induction false} RunKeepsInv(s: State, run: seq<Step>, t: State)
    requires Inv(s) && Reaches(s, run, t)
    ensures Inv(t)
    decreases |run|
  {
    if run != [] {
      StepKeepsInv(s, run[0]);
      RunKeepsInv(Next(s, run[0]), run[1..], t);
    }
  }

  // ------------------------------------------------------------ main results

  /** Over any run from any history, every release that was pushed is an ancestor of the server's
      main and keeps the source chosen for it; the landing kept main's own source; and in the order
      they were made, beta numbers go up within a core and stable cores go up. */
  lemma ReleasesAreContainedAndOrdered(s: State, run: seq<Step>, t: State)
    requires Initial(s) && Reaches(s, run, t)
    ensures Formed(t)
    ensures forall i :: 0 <= i < |t.ledger| ==>
      GoodRelease(t.commits, t.ledger[i], t.origin)
      && t.ledger[i].tag in t.remote && t.remote[t.ledger[i].tag] == t.ledger[i].commit
    ensures forall i, j :: 0 <= i < j < |t.ledger| ==> After(t.ledger[i].tag, t.ledger[j].tag) && t.ledger[i].tag != t.ledger[j].tag
  {
    RunKeepsInv(s, run, t);
    forall i | 0 <= i < |t.ledger|
      ensures GoodRelease(t.commits, t.ledger[i], t.origin)
        && t.ledger[i].tag in t.remote && t.remote[t.ledger[i].tag] == t.ledger[i].commit
    {
      assert Recorded(t, t.ledger[i]);
    }
  }

  /** Over any run, and whatever the worktrees hold by then, a landing that passes the checks is a good
      release: it keeps main's source, and a promotion releases the source of the beta it names. */
  lemma LandingsAreGood(s: State, run: seq<Step>, t: State, sd: Staged, candidate: nat, landing: nat)
    requires Initial(s) && Reaches(s, run, t) && Formed(t) && sd in t.stages && MayLand(t, sd, candidate, landing)
    ensures sd.plan.tag.Some?
    ensures GoodRelease(t.commits, Release(sd.plan.tag.value, sd.release, sd.plan, landing), landing)
    ensures t.commits[landing].source == t.commits[t.main].source
    ensures sd.plan.action == Promote ==>
      sd.plan.beta.value in t.tags && t.commits[t.tags[sd.plan.beta.value]].source == t.commits[sd.release].source
  {
    RunKeepsInv(s, run, t);
  }

  // -------------------------------------------------------------- the command

  lemma {:induction false} ReachesOneMore(s: State, run: seq<Step>, t: State, a: Step)
    requires Reaches(s, run, t) && Enabled(t, a)
    ensures Reaches(s, run + [a], Next(t, a))
    decreases |run|
  {
    if run == [] {
      assert [a][1..] == [];
    } else {
      ReachesOneMore(Next(s, run[0]), run[1..], t, a);
      assert (run + [a])[1..] == run[1..] + [a];
    }
  }

  /** What others do changes the server or the clone's tags, and nothing else; the clone follows when it
      fetches, resets or is cloned again. */
  lemma OthersMove(s: State, t: Tag, to: nat)
    requires Formed(s) && to < |s.commits|
    ensures Ancestor(s.commits, s.origin, to) ==> Enabled(s, DevPush(to)) && Next(s, DevPush(to)) == s.(origin := to)
    ensures t !in s.remote ==> Enabled(s, TagElsewhere(t, to)) && Next(s, TagElsewhere(t, to)) == s.(remote := s.remote[t := to])
    ensures t !in s.tags ==> Enabled(s, TagHere(t, to)) && Next(s, TagHere(t, to)) == s.(tags := s.tags[t := to])
    ensures s.progress == Idle ==> Enabled(s, Fetch) && Next(s, Fetch) == s.(tracking := s.origin)
    ensures Next(s, Reset) == s.(main := s.tracking, progress := Idle)
    ensures Next(s, Reclone) == s.(main := s.origin, tracking := s.origin, tags := s.remote, progress := Idle)
  {
  }

  /** When the worktrees may be landed, whatever they hold by then: main has not moved, the candidate is
      the one staged and is the plan's source under its tag, and the landing contains it and main; for a
      promotion it is main's own source under the next version, and otherwise the candidate itself. */
  lemma MayLandIff(s: State, sd: Staged, candidate: nat, landing: nat)
    requires Inv(s) && sd in s.stages && candidate < |s.commits| && landing < |s.commits|
    ensures MayLand(s, sd, candidate, landing) <==>
      var p, cs := sd.plan, s.commits;
      && s.main == p.head && p.source < |cs| && Ancestor(cs, p.source, p.head)
      && (p.action == NewBeta ==> p.source == p.head)
      && (p.action == Promote ==> p.beta.value in s.tags && s.tags[p.beta.value] == p.source)
      && candidate == sd.release && Ancestor(cs, p.source, candidate)
      && cs[candidate].source == cs[p.source].source && cs[candidate].version == p.tag.value
      && (p.action == NewBeta ==> landing == candidate)
      && (p.action == Promote ==> Ancestor(cs, p.head, landing) && cs[landing].source == cs[p.head].source && cs[landing].version == p.next.value)
      && Ancestor(cs, candidate, landing) && Ancestor(cs, s.main, landing)
  {
    assert PlanIsFresh(s, sd.plan);
  }

  /** What a plan needs in order to be carried out: main is where it was planned, here and on the server;
      its source is in main, and for a promotion still the beta's; its tag is free here and there; and
      there are versions to change. */
  predicate Releasable(s: State, p: Plan)
    requires Formed(s)
  {
    && p.action in {NewBeta, Promote} && p.tag.Some?
    && s.main == p.head && s.origin == p.head && p.source < |s.commits| && Ancestor(s.commits, p.source, p.head)
    && p.tag.value !in s.tags && p.tag.value !in s.remote && s.commits[p.source].version != p.tag.value
    && (p.action == NewBeta ==> p.source == p.head)
    && (p.action == Promote ==>
          && p.beta.Some? && p.beta.value in s.tags && s.tags[p.beta.value] == p.source
          && p.next.Some? && s.commits[p.head].version != p.next.value)
  }

  /** The plan is carried out with nobody in between, up to the first refusal. */
  ghost function Executed(s: State, p: Plan, contact: Contact): State
    requires Inv(s) && s.progress == Idle && p in s.plans
  {
    StepKeepsInv(s, DoStage(p));
    var a := Next(s, DoStage(p));
    if Stage(s, p).None? then a else
    LandedAndOn(a, Stage(s, p).value.1, contact)
  }

  /** From a staged release on. */
  ghost function LandedAndOn(s: State, sd: Staged, contact: Contact): State
    requires Inv(s) && s.progress == Idle && sd in s.stages
  {
    StepKeepsInv(s, DoLand(sd, sd.release, sd.landing));
    var t := Next(s, DoLand(sd, sd.release, sd.landing));
    if !t.progress.Landed? then t else Finished(t, contact)
  }

  ghost function Finished(s: State, contact: Contact): State
    requires Inv(s) && s.progress.Landed?
  {
    StepKeepsInv(s, DoCheck);
    var t := Next(s, DoCheck);
    if !t.progress.Checked? then t else TaggedAndPushed(t, contact)
  }

  ghost function TaggedAndPushed(s: State, contact: Contact): State
    requires Inv(s) && s.progress.Checked?
  {
    StepKeepsInv(s, DoTag);
    var t := Next(s, DoTag);
    if !t.progress.Tagged? then t else Next(t, DoPush(contact))
  }

  /** The commit that carries the release, and where main ends up. */
  function ReleaseCommit(s: State, p: Plan): Commit
    requires p.source < |s.commits| && p.tag.Some?
  {
    Commit(s.commits[p.source].source, p.tag.value, [p.source])
  }

  function LandingCommit(s: State, p: Plan): Commit
    requires p.head < |s.commits| && p.next.Some?
  {
    Commit(s.commits[p.head].source, p.next.value, [p.head, |s.commits|])
  }

  lemma StagesIff(s: State, p: Plan)
    requires Inv(s) && p in s.plans
    ensures Releasable(s, p) ==> Stage(s, p).Some?
    ensures Stage(s, p).Some? ==>
      && s.main == p.head && p.source < |s.commits| && Ancestor(s.commits, p.source, p.head) && Releases(p)
      && s.commits[p.source].version != p.tag.value
      && (p.action == NewBeta ==> p.source == p.head)
      && (p.action == Promote ==> p.beta.value in s.tags && s.tags[p.beta.value] == p.source && s.commits[p.head].version != p.next.value)
      && Stage(s, p).value ==
           if p.action == NewBeta then (s.commits + [ReleaseCommit(s, p)], Staged(p, |s.commits|, |s.commits|))
           else (s.commits + [ReleaseCommit(s, p)] + [LandingCommit(s, p)], Staged(p, |s.commits|, |s.commits| + 1))
  {
    assert PlanIsFresh(s, p);
  }

  lemma ParentIsAncestor(cs: seq<Commit>, c: nat, k: nat)
    requires IsDag(cs) && c < |cs| && k < |cs[c].parents|
    ensures Ancestor(cs, cs[c].parents[k], c)
  {
  }

  /** What was just staged may be landed. */
  lemma StagedMayLand(s: State, p: Plan)
    requires Inv(s) && p in s.plans && Stage(s, p).Some?
    ensures var (cs, sd) := Stage(s, p).value;
      var a := s.(commits := cs, stages := s.stages + {sd});
      Formed(a) && MayLand(a, sd, sd.release, sd.landing) && Ancestor(cs, p.head, sd.landing)
  {
    StagesIff(s, p);
    StageMakes(s, p);
    var (cs, sd) := Stage(s, p).value;
    AncestorKept(s.commits, cs, p.source, p.head);
    assert cs[sd.release] == ReleaseCommit(s, p);
    ParentIsAncestor(cs, sd.release, 0);
    if p.action == Promote {
      assert cs[sd.landing] == LandingCommit(s, p);
      ParentIsAncestor(cs, sd.landing, 0);
      ParentIsAncestor(cs, sd.landing, 1);
    }
  }

  /** A plan carried out with nobody in between releases exactly when it can and the push gets through;
      the server then has the new commits and the tag, and the ledger this release.  Otherwise the server
      keeps what it had. */
  lemma ExecutesIff(s: State, p: Plan, contact: Contact)
    requires Inv(s) && s.progress == Idle && p in s.plans
    ensures var t := Executed(s, p, contact);
      var n := |s.commits|;
      if Releasable(s, p) && !contact.Unreached?
      then var landing := if p.action == NewBeta then n else n + 1;
           && t.commits == s.commits + (if p.action == NewBeta then [ReleaseCommit(s, p)] else [ReleaseCommit(s, p), LandingCommit(s, p)])
           && t.main == landing && t.origin == landing && t.remote == s.remote[p.tag.value := n] && t.tags == s.tags[p.tag.value := n]
           && t.ledger == s.ledger + [Release(p.tag.value, n, p, landing)] && t.progress == Idle
      else t.origin == s.origin && t.remote == s.remote && t.ledger == s.ledger
  {
    StagesIff(s, p);
    if Stage(s, p).Some? {
      StagedMayLand(s, p);
      LandsAndFinishes(s, p, contact);
    }
  }

  lemma LandsAndFinishes(s: State, p: Plan, contact: Contact)
    requires Inv(s) && s.progress == Idle && p in s.plans && Stage(s, p).Some?
    ensures var (cs, sd) := Stage(s, p).value;
      var b := s.(commits := cs, stages := s.stages + {sd}, main := sd.landing, progress := Landed(sd));
      && Inv(b) && Executed(s, p, contact) == Finished(b, contact)
      && Ancestor(cs, p.head, sd.landing)
      && if s.origin == p.head && p.tag.value !in s.remote && p.tag.value !in s.tags && !contact.Unreached?
         then Finished(b, contact) == Pushed(b, contact)
         else ServerIsKept(s, Finished(b, contact))
  {
    StagedMayLand(s, p);
    var (cs, sd) := Stage(s, p).value;
    StepKeepsInv(s, DoStage(p));
    var a := Next(s, DoStage(p));
    StepKeepsInv(a, DoLand(sd, sd.release, sd.landing));
    FinishedIs(Next(a, DoLand(sd, sd.release, sd.landing)), sd, contact);
  }

  predicate ServerIsKept(s: State, t: State) {
    t.origin == s.origin && t.remote == s.remote && t.ledger == s.ledger
  }

  /** Everything that a successful push leaves. */
  function Pushed(s: State, contact: Contact): State
    requires s.progress.Landed? && s.progress.staged.plan.tag.Some?
  {
    var sd := s.progress.staged;
    var tag := sd.plan.tag.value;
    s.(tags := s.tags[tag := sd.release], progress := Idle, origin := s.main,
       tracking := if contact.Answered? then s.main else s.origin,
       remote := s.remote[tag := sd.release], ledger := s.ledger + [Release(tag, sd.release, sd.plan, s.main)])
  }

  /** From a landing on, the release goes out exactly when the server's main has not moved, the tag is
      free here and there, and the push gets through. */
  lemma FinishedIs(s: State, sd: Staged, contact: Contact)
    requires Inv(s) && s.progress == Landed(sd) && sd.plan.tag.Some? && Ancestor(s.commits, sd.plan.head, s.main)
    ensures var tag := sd.plan.tag.value;
      if s.origin == sd.plan.head && tag !in s.remote && tag !in s.tags && !contact.Unreached?
      then Finished(s, contact) == Pushed(s, contact)
      else ServerIsKept(s, Finished(s, contact))
  {
    StepKeepsInv(s, DoCheck);
    var c := Next(s, DoCheck);
    if c.progress.Checked? {
      TaggedAndPushedIs(c, sd, contact);
    }
  }

  lemma TaggedAndPushedIs(s: State, sd: Staged, contact: Contact)
    requires Inv(s) && s.progress == Checked(sd) && sd.plan.tag.Some? && Ancestor(s.commits, s.origin, s.main)
    requires sd.plan.tag.value !in s.remote
    ensures var tag := sd.plan.tag.value;
      if tag !in s.tags && !contact.Unreached?
      then TaggedAndPushed(s, contact) ==
           s.(tags := s.tags[tag := sd.release], progress := Idle, origin := s.main,
              tracking := if contact.Answered? then s.main else s.tracking,
              remote := s.remote[tag := sd.release], ledger := s.ledger + [Release(tag, sd.release, sd.plan, s.main)])
      else ServerIsKept(s, TaggedAndPushed(s, contact))
  {
    StepKeepsInv(s, DoTag);
  }

  /** `execute` on one clone, with nobody in between. */
  class Clone {
    var state: State

    ghost predicate Valid()
      reads this
    {
      Inv(state)
    }

    constructor (s: State)
      requires Initial(s)
      ensures Valid() && state == s
    {
      state := s;
    }

    method StageRelease(p: Plan) returns (staged: Option<Staged>)
      requires Valid() && state.progress == Idle && p in state.plans
      modifies this
      ensures Valid() && Enabled(old(state), DoStage(p)) && state == Next(old(state), DoStage(p))
      ensures staged.Some? ==> staged.value in state.stages && staged.value.plan == p
      ensures staged == if Stage(old(state), p).None? then None else Some(Stage(old(state), p).value.1)
      ensures ServerKept() && state.progress == Idle
    {
      StepKeepsInv(state, DoStage(p));
      var r := Stage(state, p);
      if r.None? {
        return None;
      }
      StageMakes(state, p);
      state := state.(commits := r.value.0, stages := state.stages + {r.value.1});
      return Some(r.value.1);
    }

    method LandRelease(sd: Staged) returns (ok: bool)
      requires Valid() && state.progress == Idle && sd in state.stages
      modifies this
      ensures Valid() && Enabled(old(state), DoLand(sd, sd.release, sd.landing))
      ensures state == Next(old(state), DoLand(sd, sd.release, sd.landing))
      ensures ok <==> state.progress == Landed(sd)
      ensures ServerKept()
    {
      StepKeepsInv(state, DoLand(sd, sd.release, sd.landing));
      ok := MayLand(state, sd, sd.release, sd.landing);
      if ok {
        state := state.(main := sd.landing, progress := Landed(sd));
      }
    }

    /** What the server and the ledger hold is left alone. */
    twostate predicate ServerKept()
      reads this
    {
      state.origin == old(state).origin && state.remote == old(state).remote && state.ledger == old(state).ledger
    }

    method FetchAndCheck(sd: Staged) returns (ok: bool)
      requires Valid() && state.progress == Landed(sd)
      modifies this
      ensures Valid() && Enabled(old(state), DoCheck) && state == Next(old(state), DoCheck) && ServerKept()
      ensures if ok then state.progress == Checked(sd) else state.progress == Idle
    {
      StepKeepsInv(state, DoCheck);
      state := Check(state, sd);
      ok := state.progress.Checked?;
    }

    method CreateTag(sd: Staged) returns (ok: bool)
      requires Valid() && state.progress == Checked(sd)
      modifies this
      ensures Valid() && Enabled(old(state), DoTag) && state == Next(old(state), DoTag) && ServerKept()
      ensures if ok then state.progress == Tagged(sd) else state.progress == Idle
    {
      StepKeepsInv(state, DoTag);
      state := TagRelease(state, sd);
      ok := state.progress.Tagged?;
    }

    /** Exactly one release, of this plan, was added to what the server and the ledger hold. */
    twostate predicate Released(p: Plan)
      reads this
    {
      && |state.ledger| == |old(state).ledger| + 1 && old(state).ledger <= state.ledger
      && state.ledger[|old(state).ledger|].plan == p
    }

    method PushBoth(sd: Staged, contact: Contact) returns (ok: bool)
      requires Valid() && state.progress == Tagged(sd)
      modifies this
      ensures Valid() && Enabled(old(state), DoPush(contact)) && state == Next(old(state), DoPush(contact))
      ensures ok ==> Released(sd.plan) && contact.Answered?
      ensures !ok ==> ServerKept() || (contact.AnswerLost? && Released(sd.plan))
    {
      StepKeepsInv(state, DoPush(contact));
      var before := |state.ledger|;
      state := Push(state, sd, contact);
      ok := |state.ledger| > before && contact.Answered?;
    }

    /** From a landing on: fetch and check, tag, push. */
    method Publish(sd: Staged, contact: Contact) returns (ok: bool, ghost run: seq<Step>)
      requires Valid() && state.progress == Landed(sd)
      modifies this
      ensures Valid() && Reaches(old(state), run, state) && state == Finished(old(state), contact)
      ensures ok ==> Released(sd.plan) && contact.Answered?
      ensures !ok ==> ServerKept() || (contact.AnswerLost? && Released(sd.plan))
    {
      ghost var s0 := state;
      ok := FetchAndCheck(sd);
      ReachesOneMore(s0, [], s0, DoCheck);
      run := [] + [DoCheck];
      if ok {
        ghost var s1, rest := state, [];
        ok, rest := TagAndPush(sd, contact);
        ReachesThen(s0, run, s1, rest, state);
        run := run + rest;
      }
    }

    method TagAndPush(sd: Staged, contact: Contact) returns (ok: bool, ghost run: seq<Step>)
      requires Valid() && state.progress == Checked(sd)
      modifies this
      ensures Valid() && Reaches(old(state), run, state) && state == TaggedAndPushed(old(state), contact)
      ensures ok ==> Released(sd.plan) && contact.Answered?
      ensures !ok ==> ServerKept() || (contact.AnswerLost? && Released(sd.plan))
    {
      ghost var s0 := state;
      ok := CreateTag(sd);
      ReachesOneMore(s0, [], s0, DoTag);
      run := [] + [DoTag];
      if ok {
        ghost var s1 := state;
        ok := PushBoth(sd, contact);
        ReachesOneMore(s0, run, s1, DoPush(contact));
        run := run + [DoPush(contact)];
      }
    }

    method LandAndPublish(sd: Staged, contact: Contact) returns (ok: bool, ghost run: seq<Step>)
      requires Valid() && state.progress == Idle && sd in state.stages
      modifies this
      ensures Valid() && Reaches(old(state), run, state) && state == LandedAndOn(old(state), sd, contact)
      ensures ok ==> Released(sd.plan) && contact.Answered?
      ensures !ok ==> ServerKept() || (contact.AnswerLost? && Released(sd.plan))
    {
      ghost var s0 := state;
      ok := LandRelease(sd);
      ReachesOneMore(s0, [], s0, DoLand(sd, sd.release, sd.landing));
      run := [] + [DoLand(sd, sd.release, sd.landing)];
      if ok {
        ghost var s1, rest := state, [];
        ok, rest := Publish(sd, contact);
        ReachesThen(s0, run, s1, rest, state);
        run := run + rest;
      }
    }

    /** Whatever happens is a run of the steps above.  It succeeds exactly when the plan can be carried out and
        the push is answered; then exactly one release was added, and on failure none unless the push was taken
        and its answer lost. */
    method Execute(p: Plan, contact: Contact) returns (ok: bool, ghost run: seq<Step>)
      requires Valid() && state.progress == Idle && p in state.plans
      modifies this
      ensures Valid() && Reaches(old(state), run, state) && state == Executed(old(state), p, contact)
      ensures ok <==> Releasable(old(state), p) && contact.Answered?
      ensures ok ==> Released(p)
      ensures !ok ==> ServerKept() || (contact.AnswerLost? && Released(p))
    {
      ghost var s0 := state;
      ExecutesIff(s0, p, contact);
      var staged := StageRelease(p);
      ReachesOneMore(s0, [], s0, DoStage(p));
      run := [] + [DoStage(p)];
      ok := staged.Some?;
      if ok {
        ghost var s1, rest := state, [];
        ok, rest := LandAndPublish(staged.value, contact);
        ReachesThen(s0, run, s1, rest, state);
        run := run + rest;
      }
    }
  }

  lemma {:induction false} ReachesThen(s: State, run: seq<Step>, t: State, rest: seq<Step>, u: State)
    requires Reaches(s, run, t) && Reaches(t, rest, u)
    ensures Reaches(s, run + rest, u)
    decreases |run|
  {
    if run == [] {
      assert run + rest == rest;
    } else {
      ReachesThen(Next(s, run[0]), run[1..], t, rest, u);
      assert (run + rest)[1..] == run[1..] + rest;
    }
  }
}
