// From a build attempt to a signed checkpoint.
module MacosEvidence {
  import R = MacosRelease

  datatype Option<+T> = None | Some(value: T)

  type Digest = string

  datatype Context = Context(source: string, controller: string, tag: string, run: string, attempt: string)

  datatype PreBuild = PreBuild(provenance: Context, contract: string)

  datatype Product = AppProduct | ServerProduct
  const PRODUCTS := {AppProduct, ServerProduct}

  datatype Phase = Captured | Rejected | SourceVerified
  datatype Outcome = Success | Failure | Cancelled

  datatype Quarantine = Quarantine(
    phase: Phase, outcome: Outcome, payloads: map<Product, Digest>, binaries: set<Product>,
    absent: set<Product>, pre: Option<PreBuild>, post: Option<Context>, generated: Option<string>)

  // `verify` records what was true of the source before the build, `capture`
  // quarantines the build products, and `prepare` turns a verified quarantine into
  // the receipt that the release controller resumes from.  As there, an operation is
  // the list of its durable effects, and a crash keeps an arbitrary prefix.

  /** Both directories: the evidence, and the retained release that `prepare` starts. */
  datatype World = World(
    pre: Option<PreBuild>, quarantine: Option<Quarantine>, archives: map<Product, Digest>, rejected: bool,
    retained: bool, zips: map<Product, Digest>, release: Option<R.World>)

  datatype Effect =
    | SavePre(pre: PreBuild)
    | SaveQuarantine(quarantine: Quarantine)
    | WriteArchive(product: Product, digest: Digest)
    | SaveRejection
    | MakeRetained
    | WriteZip(product: Product, digest: Digest)
    | SaveReceipt(app: Digest, server: Digest)

  function Apply(w: World, e: Effect): World {
    match e
    case SavePre(p) => w.(pre := Some(p))
    case SaveQuarantine(q) => w.(quarantine := Some(q))
    case WriteArchive(p, d) => w.(archives := w.archives[p := d])
    case SaveRejection => w.(rejected := true)
    case MakeRetained => w.(retained := true)
    case WriteZip(p, d) => w.(zips := w.zips[p := d])
    case SaveReceipt(a, s) => w.(release := Some(R.Prepared(a, s)))
  }

  function ApplyAll(w: World, es: seq<Effect>): World {
    if es == [] then w else Apply(ApplyAll(w, es[..|es| - 1]), es[|es| - 1])
  }

  // -------------------------------------------------------------- operations

  datatype Look = Missing | Symlink | Unarchivable | Archived(digest: Digest, binary: bool)

  /** Everything the outside decides during one operation.  `context` is None when its checks fail. */
  datatype Env = Env(
    context: Option<Context>, contract: string, observed: string, outcome: Outcome,
    look: Product -> Look, tool: nat -> bool, app: Digest, server: Digest)

  function VerifyOp(w: World, env: Env): seq<Effect> {
    if env.context.None? || w.pre.Some? then []
    else [SavePre(PreBuild(env.context.value, env.contract))]
  }

  /** A piece of a capture: its effects, the quarantine in memory, and whether it went on. */
  datatype Exec = Exec(effects: seq<Effect>, quarantine: Quarantine, ok: bool)

  function Fresh(outcome: Outcome): Quarantine {
    Quarantine(Captured, outcome, map[], {}, {}, None, None, None)
  }

  function CaptureProduct(q: Quarantine, p: Product, look: Look): Exec {
    match look
    case Missing =>
      var absent := q.(absent := q.absent + {p});
      Exec([SaveQuarantine(absent)], absent, true)
    case Symlink => Exec([], q, false)
    case Unarchivable => Exec([], q, false)
    case Archived(d, binary) =>
      var paid := q.(payloads := q.payloads[p := d]);
      var effects := [WriteArchive(p, d), SaveQuarantine(paid)];
      if !binary then Exec(effects, paid, true)
      else
        var measured := paid.(binaries := paid.binaries + {p});
        Exec(effects + [SaveQuarantine(measured)], measured, true)
  }

  function Reject(q: Quarantine): Exec {
    var r := q.(phase := Rejected, post := None);
    Exec([SaveQuarantine(r)], r, false)
  }

  function Then(a: Exec, b: Exec): Exec {
    if a.ok then Exec(a.effects + b.effects, b.quarantine, b.ok) else a
  }

  /** The provenance checks after the build, on a quarantine that holds the record from before it. */
  function Judge(q: Quarantine, pre: PreBuild, env: Env): Exec {
    if env.context.None? || pre.provenance != env.context.value then Reject(q)
    else
      var known := q.(post := env.context, generated := Some(env.observed));
      if env.outcome != Success || known.absent != {} || known.binaries != PRODUCTS then Reject(known)
      else
        var verified := known.(phase := SourceVerified);
        Exec([SaveQuarantine(verified)], verified, true)
  }

  function Verdict(q: Quarantine, pre: Option<PreBuild>, env: Env): Exec {
    if pre.None? then Reject(q)
    else
      var recorded := q.(pre := pre);
      Then(Exec([SaveQuarantine(recorded)], recorded, true), Judge(recorded, pre.value, env))
  }

  function CaptureOp(w: World, env: Env): Exec {
    var start := Fresh(env.outcome);
    if w.quarantine.Some? then Exec([], start, false)
    else
      var a := Then(Exec([SaveQuarantine(start)], start, true), CaptureProduct(start, AppProduct, env.look(AppProduct)));
      var b := Then(a, CaptureProduct(a.quarantine, ServerProduct, env.look(ServerProduct)));
      Then(b, Verdict(b.quarantine, w.pre, env))
  }

  /** The checks of `prepare` before it touches the retained directory. */
  predicate MayPrepare(w: World, env: Env) {
    && env.context.Some? && !w.rejected && w.quarantine.Some?
    && w.quarantine.value.phase == SourceVerified
    && w.quarantine.value.post == env.context
    && w.quarantine.value.generated == Some(env.observed)
    && (forall p :: p in w.quarantine.value.payloads ==>
         p in w.archives && w.archives[p] == w.quarantine.value.payloads[p])
    && !w.retained && env.tool(0)
  }

  /** What an admitted `prepare` does.  A failure anywhere, even after the receipt is saved, records a
      rejection. */
  function Checkpoint(env: Env): seq<Effect> {
    if !env.tool(1) then [MakeRetained, SaveRejection]
    else if !env.tool(2) then [MakeRetained, WriteZip(AppProduct, env.app), SaveRejection]
    else
      var zipped := [MakeRetained, WriteZip(AppProduct, env.app), WriteZip(ServerProduct, env.server)];
      if !env.tool(3) then zipped + [SaveRejection]
      else zipped + [SaveReceipt(env.app, env.server)] + if env.tool(4) then [] else [SaveRejection]
  }

  function PrepareOp(w: World, env: Env): seq<Effect> {
    if MayPrepare(w, env) then Checkpoint(env) else [SaveRejection]
  }

  datatype Op = OpVerify | OpCapture | OpPrepare

  function Effects(w: World, op: Op, env: Env): seq<Effect> {
    match op
    case OpVerify => VerifyOp(w, env)
    case OpCapture => CaptureOp(w, env).effects
    case OpPrepare => PrepareOp(w, env)
  }

  /** An operation runs until it ends or crashes after `upTo` effects; the archives may be changed
      from outside; and a release that has a receipt goes on as the release controller says. */
  datatype Step =
    | Operate(op: Op, env: Env, upTo: nat)
    | Tamper(archives: map<Product, Digest>)
    | Release(step: R.Step)

  function Next(w: World, s: Step): World {
    match s
    case Operate(op, env, upTo) =>
      var es := Effects(w, op, env);
      ApplyAll(w, es[..R.Min(upTo, |es|)])
    case Tamper(archives) => w.(archives := archives)
    case Release(step) =>
      if w.release.None? then w else w.(release := Some(R.Next(w.release.value, step)))
  }

  function RunAll(w: World, steps: seq<Step>): World
    decreases |steps|
  {
    if steps == [] then w else RunAll(Next(w, steps[0]), steps[1..])
  }

  const EMPTY := World(None, None, map[], false, false, map[], None)

  // --------------------------------------------------------------- invariant

  /** What "source verified" promises about the build. */
  predicate Verified(q: Quarantine) {
    && q.phase == SourceVerified && q.outcome == Success
    && q.absent == {} && q.binaries == PRODUCTS && q.payloads.Keys == PRODUCTS
    && q.pre.Some? && q.post == Some(q.pre.value.provenance) && q.generated.Some?
  }

  /** What a quarantine being filled keeps: every product measured was archived, once seen. */
  predicate Sane(q: Quarantine) {
    q.binaries <= q.payloads.Keys && q.payloads.Keys <= PRODUCTS && (q.phase == SourceVerified ==> Verified(q))
  }

  /** The quarantine came from the pre-build record that is still on disk. */
  predicate Rooted(w: World) {
    w.quarantine.Some? ==>
      Sane(w.quarantine.value) && (w.quarantine.value.pre.Some? ==> w.quarantine.value.pre == w.pre)
  }

  ghost predicate Inv(w: World) {
    && Rooted(w)
    && (w.release.Some? ==>
         w.retained && w.quarantine.Some? && Verified(w.quarantine.value)
         && R.Inv(w.release.value)
         && AppProduct in w.zips && ServerProduct in w.zips
         && R.Extends(R.Prepared(w.zips[AppProduct], w.zips[ServerProduct]).receipt, w.release.value.receipt))
  }

  lemma {:induction false} Appended(w: World, a: seq<Effect>, b: seq<Effect>)
    ensures ApplyAll(w, a + b) == ApplyAll(ApplyAll(w, a), b)
  {
    if b == [] {
      assert a + b == a;
    } else {
      Appended(w, a, b[..|b| - 1]);
      assert (a + b)[..|a + b| - 1] == a + b[..|b| - 1];
    }
  }

  /** Effects that belong to a capture, each saving only a sane quarantine rooted in `pre`. */
  predicate CaptureEffects(es: seq<Effect>, pre: Option<PreBuild>) {
    forall i :: 0 <= i < |es| ==>
      match es[i]
      case SaveQuarantine(q) => Sane(q) && (q.pre.Some? ==> q.pre == pre)
      case WriteArchive(_, _) => true
      case _ => false
  }

  lemma {:induction false} CaptureKeeps(w: World, es: seq<Effect>)
    requires Rooted(w) && CaptureEffects(es, w.pre)
    ensures var t := ApplyAll(w, es);
      Rooted(t) && t == w.(quarantine := t.quarantine, archives := t.archives)
  {
    if es != [] {
      CaptureKeeps(w, es[..|es| - 1]);
    }
  }

  lemma ThenCaptures(a: Exec, b: Exec, pre: Option<PreBuild>)
    requires CaptureEffects(a.effects, pre) && (a.ok ==> CaptureEffects(b.effects, pre))
    ensures CaptureEffects(Then(a, b).effects, pre)
  {
  }

  /** A quarantine still being filled. */
  predicate Filling(q: Quarantine) {
    Sane(q) && q.phase == Captured && q.pre.None?
  }

  lemma ProductCaptures(q: Quarantine, p: Product, look: Look, pre: Option<PreBuild>)
    requires Filling(q)
    ensures var x := CaptureProduct(q, p, look);
      CaptureEffects(x.effects, pre) && Filling(x.quarantine) && x.quarantine.outcome == q.outcome
  {
    var x := CaptureProduct(q, p, look);
    assert p in PRODUCTS;
    assert Sane(x.quarantine);
  }

  lemma VerdictCaptures(q: Quarantine, pre: Option<PreBuild>, env: Env)
    requires Filling(q) && q.outcome == env.outcome
    ensures CaptureEffects(Verdict(q, pre, env).effects, pre)
  {
    if pre.Some? {
      var recorded := q.(pre := pre);
      assert Sane(recorded);
      var x := Judge(recorded, pre.value, env);
      assert x.quarantine.pre == pre;
      assert |x.effects| == 1 && x.effects[0] == SaveQuarantine(x.quarantine);
      assert Sane(x.quarantine);
      ThenCaptures(Exec([SaveQuarantine(recorded)], recorded, true), x, pre);
    }
  }

  lemma CaptureIsSane(w: World, env: Env)
    ensures CaptureEffects(CaptureOp(w, env).effects, w.pre)
  {
    if w.quarantine.None? {
      var start := Fresh(env.outcome);
      var s := Exec([SaveQuarantine(start)], start, true);
      assert CaptureEffects(s.effects, w.pre);
      var p := CaptureProduct(start, AppProduct, env.look(AppProduct));
      ProductCaptures(start, AppProduct, env.look(AppProduct), w.pre);
      var a := Then(s, p);
      ThenCaptures(s, p, w.pre);
      var r := CaptureProduct(a.quarantine, ServerProduct, env.look(ServerProduct));
      ProductCaptures(a.quarantine, ServerProduct, env.look(ServerProduct), w.pre);
      var b := Then(a, r);
      ThenCaptures(a, r, w.pre);
      VerdictCaptures(b.quarantine, w.pre, env);
      ThenCaptures(b, Verdict(b.quarantine, w.pre, env), w.pre);
    }
  }

  lemma CaptureStepKeepsInv(w: World, env: Env, n: nat)
    requires Inv(w) && n <= |CaptureOp(w, env).effects|
    ensures Inv(ApplyAll(w, CaptureOp(w, env).effects[..n]))
  {
    var es := CaptureOp(w, env).effects;
    CaptureIsSane(w, env);
    CaptureKeeps(w, es[..n]);
    if w.quarantine.Some? {
      assert es[..n] == [];
    }
  }

  /** `prepare` ran through to its receipt. */
  predicate Signs(w: World, env: Env) {
    MayPrepare(w, env) && env.tool(1) && env.tool(2) && env.tool(3)
  }

  lemma OneMore(w: World, es: seq<Effect>, n: nat)
    requires 0 < n <= |es|
    ensures ApplyAll(w, es[..n]) == Apply(ApplyAll(w, es[..n - 1]), es[n - 1])
  {
    assert es[..n][..n - 1] == es[..n - 1];
  }

  /** A refused `prepare` leaves at most its rejection. */
  lemma RefusedPrepareLeaves(w: World, env: Env, n: nat)
    requires n <= |PrepareOp(w, env)| && !MayPrepare(w, env)
    ensures ApplyAll(w, PrepareOp(w, env)[..n]) == w.(rejected := w.rejected || n >= 1)
  {
    if n > 0 {
      OneMore(w, PrepareOp(w, env), n);
    }
  }

  predicate PrepareShape(w: World, env: Env, t: World, n: nat) {
    && t == w.(rejected := t.rejected, retained := t.retained, zips := t.zips, release := t.release)
    && (w.rejected ==> t.rejected)
    && (t.retained <==> w.retained || n >= 1)
    && (n <= 1 ==> t.zips == w.zips)
    && (Signs(w, env) && n == 2 ==> t.zips == w.zips[AppProduct := env.app])
    && (Signs(w, env) && n >= 3 ==> t.zips == w.zips[AppProduct := env.app][ServerProduct := env.server])
    && t.release == (if Signs(w, env) && n >= 4 then Some(R.Prepared(env.app, env.server)) else w.release)
  }

  /** What a prefix of an admitted `prepare` leaves, effect by effect. */
  lemma {:induction false} PrepareLeaves(w: World, env: Env, n: nat)
    requires n <= |PrepareOp(w, env)| && MayPrepare(w, env)
    ensures PrepareShape(w, env, ApplyAll(w, PrepareOp(w, env)[..n]), n)
  {
    if n > 0 {
      PrepareLeaves(w, env, n - 1);
      OneMore(w, PrepareOp(w, env), n);
      PrepareEffect(w, env, ApplyAll(w, PrepareOp(w, env)[..n - 1]), n);
    }
  }

  lemma PrepareEffect(w: World, env: Env, t: World, n: nat)
    requires 0 < n <= |PrepareOp(w, env)| && MayPrepare(w, env) && PrepareShape(w, env, t, n - 1)
    ensures PrepareShape(w, env, Apply(t, PrepareOp(w, env)[n - 1]), n)
  {
  }

  lemma PrepareStepKeepsInv(w: World, env: Env, n: nat)
    requires Inv(w) && n <= |PrepareOp(w, env)|
    ensures Inv(ApplyAll(w, PrepareOp(w, env)[..n]))
  {
    if MayPrepare(w, env) {
      PrepareLeaves(w, env, n);
      R.PreparedIsGood(env.app, env.server);
    } else {
      RefusedPrepareLeaves(w, env, n);
    }
  }

  lemma VerifyStep(w: World, env: Env, n: nat)
    requires n <= |VerifyOp(w, env)|
    ensures ApplyAll(w, VerifyOp(w, env)[..n]) == w.(pre := if n == 1 then Some(VerifyOp(w, env)[0].pre) else w.pre)
  {
  }

  lemma NextKeepsInv(w: World, s: Step)
    requires Inv(w)
    ensures Inv(Next(w, s))
  {
    match s
    case Operate(op, env, upTo) =>
      var n := R.Min(upTo, |Effects(w, op, env)|);
      match op {
        case OpVerify => VerifyStep(w, env, n);
        case OpCapture => CaptureStepKeepsInv(w, env, n);
        case OpPrepare => PrepareStepKeepsInv(w, env, n);
      }
    case Tamper(_) =>
    case Release(step) =>
      if w.release.Some? {
        R.NextKeepsInv(w.release.value, step);
        R.ExtendsIsTransitive(R.Prepared(w.zips[AppProduct], w.zips[ServerProduct]).receipt, w.release.value.receipt,
                              R.Next(w.release.value, step).receipt);
      }
  }

  lemma {:induction false} RunKeepsInv(w: World, steps: seq<Step>)
    requires Inv(w)
    ensures Inv(RunAll(w, steps))
    decreases |steps|
  {
    if steps != [] {
      NextKeepsInv(w, steps[0]);
      RunKeepsInv(Next(w, steps[0]), steps[1..]);
    }
  }

  lemma EmptyIsGood()
    ensures Inv(EMPTY)
  {
  }

  // ------------------------------------------------------------ main results

  /** In every reachable state a signed receipt stands on a capture that saw the build succeed, both
      products complete, and the same source provenance before and after; its payloads are the zips
      `prepare` wrote. */
  lemma SignedMeansVerified(steps: seq<Step>)
    ensures var w := RunAll(EMPTY, steps);
      w.release.Some? ==>
        && w.quarantine.Some? && Verified(w.quarantine.value)
        && w.quarantine.value.pre == w.pre
        && AppProduct in w.zips && ServerProduct in w.zips
        && R.AppZip in w.release.value.receipt.payloads && R.ServerZip in w.release.value.receipt.payloads
        && w.release.value.receipt.payloads[R.AppZip] == w.zips[AppProduct]
        && w.release.value.receipt.payloads[R.ServerZip] == w.zips[ServerProduct]
  {
    EmptyIsGood();
    RunKeepsInv(EMPTY, steps);
    assert R.FileOf(R.App) == R.AppZip && R.FileOf(R.Server) == R.ServerZip;
  }

  predicate IsZip(w: World, p: Product, bytes: Digest) {
    p in w.zips && w.zips[p] == bytes
  }

  /** Bytes that may leave the machine under the name `n`: the zips `prepare` wrote, retained updater
      files, or the image that the gatekeeper assessed after a staple of the retained one. */
  predicate Releasable(w: World, release: R.World, n: R.Name, bytes: Digest) {
    && n in release.receipt.payloads
    && (n == R.AppZip ==> IsZip(w, AppProduct, bytes))
    && (n == R.ServerZip ==> IsZip(w, ServerProduct, bytes))
    && (if n == R.SignedDmg then R.Vouched(release, R.Dmg, release.receipt.payloads[n], bytes)
        else bytes == release.receipt.payloads[n])
  }

  /** An upload happens only from a release that is notarized in full and whose build was verified,
      and its bytes go back to what `prepare` wrote and to what was notarized. */
  lemma UploadedMeansVerifiedAndAccepted(steps: seq<Step>, i: nat)
    ensures var w := RunAll(EMPTY, steps);
      w.release.Some? && i < |w.release.value.uploads| ==>
        && w.quarantine.Some? && Verified(w.quarantine.value) && R.AllAccepted(w.release.value.receipt)
        && Releasable(w, w.release.value, w.release.value.uploads[i].name, w.release.value.uploads[i].bytes)
  {
    SignedMeansVerified(steps);
    EmptyIsGood();
    RunKeepsInv(EMPTY, steps);
    var w := RunAll(EMPTY, steps);
    if w.release.Some? && i < |w.release.value.uploads| {
      var u := w.release.value.uploads[i];
      assert R.Shipped(w.release.value, w.release.value.receipt, u.name, u.bytes);
    }
  }

  /** Whatever happens around it, a payload of one evidence directory is submitted at most once, as
      the zip `prepare` wrote or the image the receipt retains. */
  lemma SubmittedBytesArePrepared(steps: seq<Step>, i: nat, k: R.Kind)
    ensures var w := RunAll(EMPTY, steps);
      w.release.Some? && i < |w.release.value.calls| ==>
        && R.SubmitsOnce(w.release.value, i, k)
        && (w.release.value.calls[i].0 == R.Submit(k) ==>
             && w.quarantine.Some? && Verified(w.quarantine.value)
             && i < |w.release.value.inputs| && w.release.value.inputs[i].Some?
             && (k == R.App ==> IsZip(w, AppProduct, w.release.value.inputs[i].value))
             && (k == R.Server ==> IsZip(w, ServerProduct, w.release.value.inputs[i].value)))
  {
    SignedMeansVerified(steps);
    EmptyIsGood();
    RunKeepsInv(EMPTY, steps);
    var w := RunAll(EMPTY, steps);
    if w.release.Some? && i < |w.release.value.calls| {
      R.InvSubmitsOnce(w.release.value, i, k);
      assert R.FileOf(R.App) == R.AppZip && R.FileOf(R.Server) == R.ServerZip;
    }
  }

  /** Nothing can sign any more: a rejection is recorded, a quarantine is on disk that is not
      verified, or an earlier `prepare` already made the retained directory. */
  predicate Barred(w: World) {
    w.release.None? && (w.rejected || w.retained || (w.quarantine.Some? && w.quarantine.value.phase != SourceVerified))
  }

  lemma NextKeepsBarred(w: World, s: Step)
    requires Barred(w)
    ensures Barred(Next(w, s))
  {
    if s.Operate? {
      var n := R.Min(s.upTo, |Effects(w, s.op, s.env)|);
      match s.op {
        case OpVerify => VerifyStep(w, s.env, n);
        case OpCapture => NextCapture(w, s.env, n);
        case OpPrepare => RefusedPrepareLeaves(w, s.env, n);
      }
    }
  }

  /** A capture writes the quarantine only when there is none. */
  lemma NextCapture(w: World, env: Env, n: nat)
    requires n <= |CaptureOp(w, env).effects|
    ensures var t := ApplyAll(w, CaptureOp(w, env).effects[..n]);
      && t == w.(quarantine := t.quarantine, archives := t.archives)
      && (w.quarantine.Some? ==> t == w)
  {
    CaptureIsSane(w, env);
    CaptureTouches(w, CaptureOp(w, env).effects[..n], w.pre);
    if w.quarantine.Some? {
      assert CaptureOp(w, env).effects[..n] == [];
    }
  }

  lemma {:induction false} CaptureTouches(w: World, es: seq<Effect>, pre: Option<PreBuild>)
    requires CaptureEffects(es, pre)
    ensures var t := ApplyAll(w, es);
      t == w.(quarantine := t.quarantine, archives := t.archives)
  {
    if es != [] {
      CaptureTouches(w, es[..|es| - 1], pre);
    }
  }

  /** A rejection, an unverified quarantine or an interrupted `prepare` is permanent: whatever is run
      after it, no receipt is ever signed from this evidence. */
  lemma {:induction false} BarredForGood(w: World, steps: seq<Step>)
    requires Barred(w)
    ensures Barred(RunAll(w, steps))
    decreases |steps|
  {
    if steps != [] {
      NextKeepsBarred(w, steps[0]);
      BarredForGood(Next(w, steps[0]), steps[1..]);
    }
  }

  lemma NextKeepsEvidence(w: World, s: Step)
    ensures w.quarantine.Some? ==> Next(w, s).quarantine == w.quarantine
    ensures w.pre.Some? ==> Next(w, s).pre == w.pre
    ensures w.rejected ==> Next(w, s).rejected
  {
    if s.Operate? {
      var n := R.Min(s.upTo, |Effects(w, s.op, s.env)|);
      match s.op {
        case OpVerify => VerifyStep(w, s.env, n);
        case OpCapture => NextCapture(w, s.env, n);
        case OpPrepare =>
          if MayPrepare(w, s.env) {
            PrepareLeaves(w, s.env, n);
          } else {
            RefusedPrepareLeaves(w, s.env, n);
          }
      }
    }
  }

  /** No operation ever overwrites a quarantine or a pre-build record, or takes a rejection back. */
  lemma {:induction false} EvidenceIsKept(w: World, steps: seq<Step>)
    ensures w.quarantine.Some? ==> RunAll(w, steps).quarantine == w.quarantine
    ensures w.pre.Some? ==> RunAll(w, steps).pre == w.pre
    ensures w.rejected ==> RunAll(w, steps).rejected
    decreases |steps|
  {
    if steps != [] {
      NextKeepsEvidence(w, steps[0]);
      EvidenceIsKept(Next(w, steps[0]), steps[1..]);
    }
  }

  /** A step signs a receipt exactly when it is a `prepare` that passes its checks and whose tools
      work, run at least up to the receipt. */
  lemma SignsIff(w: World, s: Step)
    requires w.release.None?
    ensures Next(w, s).release.Some? <==>
      && s.Operate? && s.op == OpPrepare && s.upTo >= 4 && !w.rejected && !w.retained
      && w.quarantine.Some? && w.quarantine.value.phase == SourceVerified
      && s.env.context.Some? && w.quarantine.value.post == s.env.context && w.quarantine.value.generated == Some(s.env.observed)
      && (forall p :: p in w.quarantine.value.payloads ==> p in w.archives && w.archives[p] == w.quarantine.value.payloads[p])
      && s.env.tool(0) && s.env.tool(1) && s.env.tool(2) && s.env.tool(3)
  {
    if s.Operate? {
      var n := R.Min(s.upTo, |Effects(w, s.op, s.env)|);
      match s.op {
        case OpVerify => VerifyStep(w, s.env, n);
        case OpCapture => NextCapture(w, s.env, n);
        case OpPrepare =>
          if MayPrepare(w, s.env) {
            PrepareLeaves(w, s.env, n);
          } else {
            RefusedPrepareLeaves(w, s.env, n);
          }
      }
    }
  }

  /** A `verify` that runs to its end records what was true before the build, once. */
  lemma VerifyRecords(w: World, env: Env)
    ensures ApplyAll(w, VerifyOp(w, env)) ==
      w.(pre := if env.context.Some? && w.pre.None? then Some(PreBuild(env.context.value, env.contract)) else w.pre)
  {
    if env.context.Some? && w.pre.None? {
      assert VerifyOp(w, env)[..0] == [];
    }
  }

  /** A `prepare` that runs to its end leaves a rejection unless it went through. */
  lemma PrepareRejectsIff(w: World, env: Env)
    ensures ApplyAll(w, PrepareOp(w, env)).rejected <==> w.rejected || !(Signs(w, env) && env.tool(4))
  {
    var es := PrepareOp(w, env);
    RejectionsStay(w, es);
    if SaveRejection in es {
      RejectionIsKept(w, es);
    }
  }

  lemma {:induction false} RejectionsStay(w: World, es: seq<Effect>)
    ensures w.rejected ==> ApplyAll(w, es).rejected
    ensures SaveRejection !in es ==> ApplyAll(w, es).rejected == w.rejected
  {
    if es != [] {
      RejectionsStay(w, es[..|es| - 1]);
    }
  }

  lemma {:induction false} RejectionIsKept(w: World, es: seq<Effect>)
    requires SaveRejection in es
    ensures ApplyAll(w, es).rejected
  {
    if es[|es| - 1] != SaveRejection {
      RejectionIsKept(w, es[..|es| - 1]);
    }
  }

  /** The product cannot be archived, which ends a capture where it stands. */
  predicate Stuck(look: Look) {
    look.Symlink? || look.Unarchivable?
  }

  /** How a capture that runs to its end leaves the quarantine: still captured when a product could not
      be archived, verified when all is well, and otherwise rejected for good. */
  lemma CaptureLeaves(w: World, env: Env)
    requires w.quarantine.None?
    ensures var t := ApplyAll(w, CaptureOp(w, env).effects);
      && t.quarantine.Some?
      && t.quarantine.value.phase ==
           (if Stuck(env.look(AppProduct)) || Stuck(env.look(ServerProduct)) then Captured
            else if Complete(env.look(AppProduct)) && Complete(env.look(ServerProduct)) && env.outcome == Success
                    && w.pre.Some? && env.context == Some(w.pre.value.provenance) then SourceVerified
            else Rejected)
  {
    CaptureVerifiesIff(w, env);
    CaptureEndsSaved(w, env);
  }

  /** A capture leaves on disk the quarantine it has in memory. */
  lemma CaptureEndsSaved(w: World, env: Env)
    requires w.quarantine.None?
    ensures var x := CaptureOp(w, env);
      && ApplyAll(w, x.effects).quarantine == Some(x.quarantine)
      && (x.quarantine.phase == Captured <==> Stuck(env.look(AppProduct)) || Stuck(env.look(ServerProduct)))
      && (x.quarantine.phase == SourceVerified <==> x.ok)
  {
    var start := Fresh(env.outcome);
    var s := Exec([SaveQuarantine(start)], start, true);
    var p := CaptureProduct(start, AppProduct, env.look(AppProduct));
    ProductSaved(start, AppProduct, env.look(AppProduct));
    var a := Then(s, p);
    SavedThen(s, p);
    var r := CaptureProduct(a.quarantine, ServerProduct, env.look(ServerProduct));
    ProductSaved(a.quarantine, ServerProduct, env.look(ServerProduct));
    SavedThen(a, r);
    var b := Then(a, r);
    var v := Verdict(b.quarantine, w.pre, env);
    VerdictSaved(b.quarantine, w.pre, env);
    SavedThen(b, v);
    LastIsSaved(w, CaptureOp(w, env));
  }

  /** The last quarantine saved is the one in memory. */
  predicate SavesLast(x: Exec) {
    x.effects != [] && x.effects[|x.effects| - 1] == SaveQuarantine(x.quarantine)
  }

  lemma LastIsSaved(w: World, x: Exec)
    requires SavesLast(x)
    ensures ApplyAll(w, x.effects).quarantine == Some(x.quarantine)
  {
  }

  lemma SavedThen(a: Exec, b: Exec)
    requires SavesLast(a) && (SavesLast(b) || (b.effects == [] && b.quarantine == a.quarantine))
    ensures SavesLast(Then(a, b))
  {
  }

  lemma ProductSaved(q: Quarantine, p: Product, look: Look)
    ensures var x := CaptureProduct(q, p, look);
      && (SavesLast(x) || (x.effects == [] && x.quarantine == q)) && (x.ok <==> !Stuck(look))
      && x.quarantine.phase == q.phase
  {
  }

  lemma VerdictSaved(q: Quarantine, pre: Option<PreBuild>, env: Env)
    ensures var x := Verdict(q, pre, env);
      SavesLast(x) && x.quarantine.phase == if x.ok then SourceVerified else Rejected
  {
  }

  /** The capture got to look at this product: the application comes first. */
  predicate Reached(env: Env, p: Product) {
    p == ServerProduct ==> !Stuck(env.look(AppProduct))
  }

  /** The capture got to judge the build. */
  predicate Judged(env: Env) {
    !Stuck(env.look(AppProduct)) && !Stuck(env.look(ServerProduct))
  }

  /** What the quarantine says of each product. */
  predicate Lists(env: Env, q: Quarantine, p: Product) {
    var look := env.look(p);
    && (p in q.payloads <==> Reached(env, p) && look.Archived?) && (p in q.payloads ==> q.payloads[p] == look.digest)
    && (p in q.binaries <==> Reached(env, p) && look.Archived? && look.binary)
    && (p in q.absent <==> Reached(env, p) && look.Missing?)
  }

  /** What a capture that runs to its end records besides the phase: the outcome of the build; of each
      product it got to, whether it was there, its archive and its executable; and, when it got to judge
      the build, the record from before it, the metadata when the source is still that one, and that
      source unless it rejects.  Every archive recorded is on disk. */
  lemma CaptureRecords(w: World, env: Env)
    requires w.quarantine.None?
    ensures var t := ApplyAll(w, CaptureOp(w, env).effects);
      && t.quarantine.Some?
      && var q := t.quarantine.value;
         && q.outcome == env.outcome && (forall p: Product :: Lists(env, q, p))
         && q.pre == (if Judged(env) then w.pre else None)
         && q.post == (if q.phase == SourceVerified then env.context else None)
         && q.generated == (if Judged(env) && w.pre.Some? && env.context == Some(w.pre.value.provenance) then Some(env.observed) else None)
         && forall p :: p in q.payloads ==> p in t.archives && t.archives[p] == q.payloads[p]
  {
    CaptureEndsSaved(w, env);
    var q := BothProducts(env);
    CaptureOpIs(w, env);
    BothAreListed(env);
    if Judged(env) {
      VerdictRecords(q, w.pre, env);
    }
    CaptureArchives(w, env);
  }

  /** The quarantine after both products, or the first if that ended it. */
  function BothProducts(env: Env): Quarantine {
    var p := CaptureProduct(Fresh(env.outcome), AppProduct, env.look(AppProduct));
    if p.ok then CaptureProduct(p.quarantine, ServerProduct, env.look(ServerProduct)).quarantine else p.quarantine
  }

  lemma CaptureOpIs(w: World, env: Env)
    requires w.quarantine.None?
    ensures CaptureOp(w, env).quarantine == if Judged(env) then Verdict(BothProducts(env), w.pre, env).quarantine else BothProducts(env)
    ensures Judged(env) ==> CaptureOp(w, env).ok == Verdict(BothProducts(env), w.pre, env).ok
  {
    var p := CaptureProduct(Fresh(env.outcome), AppProduct, env.look(AppProduct));
    ProductSaved(Fresh(env.outcome), AppProduct, env.look(AppProduct));
    ProductSaved(p.quarantine, ServerProduct, env.look(ServerProduct));
  }

  lemma BothAreListed(env: Env)
    ensures var q := BothProducts(env);
      && q.outcome == env.outcome && q.phase == Captured && q.pre.None? && q.post.None? && q.generated.None?
      && forall p: Product :: Lists(env, q, p)
  {
    var start := Fresh(env.outcome);
    ProductRecords(start, AppProduct, env.look(AppProduct));
    ProductSaved(start, AppProduct, env.look(AppProduct));
    var p := CaptureProduct(start, AppProduct, env.look(AppProduct));
    ProductRecords(p.quarantine, ServerProduct, env.look(ServerProduct));
    var q := BothProducts(env);
    assert Lists(env, q, AppProduct) && Lists(env, q, ServerProduct);
    forall x: Product ensures Lists(env, q, x) {
      if x != AppProduct {
        assert x == ServerProduct;
      }
    }
  }

  lemma CaptureArchives(w: World, env: Env)
    requires w.quarantine.None?
    ensures OnDisk(ApplyAll(w, CaptureOp(w, env).effects), CaptureOp(w, env).quarantine)
  {
    var start := Fresh(env.outcome);
    var s := Exec([SaveQuarantine(start)], start, true);
    SaveArchives(w, start);
    var p := CaptureProduct(start, AppProduct, env.look(AppProduct));
    ProductArchives(ApplyAll(w, s.effects), start, AppProduct, env.look(AppProduct));
    ThenArchives(w, s, p);
    var a := Then(s, p);
    var r := CaptureProduct(a.quarantine, ServerProduct, env.look(ServerProduct));
    ProductArchives(ApplyAll(w, a.effects), a.quarantine, ServerProduct, env.look(ServerProduct));
    ThenArchives(w, a, r);
    var b := Then(a, r);
    VerdictArchives(ApplyAll(w, b.effects), b.quarantine, w.pre, env);
    ThenArchives(w, b, Verdict(b.quarantine, w.pre, env));
  }

  /** Every archive recorded is on disk. */
  predicate OnDisk(w: World, q: Quarantine) {
    forall p :: p in q.payloads ==> p in w.archives && w.archives[p] == q.payloads[p]
  }

  lemma SaveArchives(w: World, q: Quarantine)
    requires q.payloads == map[]
    ensures OnDisk(ApplyAll(w, [SaveQuarantine(q)]), q)
  {
  }

  lemma ThenArchives(w: World, a: Exec, b: Exec)
    requires OnDisk(ApplyAll(w, a.effects), a.quarantine)
    requires OnDisk(ApplyAll(ApplyAll(w, a.effects), b.effects), b.quarantine)
    ensures OnDisk(ApplyAll(w, Then(a, b).effects), Then(a, b).quarantine)
  {
    Appended(w, a.effects, b.effects);
  }

  lemma ProductArchives(w: World, q: Quarantine, p: Product, look: Look)
    requires OnDisk(w, q)
    ensures OnDisk(ApplyAll(w, CaptureProduct(q, p, look).effects), CaptureProduct(q, p, look).quarantine)
  {
    if look.Archived? {
      var paid := q.(payloads := q.payloads[p := look.digest]);
      var last := paid.(binaries := paid.binaries + {p});
      Appended(w, [WriteArchive(p, look.digest)], [SaveQuarantine(paid)]);
      Appended(w, [WriteArchive(p, look.digest)] + [SaveQuarantine(paid)], [SaveQuarantine(last)]);
      assert [WriteArchive(p, look.digest)] + [SaveQuarantine(paid)] == [WriteArchive(p, look.digest), SaveQuarantine(paid)];
    }
  }

  lemma VerdictArchives(w: World, q: Quarantine, pre: Option<PreBuild>, env: Env)
    requires OnDisk(w, q)
    ensures OnDisk(ApplyAll(w, Verdict(q, pre, env).effects), Verdict(q, pre, env).quarantine)
  {
    VerdictOnlySaves(q, pre, env);
    SavesKeepArchives(w, Verdict(q, pre, env).effects);
    VerdictRecords(q, pre, env);
  }

  lemma VerdictOnlySaves(q: Quarantine, pre: Option<PreBuild>, env: Env)
    ensures forall e :: e in Verdict(q, pre, env).effects ==> e.SaveQuarantine?
  {
  }

  lemma {:induction false} SavesKeepArchives(w: World, es: seq<Effect>)
    requires forall e :: e in es ==> e.SaveQuarantine?
    ensures ApplyAll(w, es).archives == w.archives
  {
    if es != [] {
      SavesKeepArchives(w, es[..|es| - 1]);
    }
  }

  lemma ProductRecords(q: Quarantine, p: Product, look: Look)
    ensures CaptureProduct(q, p, look).quarantine == q.(
      payloads := if look.Archived? then q.payloads[p := look.digest] else q.payloads,
      binaries := if look.Archived? && look.binary then q.binaries + {p} else q.binaries,
      absent := if look.Missing? then q.absent + {p} else q.absent)
  {
  }

  lemma VerdictRecords(q: Quarantine, pre: Option<PreBuild>, env: Env)
    ensures var x := Verdict(q, pre, env);
      x.quarantine == q.(
        pre := if pre.Some? then pre else q.pre,
        phase := if x.ok then SourceVerified else Rejected,
        post := if x.ok then env.context else None,
        generated := if pre.Some? && env.context == Some(pre.value.provenance) then Some(env.observed) else q.generated)
  {
  }

  predicate Complete(look: Look) {
    look.Archived? && look.binary
  }

  /** A capture that runs to its end verifies the quarantine exactly when both products are there
      with their executables, the build succeeded, and the source is what it was before the build. */
  lemma CaptureVerifiesIff(w: World, env: Env)
    requires w.quarantine.None?
    ensures CaptureOp(w, env).ok <==>
      && Complete(env.look(AppProduct)) && Complete(env.look(ServerProduct)) && env.outcome == Success
      && w.pre.Some? && env.context == Some(w.pre.value.provenance)
    ensures CaptureOp(w, env).ok <==> CaptureOp(w, env).quarantine.phase == SourceVerified
  {
    var start := Fresh(env.outcome);
    var p := CaptureProduct(start, AppProduct, env.look(AppProduct));
    ProductCaptures(start, AppProduct, env.look(AppProduct), w.pre);
    ProductMeasured(start, AppProduct, env.look(AppProduct));
    if p.ok {
      var r := CaptureProduct(p.quarantine, ServerProduct, env.look(ServerProduct));
      ProductCaptures(p.quarantine, ServerProduct, env.look(ServerProduct), w.pre);
      ProductMeasured(p.quarantine, ServerProduct, env.look(ServerProduct));
      if r.ok {
        AllMeasured(r.quarantine.binaries);
        VerdictVerifiesIff(r.quarantine, w.pre, env);
      }
    }
  }

  lemma ProductMeasured(q: Quarantine, p: Product, look: Look)
    ensures var x := CaptureProduct(q, p, look);
      && (x.ok <==> look.Missing? || look.Archived?)
      && (x.ok ==> x.quarantine.binaries == q.binaries + (if Complete(look) then {p} else {})
                   && x.quarantine.absent == q.absent + (if look.Missing? then {p} else {}))
  {
  }

  lemma AllMeasured(binaries: set<Product>)
    ensures binaries == PRODUCTS <==> AppProduct in binaries && ServerProduct in binaries
  {
    forall p | p in binaries ensures p in PRODUCTS {
      if p != AppProduct {
        assert p.ServerProduct?;
      }
    }
  }

  lemma VerdictVerifiesIff(q: Quarantine, pre: Option<PreBuild>, env: Env)
    requires q.outcome == env.outcome && q.phase == Captured
    ensures var x := Verdict(q, pre, env);
      && (x.ok <==> q.absent == {} && q.binaries == PRODUCTS && env.outcome == Success
                    && pre.Some? && env.context == Some(pre.value.provenance))
      && (x.ok <==> x.quarantine.phase == SourceVerified)
  {
  }

  // -------------------------------------------------------------- the commands

  /** `capture` and `prepare` as they run: `data` is the quarantine in memory and `log` the effects so far. */
  class Directories {
    var data: Quarantine
    var log: seq<Effect>
    const start: World

    constructor (w: World)
      ensures Disk() == w && log == [] && start == w
    {
      data, log, start := Fresh(Failure), [], w;
    }

    function Disk(): World
      reads this
    {
      ApplyAll(start, log)
    }

    twostate predicate Did(x: Exec, ok: bool)
      reads this
    {
      log == old(log) + x.effects && data == x.quarantine && ok == x.ok
    }

    method Do(e: Effect)
      modifies this`log
      ensures log == old(log) + [e] && Disk() == Apply(old(Disk()), e)
    {
      assert (log + [e])[..|log|] == log;
      log := log + [e];
    }

    method ArchiveProduct(p: Product, env: Env) returns (ok: bool)
      modifies this
      ensures Did(CaptureProduct(old(data), p, env.look(p)), ok)
    {
      var look := env.look(p);
      if look.Symlink? || look.Unarchivable? {
        return false;
      }
      if look.Missing? {
        data := data.(absent := data.absent + {p});
        Do(SaveQuarantine(data));
        return true;
      }
      Do(WriteArchive(p, look.digest));
      data := data.(payloads := data.payloads[p := look.digest]);
      Do(SaveQuarantine(data));
      if look.binary {
        data := data.(binaries := data.binaries + {p});
        Do(SaveQuarantine(data));
      }
      return true;
    }

    method RejectBuild() returns (ok: bool)
      modifies this
      ensures Did(Reject(old(data)), ok)
    {
      data := data.(phase := Rejected, post := None);
      Do(SaveQuarantine(data));
      return false;
    }

    method JudgeBuild(pre: PreBuild, env: Env) returns (ok: bool)
      modifies this
      ensures Did(Judge(old(data), pre, env), ok)
    {
      if env.context.None? || pre.provenance != env.context.value {
        ok := RejectBuild();
        return;
      }
      data := data.(post := env.context, generated := Some(env.observed));
      if env.outcome != Success || data.absent != {} || data.binaries != PRODUCTS {
        ok := RejectBuild();
        return;
      }
      data := data.(phase := SourceVerified);
      Do(SaveQuarantine(data));
      return true;
    }

    method ReachVerdict(pre: Option<PreBuild>, env: Env) returns (ok: bool)
      modifies this
      ensures Did(Verdict(old(data), pre, env), ok)
    {
      if pre.None? {
        ok := RejectBuild();
        return;
      }
      data := data.(pre := pre);
      ghost var recorded := Exec([SaveQuarantine(data)], data, true);
      Do(SaveQuarantine(data));
      Composed(old(log), recorded, Judge(data, pre.value, env));
      ok := JudgeBuild(pre.value, env);
    }

    method Capture(env: Env) returns (ok: bool)
      modifies this
      ensures log == old(log) + CaptureOp(old(Disk()), env).effects && ok == CaptureOp(old(Disk()), env).ok
    {
      if Disk().quarantine.Some? {
        return false;
      }
      var pre := Disk().pre;
      data := Fresh(env.outcome);
      ghost var s := Exec([SaveQuarantine(data)], data, true);
      Do(SaveQuarantine(data));
      ghost var p := CaptureProduct(data, AppProduct, env.look(AppProduct));
      Composed(old(log), s, p);
      ok := ArchiveProduct(AppProduct, env);
      if !ok {
        return;
      }
      ghost var r := CaptureProduct(data, ServerProduct, env.look(ServerProduct));
      Composed(old(log), Then(s, p), r);
      ok := ArchiveProduct(ServerProduct, env);
      if !ok {
        return;
      }
      Composed(old(log), Then(Then(s, p), r), Verdict(data, pre, env));
      ok := ReachVerdict(pre, env);
    }

    method Prepare(env: Env) returns (ok: bool)
      modifies this
      ensures log == old(log) + PrepareOp(old(Disk()), env)
      ensures ok <==> Signs(old(Disk()), env) && env.tool(4)
    {
      ok := false;
      if MayPrepare(Disk(), env) {
        ok := BuildCheckpoint(env);
      }
      if !ok {
        Do(SaveRejection);
      }
    }

    /** The retained directory, the two zips and the receipt, as far as the tools work. */
    method BuildCheckpoint(env: Env) returns (ok: bool)
      modifies this
      ensures ok <==> env.tool(1) && env.tool(2) && env.tool(3) && env.tool(4)
      ensures log + (if ok then [] else [SaveRejection]) == old(log) + Checkpoint(env)
    {
      Do(MakeRetained);
      if !env.tool(1) {
        return false;
      }
      Do(WriteZip(AppProduct, env.app));
      if !env.tool(2) {
        return false;
      }
      Do(WriteZip(ServerProduct, env.server));
      if !env.tool(3) {
        return false;
      }
      Do(SaveReceipt(env.app, env.server));
      return env.tool(4);
    }
  }

  lemma Composed(before: seq<Effect>, a: Exec, b: Exec)
    requires a.ok
    ensures before + a.effects + b.effects == before + Then(a, b).effects
  {
  }
}
