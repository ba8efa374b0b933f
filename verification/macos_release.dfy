// The macOS release controller.
//
// A receipt on disk is written ahead of every external action, and each operation
// resumes from that receipt alone.  An operation is the list of its durable and
// external effects; a crash keeps an arbitrary prefix of that list and forgets
// everything in memory.
module MacosRelease {

  datatype Option<+T> = None | Some(value: T)

  type Digest = string

  datatype Kind = App | Server | Dmg
  datatype Name = AppZip | ServerZip | SignedDmg | Updater(path: string)

  function FileOf(k: Kind): Name {
    match k case App => AppZip case Server => ServerZip case Dmg => SignedDmg
  }

  datatype Call =
    | Submit(kind: Kind)
    | Wait(kind: Kind)
    | Staple(item: Kind)
    | Validate(item: Kind)
    | Gatekeeper(item: Kind)

  const ATTEMPTS := 5

  predicate Idempotent(c: Call) {
    c.Staple? || c.Validate? || c.Wait?
  }

  function MaxAttempts(c: Call): nat {
    if Idempotent(c) then ATTEMPTS else 1
  }

  datatype Event = Started(call: Call, attempt: nat) | Finished(call: Call, attempt: nat, ok: bool)

  datatype Phase =
    | Retained | Submitted(kind: Kind) | AcceptedPhase(kind: Kind) | DmgRetained | CompletingDmg | Complete

  datatype Submission = Submission(id: string, digest: Digest, accepted: bool)

  datatype Receipt = Receipt(
    events: seq<Event>, payloads: map<Name, Digest>, submissions: map<Kind, Submission>,
    packaged: bool, phase: Phase, outputs: map<Name, Digest>, checkpoint: string)

  datatype Effect =
    | Save(receipt: Receipt)              // atomic replacement of the receipt
    | Run(call: Call, attempt: nat, leaves: Digest, ok: bool)   // a tool and its answer; a staple leaves these bytes in the image
    | CreateDmg(digest: Digest)
    | SignDmg(digest: Digest)
    | WriteUpdater(updater: map<string, Digest>)
    | UnzipApp                            // the retained application, to the place where it is stapled
    | CopyDmg                             // the retained image, to the same place
    | WriteOutputs                        // the output directory, copied together
    | Upload(name: Name)

  /** A working copy: the retained digest it was made from and the one it has. */
  datatype Image = Image(kind: Kind, origin: Digest, bytes: Digest)

  datatype Asset = Asset(name: Name, bytes: Digest)

  /** `files`, `outputs` and `work` are the bytes on disk.  The rest is what the outside world saw:
      each call with the bytes it was given and its answer, each copy a successful staple left, the
      application that went into the disk image and into the updater, and each asset uploaded. */
  datatype World = World(
    receipt: Receipt, files: map<Name, Digest>, outputs: map<Name, Digest>, work: Option<Image>,
    calls: seq<(Call, nat)>, inputs: seq<Option<Digest>>, answers: seq<bool>, staples: seq<Image>,
    builds: nat, inDmg: Option<Image>, inUpdater: Option<Image>, uploads: seq<Asset>)

  function FileAt(files: map<Name, Digest>, n: Name): Option<Digest> {
    if n in files then Some(files[n]) else None
  }

  /** The bytes a call reads, where the model follows them. */
  function Given(w: World, c: Call): Option<Digest> {
    if c.Submit? then FileAt(w.files, FileOf(c.kind))
    else if !c.Wait? && WorksOn(w, c.item) then Some(w.work.value.bytes)
    else None
  }

  /** The working copy is of this item. */
  predicate WorksOn(w: World, item: Kind) {
    w.work.Some? && w.work.value.kind == item
  }

  /** The call is seen with its answer, and a staple of the working copy, even a failing one, may rewrite it. */
  function Called(w: World, c: Call, n: nat, leaves: Digest, ok: bool): World {
    var seen := w.(calls := w.calls + [(c, n)], inputs := w.inputs + [Given(w, c)], answers := w.answers + [ok]);
    if c.Staple? && WorksOn(w, c.item) then
      var image := w.work.value.(bytes := leaves);
      seen.(work := Some(image), staples := if ok then w.staples + [image] else w.staples)
    else seen
  }

  /** The output directory: the updater files, the server archive and the stapled image, each a copy. */
  function Outputs(w: World): map<Name, Digest> {
    var updater := map n | n in w.files && n.Updater? :: w.files[n];
    var served := if ServerZip in w.files then updater[ServerZip := w.files[ServerZip]] else updater;
    if WorksOn(w, Dmg) then served[SignedDmg := w.work.value.bytes] else served
  }

  function CopyOf(w: World, k: Kind): Option<Image> {
    if FileOf(k) in w.files then Some(Image(k, w.files[FileOf(k)], w.files[FileOf(k)])) else None
  }

  function Apply(w: World, e: Effect): World {
    match e
    case Save(r) => w.(receipt := r)
    case Run(c, n, leaves, ok) => Called(w, c, n, leaves, ok)
    case CreateDmg(d) => w.(files := w.files[SignedDmg := d], builds := w.builds + 1, inDmg := w.work)
    case SignDmg(d) => w.(files := w.files[SignedDmg := d])
    case WriteUpdater(u) =>
      w.(files := (map n | n in w.files && !n.Updater? :: w.files[n]) + UpdaterFiles(u), inUpdater := w.work)
    case UnzipApp => w.(work := CopyOf(w, App))
    case CopyDmg => w.(work := CopyOf(w, Dmg))
    case WriteOutputs => w.(outputs := Outputs(w))
    case Upload(n) => if n in w.outputs then w.(uploads := w.uploads + [Asset(n, w.outputs[n])]) else w
  }

  function UpdaterFiles(u: map<string, Digest>): map<Name, Digest> {
    var names := set p | p in u :: Updater(p);
    map n | n in names :: u[n.path]
  }

  function ApplyAll(w: World, es: seq<Effect>): World {
    if es == [] then w else Apply(ApplyAll(w, es[..|es| - 1]), es[|es| - 1])
  }

  // -------------------------------------------------------------- operations

  datatype Outcome = Succeeds | FailsTransiently | Fails

  /** Everything the outside decides during one operation. */
  datatype Env = Env(
    loads: bool, tool: nat -> bool, outcome: (Call, nat) -> Outcome, accepted: Kind -> bool,
    validId: bool, id: string, created: Digest, signed: Digest,
    leaves: nat -> Digest, updater: map<string, Digest>, checkpoint: string)

  /** What a piece of an operation did, the receipt it left in memory, and whether it went on. */
  datatype Exec = Exec(effects: seq<Effect>, receipt: Receipt, ok: bool)

  function Log(r: Receipt, e: Event): Receipt {
    r.(events := r.events + [e])
  }

  /** One attempt: the start is saved, the tool runs, the result is saved. */
  function AttemptOf(r: Receipt, c: Call, env: Env, attempt: nat): Exec {
    var started := Log(r, Started(c, attempt));
    var outcome := env.outcome(c, attempt);
    var finished := Log(started, Finished(c, attempt, outcome.Succeeds?));
    // A successful submission is saved only together with its id.
    var saved := if c.Submit? && outcome.Succeeds? then [] else [Save(finished)];
    Exec([Save(started), Run(c, attempt, env.leaves(attempt), outcome.Succeeds?)] + saved, finished, outcome.Succeeds?)
  }

  predicate GivesUp(c: Call, env: Env, attempt: nat) {
    !env.outcome(c, attempt).FailsTransiently? || attempt >= MaxAttempts(c)
  }

  function Remote(r: Receipt, c: Call, env: Env, attempt: nat): (x: Exec)
    decreases MaxAttempts(c) - attempt
  {
    var a := AttemptOf(r, c, env, attempt);
    if GivesUp(c, env, attempt) then a
    else
      var rest := Remote(a.receipt, c, env, attempt + 1);
      Exec(a.effects + rest.effects, rest.receipt, rest.ok)
  }

  function Then(a: Exec, b: Exec): Exec {
    if a.ok then Exec(a.effects + b.effects, b.receipt, b.ok) else a
  }

  function WaitAccepted(r: Receipt, k: Kind, env: Env): Exec {
    if k !in r.submissions || FileOf(k) !in r.payloads || r.submissions[k].digest != r.payloads[FileOf(k)]
    then Exec([], r, false)
    else if r.submissions[k].accepted then Exec([], r, true)
    else
      var x := Remote(r, Wait(k), env, 1);
      if !x.ok || !env.accepted(k) then x.(ok := false)
      else
        var done := x.receipt.(submissions := r.submissions[k := r.submissions[k].(accepted := true)],
                               phase := AcceptedPhase(k));
        Exec(x.effects + [Save(done)], done, true)
  }

  function GatekeeperCalls(r: Receipt, item: Kind, env: Env): Exec {
    var a := Remote(r, Staple(item), env, 1);
    Then(a, Assess(a.receipt, item, env))
  }

  /** Validation, then the gatekeeper. */
  function Assess(r: Receipt, item: Kind, env: Env): Exec {
    var b := Remote(r, Validate(item), env, 1);
    Then(b, Remote(b.receipt, Gatekeeper(item), env, 1))
  }

  const BASE := {AppZip, ServerZip}
  const PACKAGED := {AppZip, ServerZip, SignedDmg, Updater("archive"), Updater("manifest")}

  /** `receipt(args)`: the retained bytes must still be the ones the receipt names. */
  predicate Loads(w: World, env: Env) {
    env.loads && w.receipt.payloads.Keys == (if w.receipt.packaged then PACKAGED else BASE)
    && forall n :: n in w.receipt.payloads ==> n in w.files && w.files[n] == w.receipt.payloads[n]
  }

  predicate SubmitStarted(es: seq<Event>, k: Kind) {
    exists i :: 0 <= i < |es| && es[i].Started? && es[i].call == Submit(k)
  }

  function SubmitOp(w: World, k: Kind, env: Env): Exec {
    var r := w.receipt;
    if !Loads(w, env) || k in r.submissions || SubmitStarted(r.events, k) || FileOf(k) !in r.payloads then Exec([], r, false)
    else
      var x := Remote(r, Submit(k), env, 1);
      if !x.ok || !env.validId then x.(ok := false)
      else
        var s := Submission(env.id, r.payloads[FileOf(k)], false);
        var done := x.receipt.(submissions := x.receipt.submissions[k := s], phase := Submitted(k));
        Exec(x.effects + [Save(done)], done, true)
  }

  /** The receipt with the disk image and the updater files. */
  function WithDmg(r: Receipt, env: Env): Receipt {
    r.(payloads := (r.payloads + UpdaterFiles(env.updater))[SignedDmg := env.signed], packaged := true, phase := DmgRetained)
  }

  function PackageBytes(r: Receipt, env: Env): Exec {
    if !env.tool(1) then Exec([], r, false)
    else if !env.tool(2) then Exec([WriteUpdater(env.updater)], r, false)
    else if !env.tool(3) then Exec([WriteUpdater(env.updater), CreateDmg(env.created)], r, false)
    else
      var bytes := [WriteUpdater(env.updater), CreateDmg(env.created), SignDmg(env.signed)];
      if !env.tool(4) then Exec(bytes, r, false)
      else
        var done := WithDmg(r, env);
        Exec(bytes + [Save(done)], done, true)
  }

  function WaitTwo(r: Receipt, first: Kind, second: Kind, env: Env): Exec {
    var a := WaitAccepted(r, first, env);
    Then(a, WaitAccepted(a.receipt, second, env))
  }

  function PackageOp(w: World, env: Env): Exec {
    var r := w.receipt;
    if !Loads(w, env) || r.packaged || SignedDmg in w.files then Exec([], r, false) else WaitAndPackage(r, env)
  }

  function WaitAndPackage(r: Receipt, env: Env): Exec {
    var b := WaitTwo(r, Server, App, env);
    if !b.ok || !env.tool(0) then b.(ok := false)
    else
      var c := Then(b, AppCalls(b.receipt, env));
      Then(c, PackageBytes(c.receipt, env))
  }

  /** The gatekeeper calls on a copy of the application. */
  function AppCalls(r: Receipt, env: Env): Exec {
    Then(Exec([UnzipApp], r, true), GatekeeperCalls(r, App, env))
  }

  /** The receipt marked as completing, with the gatekeeper calls on a copy of the disk image behind it. */
  function Completing(r: Receipt, env: Env): Exec {
    var starting := r.(phase := CompletingDmg);
    Then(Exec([Save(starting), CopyDmg], starting, true), GatekeeperCalls(starting, Dmg, env))
  }

  function WithOutputs(r: Receipt, outputs: map<Name, Digest>): Receipt {
    r.(outputs := outputs, phase := Complete)
  }

  function CompleteBytes(w: World, r: Receipt, env: Env): Exec {
    var g := Completing(r, env);
    if !g.ok || !env.tool(0) then g.(ok := false)
    else
      var done := WithOutputs(g.receipt, Outputs(ApplyAll(w, g.effects)));
      Exec(g.effects + [WriteOutputs, Save(done)], done, true)
  }

  function CompleteOp(w: World, env: Env): Exec {
    if !Loads(w, env) || !w.receipt.packaged then Exec([], w.receipt, false) else WaitAndComplete(w, env)
  }

  function WaitAndComplete(w: World, env: Env): Exec {
    var b := WaitTwo(w.receipt, App, Server, env);
    var c := Then(b, WaitAccepted(b.receipt, Dmg, env));
    Then(c, CompleteBytes(ApplyAll(w, c.effects), c.receipt, env))
  }

  const ASSETS: seq<Name> := [SignedDmg, Updater("archive"), ServerZip]

  function Uploads(n: nat, env: Env): seq<Effect>
    requires n <= |ASSETS|
  {
    if n == 0 then [] else
      var before := Uploads(n - 1, env);
      if env.tool(n) && |before| == n - 1 then before + [Upload(ASSETS[n - 1])] else before
  }

  function UploadOp(w: World, env: Env): Exec {
    var r := w.receipt;
    if !Loads(w, env) || r.phase != Complete
       || !(forall p :: p in r.outputs ==> p in w.outputs && w.outputs[p] == r.outputs[p])
       || r.outputs.Keys != {SignedDmg, ServerZip, Updater("archive"), Updater("manifest")}
    then Exec([], r, false)
    else
      var effects := Uploads(|ASSETS|, env);
      Exec(effects, r, |effects| == |ASSETS|)
  }

  function CheckpointOp(w: World, env: Env): Exec {
    if !Loads(w, env) then Exec([], w.receipt, false)
    else
      var done := w.receipt.(checkpoint := env.checkpoint);
      Exec([Save(done)], done, true)
  }

  datatype Op = OpSubmit(kind: Kind) | OpPackage | OpComplete | OpUpload | OpCheckpoint

  function Execute(w: World, op: Op, env: Env): Exec {
    match op
    case OpSubmit(k) => SubmitOp(w, k, env)
    case OpPackage => PackageOp(w, env)
    case OpComplete => CompleteOp(w, env)
    case OpUpload => UploadOp(w, env)
    case OpCheckpoint => CheckpointOp(w, env)
  }

  /** What happens to one retained directory: an operation runs until it ends or crashes after
      `upTo` effects, or the retained bytes are changed behind the controller's back. */
  datatype Step =
    | Operate(op: Op, env: Env, upTo: nat)
    | Tamper(files: map<Name, Digest>, outputs: map<Name, Digest>)

  function Min(a: nat, b: nat): nat {
    if a < b then a else b
  }

  function Next(w: World, s: Step): World {
    match s
    case Operate(op, env, upTo) =>
      var es := Execute(w, op, env).effects;
      ApplyAll(w, es[..Min(upTo, |es|)])
    case Tamper(files, outputs) =>
      // The disk image is the one file whose mere presence matters; removing it is outside the model.
      if SignedDmg in w.files && SignedDmg !in files then w else
      if SignedDmg !in w.files && SignedDmg in files then w else w.(files := files, outputs := outputs)
  }

  /** The receipt `prepare` leaves behind. */
  function Prepared(app: Digest, server: Digest): World {
    var payloads := map[AppZip := app, ServerZip := server];
    World(Receipt([], payloads, map[], false, Retained, map[], ""), payloads, map[], None, [], [], [], [], 0, None, None, [])
  }

  function RunAll(w: World, steps: seq<Step>): World
    decreases |steps|
  {
    if steps == [] then w else RunAll(Next(w, steps[0]), steps[1..])
  }

  // --------------------------------------------------------------- invariant

  ghost function Starts(es: seq<Event>): multiset<(Call, nat)> {
    if es == [] then multiset{}
    else
      var e := es[|es| - 1];
      Starts(es[..|es| - 1]) + if e.Started? then multiset{(e.call, e.attempt)} else multiset{}
  }

  predicate AcceptedIn(r: Receipt, k: Kind) {
    && k in r.submissions && r.submissions[k].accepted
    && FileOf(k) in r.payloads && r.submissions[k].digest == r.payloads[FileOf(k)]
  }

  predicate AllAccepted(r: Receipt) {
    forall k: Kind :: k in r.submissions && r.submissions[k].accepted
      && FileOf(k) in r.payloads && r.submissions[k].digest == r.payloads[FileOf(k)]
  }

  /** The log holds a success of `c`. */
  predicate Succeeded(es: seq<Event>, c: Call) {
    exists i :: 0 <= i < |es| && es[i].Finished? && es[i].call == c && es[i].ok
  }

  /** The log holds a success of each of the three calls on `item`. */
  predicate Assessed(es: seq<Event>, item: Kind) {
    Succeeded(es, Staple(item)) && Succeeded(es, Validate(item)) && Succeeded(es, Gatekeeper(item))
  }

  /** Everything a release needs: Apple's acceptance of each payload, and the image assessed. */
  predicate Cleared(r: Receipt) {
    AllAccepted(r) && Assessed(r.events, Dmg)
  }

  ghost predicate LogOk(es: seq<Event>) {
    && (forall i :: 0 <= i < |es| && es[i].Started? ==> 1 <= es[i].attempt <= MaxAttempts(es[i].call))
    && (forall k: Kind :: Starts(es)[(Submit(k), 1)] <= 1)
  }

  ghost predicate ReceiptOk(r: Receipt) {
    && LogOk(r.events)
    && AppZip in r.payloads && ServerZip in r.payloads && (r.packaged <==> SignedDmg in r.payloads)
    && (forall k :: k in r.submissions ==>
         FileOf(k) in r.payloads && r.submissions[k].digest == r.payloads[FileOf(k)] && SubmitStarted(r.events, k)
         && (r.submissions[k].accepted ==> Succeeded(r.events, Wait(k))))
    && (r.phase == Complete ==> r.packaged && Cleared(r))
  }

  /** The log only grows, retained bytes are never replaced, and nothing recorded is taken back. */
  predicate Extends(r: Receipt, s: Receipt) {
    && r.events <= s.events
    && (forall k :: FileOf(k) in r.payloads ==> FileOf(k) in s.payloads && s.payloads[FileOf(k)] == r.payloads[FileOf(k)])
    && (forall k :: k in r.submissions ==>
         k in s.submissions && s.submissions[k].id == r.submissions[k].id
         && s.submissions[k].digest == r.submissions[k].digest
         && (r.submissions[k].accepted ==> s.submissions[k].accepted))
    && (r.packaged ==> s.packaged && s.payloads == r.payloads)
  }

  /** The call was given these bytes and succeeded. */
  predicate Passed(w: World, c: Call, bytes: Digest) {
    exists i :: 0 <= i < |w.calls| && i < |w.inputs| && i < |w.answers|
      && w.calls[i].0 == c && w.inputs[i] == Some(bytes) && w.answers[i]
  }

  /** A successful staple turned a copy of `origin` into `bytes`, and both validation and the gatekeeper
      passed those bytes. */
  predicate Vouched(w: World, k: Kind, origin: Digest, bytes: Digest) {
    Image(k, origin, bytes) in w.staples && Passed(w, Validate(k), bytes) && Passed(w, Gatekeeper(k), bytes)
  }

  /** The retained application and server are accepted, and the application was assessed. */
  predicate AppCleared(r: Receipt) {
    AcceptedIn(r, App) && AcceptedIn(r, Server) && Assessed(r.events, App)
  }

  /** `copy` is a copy of the retained application that was stapled, validated and assessed. */
  predicate IsClearedApp(w: World, copy: Option<Image>) {
    && copy.Some? && copy.value.kind == App && AppZip in w.receipt.payloads && copy.value.origin == w.receipt.payloads[AppZip]
    && Vouched(w, App, copy.value.origin, copy.value.bytes) && AppCleared(w.receipt)
  }

  /** The copy went into the disk image, or into the updater. */
  predicate Packs(w: World, copy: Option<Image>) {
    (SignedDmg in w.files && copy == w.inDmg) || (w.inUpdater.Some? && copy == w.inUpdater)
  }

  /** What was packed is such a copy. */
  ghost predicate PackedOk(w: World) {
    forall copy :: Packs(w, copy) ==> IsClearedApp(w, copy)
  }

  /** The outside has seen whatever it had seen in `w`. */
  predicate SeenBy(w: World, t: World) {
    w.calls <= t.calls && w.inputs <= t.inputs && w.answers <= t.answers && w.staples <= t.staples
  }

  /** Bytes shipped under `n` are the retained ones, except that the image has been stapled. */
  predicate Shipped(w: World, r: Receipt, n: Name, bytes: Digest) {
    n in r.payloads && if n == SignedDmg then Vouched(w, Dmg, r.payloads[n], bytes) else bytes == r.payloads[n]
  }

  predicate Produced(w: World, r: Receipt) {
    && ServerZip in r.outputs && SignedDmg in r.outputs && SignedDmg in r.payloads
    && forall n :: n in r.outputs && n in r.payloads ==> Shipped(w, r, n, r.outputs[n])
  }

  /** Every submission was given the bytes the receipt retains. */
  predicate InputsOk(w: World) {
    |w.inputs| == |w.calls| && |w.answers| == |w.calls|
    && forall i :: 0 <= i < |w.calls| && w.calls[i].0.Submit? ==>
      var n := FileOf(w.calls[i].0.kind);
      n in w.receipt.payloads && w.inputs[i] == Some(w.receipt.payloads[n])
  }

  predicate UploadsOk(w: World) {
    && (w.uploads != [] ==> w.receipt.packaged && Cleared(w.receipt))
    && forall i :: 0 <= i < |w.uploads| ==> Shipped(w, w.receipt, w.uploads[i].name, w.uploads[i].bytes)
  }

  ghost predicate Inv(w: World) {
    && ReceiptOk(w.receipt)
    && multiset(w.calls) <= Starts(w.receipt.events)
    && w.builds == (if SignedDmg in w.files then 1 else 0)
    && (w.receipt.packaged ==> SignedDmg in w.files && w.inUpdater.Some?)
    && PackedOk(w) && InputsOk(w) && UploadsOk(w)
    && (w.receipt.phase == Complete ==> Produced(w, w.receipt))
  }

  ghost predicate MaySave(w: World, r: Receipt) {
    ReceiptOk(r) && Extends(w.receipt, r) && (r.packaged ==> SignedDmg in w.files && w.inUpdater.Some?)
    && (r.phase == Complete ==> Produced(w, r))
  }

  ghost predicate MayRun(w: World, c: Call, n: nat) {
    && multiset(w.calls) + multiset{(c, n)} <= Starts(w.receipt.events)
    && (c.Submit? ==> FileOf(c.kind) in w.receipt.payloads && Given(w, c) == Some(w.receipt.payloads[FileOf(c.kind)]))
  }

  ghost predicate MayUpload(w: World, n: Name) {
    && w.receipt.phase == Complete && n in w.receipt.outputs && n in w.receipt.payloads
    && n in w.outputs && w.outputs[n] == w.receipt.outputs[n]
  }

  /** What each effect may rely on being durable already. */
  ghost predicate Allowed(w: World, e: Effect) {
    match e
    case Save(r) => MaySave(w, r)
    case Run(c, n, _, _) => MayRun(w, c, n)
    case WriteUpdater(_) => IsClearedApp(w, w.work)
    case CreateDmg(_) => SignedDmg !in w.files && IsClearedApp(w, w.work)
    case SignDmg(_) => SignedDmg in w.files
    case Upload(n) => MayUpload(w, n)
    case _ => true
  }

  ghost predicate AllAllowed(w: World, es: seq<Effect>) {
    es == [] || (AllAllowed(w, es[..|es| - 1]) && Allowed(ApplyAll(w, es[..|es| - 1]), es[|es| - 1]))
  }

  lemma SeenKeepsShipped(w: World, t: World, r: Receipt, s: Receipt, n: Name, bytes: Digest)
    requires Shipped(w, r, n, bytes) && n in s.payloads && s.payloads[n] == r.payloads[n]
    requires SeenBy(w, t)
    ensures Shipped(t, s, n, bytes)
  {
    if n == SignedDmg {
      StaysVouched(w, t, Dmg, r.payloads[n], bytes);
    }
  }

  lemma StaysPassed(w: World, t: World, c: Call, bytes: Digest)
    requires Passed(w, c, bytes) && SeenBy(w, t)
    ensures Passed(t, c, bytes)
  {
    var i :| 0 <= i < |w.calls| && i < |w.inputs| && i < |w.answers|
      && w.calls[i].0 == c && w.inputs[i] == Some(bytes) && w.answers[i];
    assert t.calls[i] == w.calls[i] && t.inputs[i] == w.inputs[i] && t.answers[i];
  }

  lemma StaysVouched(w: World, t: World, k: Kind, origin: Digest, bytes: Digest)
    requires Vouched(w, k, origin, bytes) && SeenBy(w, t)
    ensures Vouched(t, k, origin, bytes)
  {
    StaysPassed(w, t, Validate(k), bytes);
    StaysPassed(w, t, Gatekeeper(k), bytes);
    var j :| 0 <= j < |w.staples| && w.staples[j] == Image(k, origin, bytes);
    assert t.staples[j] == w.staples[j];
  }

  lemma StaysClearedApp(w: World, t: World, copy: Option<Image>)
    requires IsClearedApp(w, copy) && SeenBy(w, t) && Extends(w.receipt, t.receipt) && ReceiptOk(t.receipt)
    ensures IsClearedApp(t, copy)
  {
    StaysVouched(w, t, App, copy.value.origin, copy.value.bytes);
    StaysAccepted(w.receipt, t.receipt, App);
    StaysAccepted(w.receipt, t.receipt, Server);
    StaysAssessed(w.receipt.events, t.receipt.events, App);
    assert FileOf(App) == AppZip;
  }

  lemma SeenKeepsPacked(w: World, t: World)
    requires PackedOk(w) && SeenBy(w, t) && Extends(w.receipt, t.receipt) && ReceiptOk(t.receipt)
    requires t.files == w.files && t.inDmg == w.inDmg && t.inUpdater == w.inUpdater
    ensures PackedOk(t)
  {
    forall copy | Packs(t, copy) ensures IsClearedApp(t, copy) {
      assert Packs(w, copy);
      StaysClearedApp(w, t, copy);
    }
  }

  lemma SeenKeepsProduced(w: World, t: World, r: Receipt)
    requires Produced(w, r) && SeenBy(w, t)
    ensures Produced(t, r)
  {
    forall n | n in r.outputs && n in r.payloads ensures Shipped(t, r, n, r.outputs[n]) {
      SeenKeepsShipped(w, t, r, r, n, r.outputs[n]);
    }
  }

  /** Uploads stay what they were while the outside sees more and the receipt is extended. */
  lemma SeenKeepsUploads(w: World, t: World)
    requires UploadsOk(w) && t.uploads == w.uploads && Extends(w.receipt, t.receipt) && ReceiptOk(t.receipt)
    requires SeenBy(w, t)
    ensures UploadsOk(t)
  {
    if w.uploads != [] {
      StaysCleared(w.receipt, t.receipt);
      forall i | 0 <= i < |t.uploads| ensures Shipped(t, t.receipt, t.uploads[i].name, t.uploads[i].bytes) {
        SeenKeepsShipped(w, t, w.receipt, t.receipt, t.uploads[i].name, t.uploads[i].bytes);
      }
    }
  }

  lemma StaysSucceeded(es: seq<Event>, fs: seq<Event>, c: Call)
    requires Succeeded(es, c) && es <= fs
    ensures Succeeded(fs, c)
  {
    var i :| 0 <= i < |es| && es[i].Finished? && es[i].call == c && es[i].ok;
    assert fs[i] == es[i];
  }

  lemma StaysAssessed(es: seq<Event>, fs: seq<Event>, item: Kind)
    requires Assessed(es, item) && es <= fs
    ensures Assessed(fs, item)
  {
    StaysSucceeded(es, fs, Staple(item));
    StaysSucceeded(es, fs, Validate(item));
    StaysSucceeded(es, fs, Gatekeeper(item));
  }

  lemma StaysCleared(r: Receipt, s: Receipt)
    requires Cleared(r) && Extends(r, s) && ReceiptOk(s)
    ensures Cleared(s)
  {
    AllStayAccepted(r, s);
    StaysAssessed(r.events, s.events, Dmg);
  }

  lemma AllStayAccepted(r: Receipt, s: Receipt)
    requires AllAccepted(r) && Extends(r, s) && ReceiptOk(s)
    ensures AllAccepted(s)
  {
    forall k: Kind ensures k in s.submissions && s.submissions[k].accepted
      && FileOf(k) in s.payloads && s.submissions[k].digest == s.payloads[FileOf(k)]
    {
      StaysAccepted(r, s, k);
    }
  }

  lemma SaveKeepsInv(w: World, r: Receipt)
    requires Inv(w) && MaySave(w, r)
    ensures Inv(w.(receipt := r))
  {
    var t := w.(receipt := r);
    StartsOfPrefix(w.receipt.events, r.events);
    SeenKeepsUploads(w, t);
    SeenKeepsPacked(w, t);
    if r.phase == Complete {
      SeenKeepsProduced(w, t, r);
    }
  }

  lemma CallKeepsInputs(w: World, c: Call, n: nat, leaves: Digest, ok: bool)
    requires InputsOk(w) && MayRun(w, c, n)
    ensures InputsOk(Called(w, c, n, leaves, ok))
  {
  }

  lemma CallIsLogged(w: World, c: Call, n: nat)
    requires MayRun(w, c, n)
    ensures multiset(w.calls + [(c, n)]) <= Starts(w.receipt.events)
  {
    assert multiset(w.calls + [(c, n)]) == multiset(w.calls) + multiset{(c, n)};
  }

  /** What was shipped stays so while the outside sees more. */
  lemma MoreSeenKeeps(w: World, t: World)
    requires Inv(w) && SeenBy(w, t) && t.receipt == w.receipt && t.uploads == w.uploads
    ensures UploadsOk(t) && (t.receipt.phase == Complete ==> Produced(t, t.receipt))
    ensures t.files == w.files && t.inDmg == w.inDmg && t.inUpdater == w.inUpdater ==> PackedOk(t)
  {
    ExtendsItself(w.receipt);
    SeenKeepsUploads(w, t);
    if t.files == w.files && t.inDmg == w.inDmg && t.inUpdater == w.inUpdater {
      SeenKeepsPacked(w, t);
    }
    if t.receipt.phase == Complete {
      SeenKeepsProduced(w, t, t.receipt);
    }
  }

  lemma CallKeepsInv(w: World, c: Call, n: nat, leaves: Digest, ok: bool)
    requires Inv(w) && MayRun(w, c, n)
    ensures Inv(Called(w, c, n, leaves, ok))
  {
    var t := Called(w, c, n, leaves, ok);
    CallKeepsInputs(w, c, n, leaves, ok);
    CallIsLogged(w, c, n);
    MoreSeenKeeps(w, t);
  }

  lemma UploadKeepsInv(w: World, n: Name)
    requires Inv(w) && MayUpload(w, n)
    ensures Inv(Apply(w, Upload(n)))
  {
    var t := Apply(w, Upload(n));
    UploadKeepsUploads(w, t, n);
    UploadKeepsRest(w, t);
  }

  lemma UploadKeepsRest(w: World, t: World)
    requires Inv(w) && t == w.(uploads := t.uploads)
    ensures PackedOk(t) && InputsOk(t) && (t.receipt.phase == Complete ==> Produced(t, t.receipt))
  {
    ExtendsItself(w.receipt);
    SeenKeepsPacked(w, t);
    if w.receipt.phase == Complete {
      SeenKeepsProduced(w, t, t.receipt);
    }
  }

  lemma UploadKeepsUploads(w: World, t: World, n: Name)
    requires Inv(w) && MayUpload(w, n) && t == Apply(w, Upload(n))
    ensures UploadsOk(t)
  {
    SeenKeepsProduced(w, t, t.receipt);
    forall i | 0 <= i < |t.uploads| ensures Shipped(t, t.receipt, t.uploads[i].name, t.uploads[i].bytes) {
      if i < |w.uploads| {
        SeenKeepsShipped(w, t, w.receipt, t.receipt, w.uploads[i].name, w.uploads[i].bytes);
      }
    }
  }

  lemma BytesKeepInv(w: World, t: World)
    requires Inv(w)
    requires t == w.(files := t.files, outputs := t.outputs, work := t.work, builds := t.builds, inDmg := t.inDmg, inUpdater := t.inUpdater)
    requires t.builds == (if SignedDmg in t.files then 1 else 0) && (SignedDmg in w.files ==> SignedDmg in t.files)
    requires (t.inDmg == w.inDmg && (SignedDmg in t.files ==> SignedDmg in w.files)) || (t.inDmg == w.work && IsClearedApp(w, w.work))
    requires t.inUpdater == w.inUpdater || (t.inUpdater == w.work && IsClearedApp(w, w.work))
    ensures Inv(t)
  {
    MoreSeenKeeps(w, t);
    ExtendsItself(w.receipt);
    forall copy | Packs(t, copy) ensures IsClearedApp(t, copy) {
      assert copy != w.work ==> Packs(w, copy);
      StaysClearedApp(w, t, copy);
    }
  }

  lemma AllowedKeepsInv(w: World, e: Effect)
    requires Inv(w) && Allowed(w, e)
    ensures Inv(Apply(w, e)) && Extends(w.receipt, Apply(w, e).receipt)
  {
    ExtendsItself(w.receipt);
    match e
    case Save(r) => SaveKeepsInv(w, r);
    case Run(c, n, leaves, ok) => CallKeepsInv(w, c, n, leaves, ok);
    case Upload(n) => UploadKeepsInv(w, n);
    case _ => BytesKeepInv(w, Apply(w, e));
  }

  lemma {:induction false} StartsOfPrefix(a: seq<Event>, b: seq<Event>)
    requires a <= b
    ensures Starts(a) <= Starts(b)
  {
    if |a| < |b| {
      StartsOfPrefix(a, b[..|b| - 1]);
    } else {
      assert a == b;
    }
  }

  lemma {:induction false} AllAllowedKeepsInv(w: World, es: seq<Effect>)
    requires Inv(w) && AllAllowed(w, es)
    ensures Inv(ApplyAll(w, es)) && Extends(w.receipt, ApplyAll(w, es).receipt)
  {
    if es != [] {
      AllAllowedKeepsInv(w, es[..|es| - 1]);
      AllowedKeepsInv(ApplyAll(w, es[..|es| - 1]), es[|es| - 1]);
    }
  }

  lemma {:induction false} PrefixAllowed(w: World, es: seq<Effect>, n: nat)
    requires n <= |es| && AllAllowed(w, es)
    ensures AllAllowed(w, es[..n])
  {
    if n < |es| {
      PrefixAllowed(w, es[..|es| - 1], n);
      assert es[..|es| - 1][..n] == es[..n];
    } else {
      assert es[..n] == es;
    }
  }

  lemma {:induction false} Appended(w: World, a: seq<Effect>, b: seq<Effect>)
    ensures ApplyAll(w, a + b) == ApplyAll(ApplyAll(w, a), b)
    ensures AllAllowed(w, a + b) <==> AllAllowed(w, a) && AllAllowed(ApplyAll(w, a), b)
  {
    if b == [] {
      assert a + b == a;
    } else {
      var c := b[..|b| - 1];
      Appended(w, a, c);
      assert (a + b)[..|a + b| - 1] == a + c;
    }
  }

  lemma One(w: World, e: Effect)
    ensures ApplyAll(w, [e]) == Apply(w, e) && (AllAllowed(w, [e]) <==> Allowed(w, e))
  {
  }

  // ------------------------------------------------- the pieces are allowed

  /** A piece of an operation, begun with the receipt in memory equal to the one on disk, does only
      allowed things; `Sound` also says what the disk holds afterwards. */
  ghost predicate Sound(w: World, x: Exec) {
    && AllAllowed(w, x.effects)
    && (x.ok ==> ApplyAll(w, x.effects).receipt == x.receipt)
    && ApplyAll(w, x.effects).files == w.files
    && ApplyAll(w, x.effects).uploads == w.uploads
  }

  lemma SoundThen(w: World, a: Exec, b: Exec)
    requires Inv(w) && Sound(w, a) && (a.ok ==> Sound(ApplyAll(w, a.effects), b))
    ensures Sound(w, Then(a, b)) && (a.ok ==> Inv(ApplyAll(w, a.effects)))
  {
    AllAllowedKeepsInv(w, a.effects);
    Appended(w, a.effects, b.effects);
  }

  lemma EventAppended(r: Receipt, e: Event)
    ensures Starts(Log(r, e).events) == Starts(r.events) + if e.Started? then multiset{(e.call, e.attempt)} else multiset{}
  {
  }

  lemma LoggedOk(r: Receipt, e: Event)
    requires ReceiptOk(r)
    requires e.Started? ==> 1 <= e.attempt <= MaxAttempts(e.call)
    requires e.Started? && e.call.Submit? ==> Starts(r.events)[(e.call, 1)] == 0
    ensures ReceiptOk(Log(r, e)) && Extends(r, Log(r, e))
  {
  }

  lemma LogMaySave(w: World, e: Event)
    requires Inv(w) && (e.Started? ==> 1 <= e.attempt <= MaxAttempts(e.call))
    requires e.Started? && e.call.Submit? ==> Starts(w.receipt.events)[(e.call, 1)] == 0
    ensures MaySave(w, Log(w.receipt, e))
  {
    LoggedOk(w.receipt, e);
  }

  /** Writing the start ahead makes the call allowed. */
  lemma StartThenRun(w: World, c: Call, n: nat, leaves: Digest, ok: bool)
    requires Inv(w) && 1 <= n <= MaxAttempts(c)
    requires c.Submit? ==> Starts(w.receipt.events)[(c, 1)] == 0 && FileOf(c.kind) in w.receipt.payloads
                           && Given(w, c) == Some(w.receipt.payloads[FileOf(c.kind)])
    ensures var es := [Save(Log(w.receipt, Started(c, n))), Run(c, n, leaves, ok)];
      AllAllowed(w, es) && Inv(ApplyAll(w, es))
      && ApplyAll(w, es) == Called(w.(receipt := Log(w.receipt, Started(c, n))), c, n, leaves, ok)
  {
    var started := Log(w.receipt, Started(c, n));
    var es := [Save(started), Run(c, n, leaves, ok)];
    LogMaySave(w, Started(c, n));
    EventAppended(w.receipt, Started(c, n));
    assert es == [Save(started)] + [Run(c, n, leaves, ok)];
    One(w, Save(started));
    One(Apply(w, Save(started)), Run(c, n, leaves, ok));
    Appended(w, [Save(started)], [Run(c, n, leaves, ok)]);
    AllAllowedKeepsInv(w, es);
  }

  lemma SaveIsSound(w: World, r: Receipt)
    requires Inv(w) && MaySave(w, r)
    ensures Sound(w, Exec([Save(r)], r, true)) && ApplyAll(w, [Save(r)]) == w.(receipt := r)
  {
    One(w, Save(r));
  }

  /** One attempt of a call that is not a submission. */
  lemma AttemptIsSound(w: World, c: Call, env: Env, n: nat)
    requires Inv(w) && !c.Submit? && 1 <= n <= MaxAttempts(c)
    ensures var a := AttemptOf(w.receipt, c, env, n);
      Sound(w, a.(ok := true)) && Inv(ApplyAll(w, a.effects)) && ApplyAll(w, a.effects).receipt == a.receipt
  {
    var started := Log(w.receipt, Started(c, n));
    var a := AttemptOf(w.receipt, c, env, n);
    var ok := env.outcome(c, n).Succeeds?;
    var head := [Save(started), Run(c, n, env.leaves(n), ok)];
    StartThenRun(w, c, n, env.leaves(n), ok);
    var m := ApplyAll(w, head);
    LogMaySave(m, Finished(c, n, ok));
    SaveIsSound(m, a.receipt);
    Appended(w, head, [Save(a.receipt)]);
    assert head + [Save(a.receipt)] == a.effects;
    AllAllowedKeepsInv(w, a.effects);
  }

  /** A call changes nothing of the receipt but its log, and a successful one is logged as such. */
  lemma {:induction false} RemoteReceipt(r: Receipt, c: Call, env: Env, n: nat)
    requires 1 <= n <= MaxAttempts(c)
    ensures var x := Remote(r, c, env, n);
      && x.receipt == r.(events := x.receipt.events) && r.events <= x.receipt.events
      && (x.ok ==> Succeeded(x.receipt.events, c))
    decreases MaxAttempts(c) - n
  {
    var outcome := env.outcome(c, n);
    var f := Log(Log(r, Started(c, n)), Finished(c, n, outcome.Succeeds?));
    assert f.events[|f.events| - 1] == Finished(c, n, outcome.Succeeds?);
    if outcome.FailsTransiently? && n < MaxAttempts(c) {
      RemoteReceipt(f, c, env, n + 1);
    }
  }

  lemma {:induction false} RemoteIsSound(w: World, r: Receipt, c: Call, env: Env, n: nat)
    requires Inv(w) && w.receipt == r && !c.Submit? && 1 <= n <= MaxAttempts(c)
    ensures Sound(w, Remote(r, c, env, n))
    decreases MaxAttempts(c) - n
  {
    var a := AttemptOf(r, c, env, n);
    AttemptIsSound(w, c, env, n);
    if GivesUp(c, env, n) {
      assert Remote(r, c, env, n) == a;
    } else {
      var rest := Remote(a.receipt, c, env, n + 1);
      RemoteIsSound(ApplyAll(w, a.effects), a.receipt, c, env, n + 1);
      RetryIsSound(w, a.effects, a.receipt, rest);
    }
  }

  lemma RetryIsSound(w: World, effects: seq<Effect>, r: Receipt, rest: Exec)
    requires Inv(w) && Sound(w, Exec(effects, r, true)) && Sound(ApplyAll(w, effects), rest)
    ensures Sound(w, Exec(effects + rest.effects, rest.receipt, rest.ok))
  {
    SoundThen(w, Exec(effects, r, true), rest);
  }

  /** The copied image is one a successful staple left. */
  predicate Stapled(w: World) {
    w.work.Some? && w.work.value in w.staples
  }

  /** From `w` to `t` the call `c` was the last one seen, `ok` is its answer, and only a staple changes
      the image. */
  predicate Saw(w: World, t: World, c: Call, ok: bool) {
    && SeenBy(w, t) && |t.calls| == |t.inputs| == |t.answers| && |w.calls| < |t.calls| && t.files == w.files
    && t.calls[|t.calls| - 1].0 == c && t.answers[|t.calls| - 1] == ok
    && (if c.Staple? && WorksOn(w, c.item)
        then WorksOn(t, c.item) && t.work.value.origin == w.work.value.origin && (ok ==> Stapled(t))
        else t.work == w.work && t.staples == w.staples && t.inputs[|t.calls| - 1] == Given(w, c))
  }

  lemma CallSaw(w: World, c: Call, n: nat, leaves: Digest, ok: bool)
    requires |w.calls| == |w.inputs| == |w.answers|
    ensures Saw(w, Called(w, c, n, leaves, ok), c, ok)
  {
    if w.work.Some? {
      var image := w.work.value.(bytes := leaves);
      assert (w.staples + [image])[|w.staples|] == image;
    }
  }

  lemma AttemptSaw(w: World, c: Call, r: Receipt, env: Env, n: nat)
    requires |w.calls| == |w.inputs| == |w.answers|
    ensures var a := AttemptOf(r, c, env, n);
      Saw(w, ApplyAll(w, a.effects), c, a.ok)
  {
    var m := w.(receipt := Log(r, Started(c, n)));
    var a := AttemptOf(r, c, env, n);
    AttemptLeaves(w, c, r, env, n);
    CallSaw(m, c, n, env.leaves(n), a.ok);
    SawIgnoresReceipts(m, Called(m, c, n, env.leaves(n), a.ok), c, a.ok, w.receipt, ApplyAll(w, a.effects).receipt);
  }

  lemma SawIgnoresReceipts(w: World, t: World, c: Call, ok: bool, r: Receipt, s: Receipt)
    requires Saw(w, t, c, ok)
    ensures Saw(w.(receipt := r), t.(receipt := s), c, ok)
  {
  }

  /** The bytes after an attempt are those after its call; only receipts are saved around it. */
  lemma AttemptLeaves(w: World, c: Call, r: Receipt, env: Env, n: nat)
    ensures var a := AttemptOf(r, c, env, n);
      var t := ApplyAll(w, a.effects);
      t == Called(w.(receipt := Log(r, Started(c, n))), c, n, env.leaves(n), a.ok).(receipt := t.receipt)
  {
    var a := AttemptOf(r, c, env, n);
    var m := w.(receipt := Log(r, Started(c, n)));
    var run := Run(c, n, env.leaves(n), a.ok);
    HeadLeaves(w, m.receipt, run);
    LastLeaves(w, [Save(m.receipt), run], a.receipt);
    assert a.effects == [Save(m.receipt), run] || a.effects == [Save(m.receipt), run] + [Save(a.receipt)];
  }

  lemma HeadLeaves(w: World, r: Receipt, run: Effect)
    ensures ApplyAll(w, [Save(r), run]) == Apply(w.(receipt := r), run)
  {
    One(w, Save(r));
    One(w.(receipt := r), run);
    Appended(w, [Save(r)], [run]);
    assert [Save(r)] + [run] == [Save(r), run];
  }

  lemma LastLeaves(w: World, head: seq<Effect>, r: Receipt)
    ensures ApplyAll(w, head + [Save(r)]) == ApplyAll(w, head).(receipt := r)
  {
    One(ApplyAll(w, head), Save(r));
    Appended(w, head, [Save(r)]);
  }

  lemma SawMore(w: World, m: World, t: World, c: Call, failed: bool, ok: bool)
    requires Saw(w, m, c, failed) && Saw(m, t, c, ok)
    ensures Saw(w, t, c, ok)
  {
  }

  lemma {:induction false} RemoteSaw(w: World, r: Receipt, c: Call, env: Env, n: nat)
    requires |w.calls| == |w.inputs| == |w.answers| && n <= MaxAttempts(c)
    ensures var x := Remote(r, c, env, n);
      Saw(w, ApplyAll(w, x.effects), c, x.ok)
    decreases MaxAttempts(c) - n
  {
    var a, x := AttemptOf(r, c, env, n), Remote(r, c, env, n);
    AttemptSaw(w, c, r, env, n);
    if GivesUp(c, env, n) {
      assert x == a;
    } else {
      var rest := Remote(a.receipt, c, env, n + 1);
      assert x.effects == a.effects + rest.effects && x.ok == rest.ok;
      RemoteSaw(ApplyAll(w, a.effects), a.receipt, c, env, n + 1);
      SawThen(w, a, rest, x, c);
    }
  }

  lemma SawThen(w: World, a: Exec, rest: Exec, x: Exec, c: Call)
    requires Saw(w, ApplyAll(w, a.effects), c, a.ok)
    requires Saw(ApplyAll(w, a.effects), ApplyAll(ApplyAll(w, a.effects), rest.effects), c, rest.ok)
    requires x.effects == a.effects + rest.effects && x.ok == rest.ok
    ensures Saw(w, ApplyAll(w, x.effects), c, x.ok)
  {
    Appended(w, a.effects, rest.effects);
    SawMore(w, ApplyAll(w, a.effects), ApplyAll(w, x.effects), c, a.ok, x.ok);
  }

  function WithAccepted(r: Receipt, k: Kind): Receipt
    requires k in r.submissions
  {
    r.(submissions := r.submissions[k := r.submissions[k].(accepted := true)], phase := AcceptedPhase(k))
  }

  lemma AcceptedOk(r: Receipt, k: Kind)
    requires ReceiptOk(r) && k in r.submissions && Succeeded(r.events, Wait(k))
    ensures ReceiptOk(WithAccepted(r, k)) && Extends(r, WithAccepted(r, k))
  {
    var s := WithAccepted(r, k);
  }

  lemma AcceptanceIsSound(m: World, k: Kind)
    requires Inv(m) && k in m.receipt.submissions && Succeeded(m.receipt.events, Wait(k))
    ensures var r := WithAccepted(m.receipt, k);
      Sound(m, Exec([Save(r)], r, true)) && Extends(m.receipt, r)
  {
    AcceptedOk(m.receipt, k);
    SaveIsSound(m, WithAccepted(m.receipt, k));
  }

  lemma WaitIsSound(w: World, r: Receipt, k: Kind, env: Env)
    requires Inv(w) && w.receipt == r
    ensures var x := WaitAccepted(r, k, env);
      && Sound(w, x)
      && (x.ok ==> k in x.receipt.submissions && x.receipt.submissions[k].accepted
                   && Extends(r, x.receipt) && x.receipt.packaged == r.packaged)
  {
    if k in r.submissions && FileOf(k) in r.payloads && r.submissions[k].digest == r.payloads[FileOf(k)] && !r.submissions[k].accepted {
      var x := Remote(r, Wait(k), env, 1);
      RemoteIsSound(w, r, Wait(k), env, 1);
      RemoteReceipt(r, Wait(k), env, 1);
      if x.ok && env.accepted(k) {
        WaitEndsSound(w, x, k);
      }
    }
  }

  lemma WaitEndsSound(w: World, x: Exec, k: Kind)
    requires Inv(w) && Sound(w, x) && x.ok && k in x.receipt.submissions && Succeeded(x.receipt.events, Wait(k))
    ensures var r := WithAccepted(x.receipt, k);
      Sound(w, Exec(x.effects + [Save(r)], r, true)) && Extends(w.receipt, r)
  {
    var r := WithAccepted(x.receipt, k);
    AllAllowedKeepsInv(w, x.effects);
    AcceptanceIsSound(ApplyAll(w, x.effects), k);
    SoundThen(w, x, Exec([Save(r)], r, true));
    ExtendsIsTransitive(w.receipt, x.receipt, r);
  }

  lemma ExtendsIsTransitive(r: Receipt, s: Receipt, t: Receipt)
    requires Extends(r, s) && Extends(s, t)
    ensures Extends(r, t)
  {
  }

  /** The gatekeeper calls change only the log, and when they go through it holds a success of each. */
  lemma GatekeeperReceipt(r: Receipt, item: Kind, env: Env)
    ensures var x := GatekeeperCalls(r, item, env);
      x.ok ==> x.receipt == r.(events := x.receipt.events) && r.events <= x.receipt.events && Assessed(x.receipt.events, item)
  {
    var a := Remote(r, Staple(item), env, 1);
    RemoteReceipt(r, Staple(item), env, 1);
    var b := Remote(a.receipt, Validate(item), env, 1);
    RemoteReceipt(a.receipt, Validate(item), env, 1);
    var g := Remote(b.receipt, Gatekeeper(item), env, 1);
    RemoteReceipt(b.receipt, Gatekeeper(item), env, 1);
    if a.ok && b.ok && g.ok {
      StaysSucceeded(a.receipt.events, g.receipt.events, Staple(item));
      StaysSucceeded(b.receipt.events, g.receipt.events, Validate(item));
    }
  }

  lemma GatekeeperIsSound(w: World, r: Receipt, item: Kind, env: Env)
    requires Inv(w) && w.receipt == r
    ensures Sound(w, GatekeeperCalls(r, item, env))
  {
    var a := Remote(r, Staple(item), env, 1);
    RemoteIsSound(w, r, Staple(item), env, 1);
    if a.ok {
      AllAllowedKeepsInv(w, a.effects);
      AssessIsSound(ApplyAll(w, a.effects), a.receipt, item, env);
    }
    SoundThen(w, a, Assess(a.receipt, item, env));
  }

  lemma AssessIsSound(w: World, r: Receipt, item: Kind, env: Env)
    requires Inv(w) && w.receipt == r
    ensures Sound(w, Assess(r, item, env))
  {
    var b := Remote(r, Validate(item), env, 1);
    RemoteIsSound(w, r, Validate(item), env, 1);
    if b.ok {
      AllAllowedKeepsInv(w, b.effects);
      RemoteIsSound(ApplyAll(w, b.effects), b.receipt, Gatekeeper(item), env, 1);
    }
    SoundThen(w, b, Remote(b.receipt, Gatekeeper(item), env, 1));
  }

  /** The gatekeeper calls on a working copy, when they go through, staple it, and validate and assess
      what the staple left. */
  lemma GatekeeperVouches(w: World, r: Receipt, item: Kind, env: Env)
    requires |w.calls| == |w.inputs| == |w.answers| && WorksOn(w, item) && GatekeeperCalls(r, item, env).ok
    ensures var t := ApplyAll(w, GatekeeperCalls(r, item, env).effects);
      WorksOn(t, item) && t.work.value.origin == w.work.value.origin && Vouched(t, item, t.work.value.origin, t.work.value.bytes)
  {
    var a := Remote(r, Staple(item), env, 1);
    var wa := ApplyAll(w, a.effects);
    RemoteSaw(w, r, Staple(item), env, 1);
    var b := Remote(a.receipt, Validate(item), env, 1);
    var wb := ApplyAll(wa, b.effects);
    RemoteSaw(wa, a.receipt, Validate(item), env, 1);
    var g := Remote(b.receipt, Gatekeeper(item), env, 1);
    RemoteSaw(wb, b.receipt, Gatekeeper(item), env, 1);
    Appended(wa, b.effects, g.effects);
    Appended(w, a.effects, b.effects + g.effects);
    SawVouches(wa, wb, ApplyAll(wb, g.effects), item);
  }

  /** A stapled copy that validation and the gatekeeper then pass is vouched for. */
  lemma SawVouches(a: World, b: World, t: World, item: Kind)
    requires Stapled(a) && WorksOn(a, item) && Saw(a, b, Validate(item), true) && Saw(b, t, Gatekeeper(item), true)
    ensures t.work == a.work && Vouched(t, item, t.work.value.origin, t.work.value.bytes)
  {
    var bytes := a.work.value.bytes;
    assert Passed(b, Validate(item), bytes);
    StaysPassed(b, t, Validate(item), bytes);
    assert Passed(t, Gatekeeper(item), bytes);
  }

  // --------------------------------------------------- operations are allowed

  lemma {:induction false} NotStartedMeansNone(es: seq<Event>, c: Call)
    requires forall i :: 0 <= i < |es| ==> !(es[i].Started? && es[i].call == c)
    ensures Starts(es)[(c, 1)] == 0
  {
    if es != [] {
      NotStartedMeansNone(es[..|es| - 1], c);
    }
  }

  function WithSubmission(r: Receipt, k: Kind, id: string): Receipt
    requires FileOf(k) in r.payloads
  {
    r.(submissions := r.submissions[k := Submission(id, r.payloads[FileOf(k)], false)], phase := Submitted(k))
  }

  lemma SubmittedOk(r: Receipt, k: Kind, id: string)
    requires ReceiptOk(r) && FileOf(k) in r.payloads && k !in r.submissions && SubmitStarted(r.events, k)
    ensures ReceiptOk(WithSubmission(r, k, id)) && Extends(r, WithSubmission(r, k, id))
  {
  }

  /** The failure of the submission may be saved. */
  lemma FailureAllowed(w: World, m: World, k: Kind, head: seq<Effect>)
    requires Inv(m) && AllAllowed(w, head) && m == ApplyAll(w, head)
    ensures AllAllowed(w, head + [Save(Log(m.receipt, Finished(Submit(k), 1, false)))])
  {
    var failed := Log(m.receipt, Finished(Submit(k), 1, false));
    LogMaySave(m, Finished(Submit(k), 1, false));
    SaveIsSound(m, failed);
    Appended(w, head, [Save(failed)]);
  }

  /** Its success may be saved, together with its id. */
  lemma SuccessAllowed(w: World, m: World, k: Kind, id: string, head: seq<Effect>)
    requires Inv(m) && AllAllowed(w, head) && m == ApplyAll(w, head)
    requires k !in m.receipt.submissions && FileOf(k) in m.receipt.payloads && SubmitStarted(m.receipt.events, k)
    ensures AllAllowed(w, head + [Save(WithSubmission(Log(m.receipt, Finished(Submit(k), 1, true)), k, id))])
  {
    var finished := Log(m.receipt, Finished(Submit(k), 1, true));
    LoggedOk(m.receipt, Finished(Submit(k), 1, true));
    var i :| 0 <= i < |m.receipt.events| && m.receipt.events[i].Started? && m.receipt.events[i].call == Submit(k);
    assert finished.events[i] == m.receipt.events[i];
    SubmittedOk(finished, k, id);
    var done := WithSubmission(finished, k, id);
    SaveIsSound(m, done);
    Appended(w, head, [Save(done)]);
  }

  /** A submission is refused without effect, or it is logged and run once, and then its failure,
      its id, or nothing is saved. */
  lemma SubmitShape(w: World, k: Kind, env: Env)
    ensures var r, es := w.receipt, SubmitOp(w, k, env).effects;
      var started := Log(r, Started(Submit(k), 1));
      var head := [Save(started), Run(Submit(k), 1, env.leaves(1), env.outcome(Submit(k), 1).Succeeds?)];
      || es == []
      || (Loads(w, env) && k !in r.submissions && !SubmitStarted(r.events, k) && FileOf(k) in r.payloads
          && (es == head || es == head + [Save(Log(started, Finished(Submit(k), 1, false)))]
              || es == head + [Save(WithSubmission(Log(started, Finished(Submit(k), 1, true)), k, env.id))]))
  {
  }

  lemma SubmitAllowed(w: World, k: Kind, env: Env)
    requires Inv(w)
    ensures AllAllowed(w, SubmitOp(w, k, env).effects)
  {
    SubmitShape(w, k, env);
    var es := SubmitOp(w, k, env).effects;
    if es != [] {
      NotStartedMeansNone(w.receipt.events, Submit(k));
      OneSubmitAllowed(w, k, env.id, env.leaves(1), env.outcome(Submit(k), 1).Succeeds?);
    }
  }

  lemma OneSubmitAllowed(w: World, k: Kind, id: string, leaves: Digest, ok: bool)
    requires Inv(w) && Starts(w.receipt.events)[(Submit(k), 1)] == 0 && k !in w.receipt.submissions
    requires FileOf(k) in w.receipt.payloads && Given(w, Submit(k)) == Some(w.receipt.payloads[FileOf(k)])
    ensures var started := Log(w.receipt, Started(Submit(k), 1));
      var head := [Save(started), Run(Submit(k), 1, leaves, ok)];
      && AllAllowed(w, head)
      && AllAllowed(w, head + [Save(Log(started, Finished(Submit(k), 1, false)))])
      && AllAllowed(w, head + [Save(WithSubmission(Log(started, Finished(Submit(k), 1, true)), k, id))])
  {
    StartThenRun(w, Submit(k), 1, leaves, ok);
    var started := Log(w.receipt, Started(Submit(k), 1));
    var head := [Save(started), Run(Submit(k), 1, leaves, ok)];
    StartIsLogged(w.receipt, k);
    FailureAllowed(w, ApplyAll(w, head), k, head);
    SuccessAllowed(w, ApplyAll(w, head), k, id, head);
  }

  lemma StartIsLogged(r: Receipt, k: Kind)
    ensures SubmitStarted(Log(r, Started(Submit(k), 1)).events, k)
  {
    var started := Log(r, Started(Submit(k), 1));
    assert started.events[|r.events|] == Started(Submit(k), 1);
  }

  lemma PackagedOk(r: Receipt, env: Env)
    requires ReceiptOk(r) && !r.packaged
    ensures ReceiptOk(WithDmg(r, env)) && Extends(r, WithDmg(r, env))
  {
  }

  function PackedEffects(env: Env): seq<Effect> {
    [WriteUpdater(env.updater), CreateDmg(env.created), SignDmg(env.signed)]
  }

  /** The tools run in order up to the first that fails, and then the image is recorded. */
  lemma PackageBytesShape(r: Receipt, env: Env)
    ensures var es, bytes := PackageBytes(r, env).effects, PackedEffects(env);
      es == [] || es == bytes[..1] || es == bytes[..2] || es == bytes[..3] || es == bytes + [Save(WithDmg(r, env))]
  {
  }

  lemma PackageBytesAllowed(w: World, r: Receipt, env: Env)
    requires Inv(w) && w.receipt == r && !r.packaged && SignedDmg !in w.files && IsClearedApp(w, w.work)
    ensures AllAllowed(w, PackageBytes(r, env).effects)
  {
    var bytes := PackedEffects(env);
    ThreeAllowed(w, WriteUpdater(env.updater), CreateDmg(env.created), SignDmg(env.signed));
    RecordAllowed(w, r, bytes, env);
    PrefixAllowed(w, bytes, 1);
    PrefixAllowed(w, bytes, 2);
    PrefixAllowed(w, bytes, 3);
    PackageBytesShape(r, env);
  }

  lemma RecordAllowed(w: World, r: Receipt, bytes: seq<Effect>, env: Env)
    requires ReceiptOk(r) && !r.packaged && AllAllowed(w, bytes)
    requires var t := ApplyAll(w, bytes); t.receipt == r && SignedDmg in t.files && t.inUpdater.Some?
    ensures AllAllowed(w, bytes + [Save(WithDmg(r, env))])
  {
    PackagedOk(r, env);
    One(ApplyAll(w, bytes), Save(WithDmg(r, env)));
    Appended(w, bytes, [Save(WithDmg(r, env))]);
  }

  lemma ThreeAllowed(w: World, u: Effect, c: Effect, g: Effect)
    requires u.WriteUpdater? && c.CreateDmg? && g.SignDmg? && SignedDmg !in w.files && IsClearedApp(w, w.work)
    ensures var t := ApplyAll(w, [u, c, g]);
      AllAllowed(w, [u, c, g]) && t.receipt == w.receipt && SignedDmg in t.files && t.inUpdater.Some?
  {
    var w1 := Apply(w, u);
    UpdaterKeepsClearance(w, u);
    One(w, u);
    One(w1, c);
    One(Apply(w1, c), g);
    ThreeInOrder(w, u, c, g);
  }

  lemma UpdaterKeepsClearance(w: World, u: Effect)
    requires u.WriteUpdater? && SignedDmg !in w.files && IsClearedApp(w, w.work)
    ensures Allowed(w, u)
    ensures var w1 := Apply(w, u);
      w1.receipt == w.receipt && w1.inUpdater.Some? && w1.work == w.work && SignedDmg !in w1.files && IsClearedApp(w1, w1.work)
  {
    assert Vouched(Apply(w, u), App, w.work.value.origin, w.work.value.bytes);
  }

  lemma ThreeInOrder(w: World, a: Effect, b: Effect, c: Effect)
    ensures ApplyAll(w, [a, b, c]) == Apply(Apply(Apply(w, a), b), c)
    ensures AllAllowed(w, [a, b, c]) <==> Allowed(w, a) && Allowed(Apply(w, a), b) && Allowed(Apply(Apply(w, a), b), c)
  {
    One(w, a);
    One(Apply(w, a), b);
    One(Apply(Apply(w, a), b), c);
    Appended(w, [a], [b]);
    assert [a] + [b] == [a, b];
    Appended(w, [a, b], [c]);
    assert [a, b] + [c] == [a, b, c];
  }

  lemma PackageAllowed(w: World, env: Env)
    requires Inv(w)
    ensures AllAllowed(w, PackageOp(w, env).effects)
  {
    var r := w.receipt;
    if Loads(w, env) && !r.packaged && SignedDmg !in w.files {
      var a := WaitAccepted(r, Server, env);
      WaitIsSound(w, r, Server, env);
      if a.ok {
        var wa := ApplyAll(w, a.effects);
        AllAllowedKeepsInv(w, a.effects);
        var b := WaitAccepted(a.receipt, App, env);
        WaitIsSound(wa, a.receipt, App, env);
        SoundThen(w, a, b);
        if b.ok && env.tool(0) {
          BothAccepted(w, a, b);
          PackageTail(w, Then(a, b), env);
        }
      }
    }
  }

  /** After both waits the server and the application are accepted. */
  lemma BothAccepted(w: World, a: Exec, b: Exec)
    requires Inv(w) && Sound(w, Then(a, b)) && a.ok && b.ok && Extends(a.receipt, b.receipt)
    requires Server in a.receipt.submissions && a.receipt.submissions[Server].accepted
    requires App in b.receipt.submissions && b.receipt.submissions[App].accepted
    ensures AcceptedIn(b.receipt, App) && AcceptedIn(b.receipt, Server)
  {
    AllAllowedKeepsInv(w, Then(a, b).effects);
    AcceptedHere(b.receipt, App);
    StaysAccepted(a.receipt, b.receipt, Server);
  }

  lemma PackageTail(w: World, b: Exec, env: Env)
    requires Inv(w) && Sound(w, b) && b.ok && !b.receipt.packaged && SignedDmg !in w.files && Retains(w)
    requires AcceptedIn(b.receipt, App) && AcceptedIn(b.receipt, Server)
    ensures var c := Then(b, AppCalls(b.receipt, env));
            AllAllowed(w, Then(c, PackageBytes(c.receipt, env)).effects)
  {
    var wb := ApplyAll(w, b.effects);
    AllAllowedKeepsInv(w, b.effects);
    var g := AppCalls(b.receipt, env);
    assert AppZip in w.receipt.payloads && FileOf(App) == AppZip;
    AppCallsAreSound(wb, b.receipt, env);
    Appended(w, b.effects, g.effects);
    var c := Then(b, g);
    if c.ok {
      PackageBytesAllowed(ApplyAll(w, c.effects), c.receipt, env);
      Appended(w, c.effects, PackageBytes(c.receipt, env).effects);
    }
  }

  /** The gatekeeper calls on a copy of the retained application are allowed, and when they go through
      the copy is cleared. */
  lemma AppCallsAreSound(w: World, r: Receipt, env: Env)
    requires Inv(w) && w.receipt == r && AcceptedIn(r, App) && AcceptedIn(r, Server)
    requires AppZip in w.files && AppZip in r.payloads && w.files[AppZip] == r.payloads[AppZip]
    ensures var x := AppCalls(r, env);
      var t := ApplyAll(w, x.effects);
      && AllAllowed(w, x.effects)
      && (x.ok ==> Inv(t) && t.receipt == x.receipt && t.files == w.files && x.receipt.packaged == r.packaged && IsClearedApp(t, t.work))
  {
    var m := Apply(w, UnzipApp);
    UnzipIsSound(w);
    var calls := GatekeeperCalls(r, App, env);
    GatekeeperIsSound(m, r, App, env);
    Appended(w, [UnzipApp], calls.effects);
    AllAllowedKeepsInv(m, calls.effects);
    if calls.ok {
      ClearedAfterCalls(m, r, env);
    }
  }

  lemma UnzipIsSound(w: World)
    requires Inv(w)
    ensures var m := Apply(w, UnzipApp);
      AllAllowed(w, [UnzipApp]) && ApplyAll(w, [UnzipApp]) == m && Inv(m) && m == w.(work := CopyOf(w, App))
  {
    One(w, UnzipApp);
    AllAllowedKeepsInv(w, [UnzipApp]);
  }

  lemma ClearedAfterCalls(m: World, r: Receipt, env: Env)
    requires Inv(m) && m.receipt == r && AcceptedIn(r, App) && AcceptedIn(r, Server)
    requires AppZip in r.payloads && m.work == Some(Image(App, r.payloads[AppZip], r.payloads[AppZip]))
    requires GatekeeperCalls(r, App, env).ok && Sound(m, GatekeeperCalls(r, App, env))
    ensures var x := GatekeeperCalls(r, App, env);
      x.receipt.packaged == r.packaged && IsClearedApp(ApplyAll(m, x.effects), ApplyAll(m, x.effects).work)
  {
    GatekeeperReceipt(r, App, env);
    GatekeeperVouches(m, r, App, env);
  }

  lemma PhaseOk(r: Receipt, phase: Phase, outputs: map<Name, Digest>)
    requires ReceiptOk(r) && (phase == Complete ==> r.packaged && Cleared(r))
    ensures ReceiptOk(r.(phase := phase, outputs := outputs)) && Extends(r, r.(phase := phase, outputs := outputs))
  {
  }

  /** The retained bytes the receipt names. */
  predicate Retains(w: World) {
    forall n :: n in w.receipt.payloads ==> n in w.files && w.files[n] == w.receipt.payloads[n]
  }

  /** Copied outputs are the retained bytes, with the assessed image in place of the one it was copied from. */
  lemma OutputsAreProduced(w: World, t: World, r: Receipt)
    requires Retains(w) && ServerZip in w.receipt.payloads && SignedDmg in w.receipt.payloads
    requires WorksOn(w, Dmg) && w.work.value.origin == w.files[SignedDmg]
    requires Vouched(w, Dmg, w.work.value.origin, w.work.value.bytes)
    requires t == w.(outputs := t.outputs) && r.outputs == Outputs(w) && r.payloads == w.receipt.payloads
    ensures Produced(t, r)
  {
    assert Vouched(t, Dmg, w.work.value.origin, w.work.value.bytes);
  }

  lemma FinishIsAllowed(m: World)
    requires ReceiptOk(m.receipt) && m.receipt.packaged && Cleared(m.receipt) && Retains(m) && m.inUpdater.Some?
    requires WorksOn(m, Dmg) && SignedDmg in m.files && m.work.value.origin == m.files[SignedDmg]
    requires Vouched(m, Dmg, m.work.value.origin, m.work.value.bytes)
    ensures AllAllowed(m, [WriteOutputs, Save(WithOutputs(m.receipt, Outputs(m)))])
  {
    var outputs := Outputs(m);
    ProducedAtEnd(m, outputs);
    MaySaveComplete(m.(outputs := outputs), m.receipt, outputs);
    TwoAllowed(m, WriteOutputs, Save(WithOutputs(m.receipt, outputs)));
  }

  lemma ProducedAtEnd(m: World, outputs: map<Name, Digest>)
    requires ReceiptOk(m.receipt) && m.receipt.packaged && Retains(m) && outputs == Outputs(m)
    requires WorksOn(m, Dmg) && SignedDmg in m.files && m.work.value.origin == m.files[SignedDmg]
    requires Vouched(m, Dmg, m.work.value.origin, m.work.value.bytes)
    ensures Produced(m.(outputs := outputs), WithOutputs(m.receipt, outputs))
  {
    OutputsAreProduced(m, m.(outputs := outputs), WithOutputs(m.receipt, outputs));
  }

  lemma CompletedOk(r: Receipt, outputs: map<Name, Digest>)
    requires ReceiptOk(r) && r.packaged && Cleared(r)
    ensures ReceiptOk(WithOutputs(r, outputs)) && Extends(r, WithOutputs(r, outputs))
  {
    PhaseOk(r, Complete, outputs);
  }

  lemma MaySaveComplete(t: World, r: Receipt, outputs: map<Name, Digest>)
    requires ReceiptOk(r) && r.packaged && Cleared(r) && t.receipt == r && SignedDmg in t.files && t.inUpdater.Some?
    requires Produced(t, WithOutputs(r, outputs))
    ensures MaySave(t, WithOutputs(r, outputs))
  {
    CompletedOk(r, outputs);
  }

  lemma TwoAllowed(w: World, a: Effect, b: Effect)
    requires Allowed(w, a) && Allowed(Apply(w, a), b)
    ensures AllAllowed(w, [a, b]) && ApplyAll(w, [a, b]) == Apply(Apply(w, a), b)
  {
    One(w, a);
    One(Apply(w, a), b);
    Appended(w, [a], [b]);
    assert [a] + [b] == [a, b];
  }

  /** The image that is complete but for the outputs: everything is cleared, and the working copy of the
      retained image is vouched for. */
  predicate ImageIsReady(t: World) {
    && t.receipt.packaged && Cleared(t.receipt) && Retains(t) && t.inUpdater.Some?
    && WorksOn(t, Dmg) && SignedDmg in t.files && t.work.value.origin == t.files[SignedDmg]
    && Vouched(t, Dmg, t.work.value.origin, t.work.value.bytes)
  }

  lemma MayStart(w: World, r: Receipt)
    requires Inv(w) && w.receipt == r && r.packaged && AllAccepted(r)
    ensures MaySave(w, r.(phase := CompletingDmg)) && SignedDmg in w.files && w.inUpdater.Some?
  {
    PhaseOk(r, CompletingDmg, r.outputs);
    assert r.(phase := CompletingDmg) == r.(phase := CompletingDmg, outputs := r.outputs);
  }

  lemma StartingIsSound(w: World, r: Receipt)
    requires Inv(w) && w.receipt == r && r.packaged && AllAccepted(r) && Retains(w)
    ensures var starting := r.(phase := CompletingDmg);
      var c := ApplyAll(w, [Save(starting), CopyDmg]);
      && AllAllowed(w, [Save(starting), CopyDmg]) && Inv(c)
      && c == w.(receipt := starting, work := CopyOf(w, Dmg)) && WorksOn(c, Dmg) && c.inUpdater.Some?
  {
    var starting := r.(phase := CompletingDmg);
    MayStart(w, r);
    TwoAllowed(w, Save(starting), CopyDmg);
    AllAllowedKeepsInv(w, [Save(starting), CopyDmg]);
  }

  lemma CompletingIsSound(w: World, r: Receipt, env: Env)
    requires Inv(w) && w.receipt == r && r.packaged && AllAccepted(r) && Retains(w)
    ensures var g := Completing(r, env);
      var t := ApplyAll(w, g.effects);
      && AllAllowed(w, g.effects) && Inv(t)
      && (g.ok ==> t.receipt == g.receipt && ImageIsReady(t))
  {
    var starting := r.(phase := CompletingDmg);
    var head := [Save(starting), CopyDmg];
    StartingIsSound(w, r);
    var c := ApplyAll(w, head);
    var calls := GatekeeperCalls(starting, Dmg, env);
    GatekeeperIsSound(c, starting, Dmg, env);
    Appended(w, head, calls.effects);
    AllAllowedKeepsInv(c, calls.effects);
    if calls.ok {
      ReadyAfterCalls(c, starting, env);
    }
  }

  lemma ReadyAfterCalls(c: World, r: Receipt, env: Env)
    requires Inv(c) && c.receipt == r && r.packaged && AllAccepted(r) && Retains(c)
    requires SignedDmg in c.files && c.work == CopyOf(c, Dmg)
    requires var calls := GatekeeperCalls(r, Dmg, env);
      calls.ok && Sound(c, calls) && Inv(ApplyAll(c, calls.effects))
    ensures ImageIsReady(ApplyAll(c, GatekeeperCalls(r, Dmg, env).effects))
  {
    GatekeeperReceipt(r, Dmg, env);
    GatekeeperVouches(c, r, Dmg, env);
    StillReady(c, r, ApplyAll(c, GatekeeperCalls(r, Dmg, env).effects));
  }

  lemma StillReady(c: World, r: Receipt, t: World)
    requires c.receipt == r && r.packaged && AllAccepted(r) && Retains(c) && SignedDmg in c.files && c.work == CopyOf(c, Dmg)
    requires Inv(t) && t.files == c.files && t.receipt == r.(events := t.receipt.events) && Assessed(t.receipt.events, Dmg)
    requires WorksOn(t, Dmg) && t.work.value.origin == c.work.value.origin
    requires Vouched(t, Dmg, t.work.value.origin, t.work.value.bytes)
    ensures ImageIsReady(t)
  {
    assert AllAccepted(t.receipt) && Retains(t);
  }

  lemma CompleteBytesAllowed(w: World, r: Receipt, env: Env)
    requires Inv(w) && w.receipt == r && r.packaged && AllAccepted(r) && Retains(w)
    ensures AllAllowed(w, CompleteBytes(w, r, env).effects)
  {
    var g := Completing(r, env);
    CompletingIsSound(w, r, env);
    if g.ok && env.tool(0) {
      var t := ApplyAll(w, g.effects);
      FinishIsAllowed(t);
      Appended(w, g.effects, [WriteOutputs, Save(WithOutputs(g.receipt, Outputs(t)))]);
    }
  }

  lemma CompleteAllowed(w: World, env: Env)
    requires Inv(w)
    ensures AllAllowed(w, CompleteOp(w, env).effects)
  {
    var r := w.receipt;
    if Loads(w, env) && r.packaged {
      var a := WaitAccepted(r, App, env);
      WaitIsSound(w, r, App, env);
      if a.ok {
        var wa := ApplyAll(w, a.effects);
        AllAllowedKeepsInv(w, a.effects);
        var b := WaitAccepted(a.receipt, Server, env);
        WaitIsSound(wa, a.receipt, Server, env);
        SoundThen(w, a, b);
        if b.ok {
          CompleteTail(w, Then(a, b), env);
        }
      }
    }
  }

  lemma CompleteTail(w: World, b: Exec, env: Env)
    requires Inv(w) && Sound(w, b) && b.ok && w.receipt.packaged && Retains(w)
    requires App in b.receipt.submissions && b.receipt.submissions[App].accepted
    requires Server in b.receipt.submissions && b.receipt.submissions[Server].accepted
    ensures var c := Then(b, WaitAccepted(b.receipt, Dmg, env));
            AllAllowed(w, Then(c, CompleteBytes(ApplyAll(w, c.effects), c.receipt, env)).effects)
  {
    var wb := ApplyAll(w, b.effects);
    AllAllowedKeepsInv(w, b.effects);
    var d := WaitAccepted(b.receipt, Dmg, env);
    WaitIsSound(wb, b.receipt, Dmg, env);
    SoundThen(w, b, d);
    var c := Then(b, d);
    if c.ok {
      AllAllowedKeepsInv(w, c.effects);
      AllThreeAccepted(b.receipt, c.receipt);
      var wc := ApplyAll(w, c.effects);
      CompleteBytesAllowed(wc, c.receipt, env);
      Appended(w, c.effects, CompleteBytes(wc, c.receipt, env).effects);
    }
  }

  lemma StaysAccepted(r: Receipt, s: Receipt, k: Kind)
    requires Extends(r, s) && ReceiptOk(s) && k in r.submissions && r.submissions[k].accepted
    ensures AcceptedIn(s, k)
  {
  }

  lemma ExtendsItself(r: Receipt)
    ensures Extends(r, r)
  {
  }

  lemma AllThreeAccepted(r: Receipt, s: Receipt)
    requires Extends(r, s) && ReceiptOk(s) && Dmg in s.submissions && s.submissions[Dmg].accepted
    requires App in r.submissions && r.submissions[App].accepted && Server in r.submissions && r.submissions[Server].accepted
    ensures AllAccepted(s)
  {
    forall k: Kind ensures k in s.submissions && s.submissions[k].accepted
      && FileOf(k) in s.payloads && s.submissions[k].digest == s.payloads[FileOf(k)]
    {
      match k
      case App => StaysAccepted(r, s, App);
      case Server => StaysAccepted(r, s, Server);
      case Dmg => AcceptedHere(s, Dmg);
    }
  }

  lemma AcceptedHere(r: Receipt, k: Kind)
    requires ReceiptOk(r) && k in r.submissions && r.submissions[k].accepted
    ensures AcceptedIn(r, k)
  {
  }

  ghost predicate ReadyToUpload(w: World) {
    w.receipt.phase == Complete
    && (forall i :: 0 <= i < |ASSETS| ==> MayUpload(w, ASSETS[i]))
  }

  lemma UploadIsAllowed(w: World, t: World, i: nat)
    requires ReadyToUpload(w) && i < |ASSETS| && t == w.(uploads := t.uploads)
    ensures var es := [Upload(ASSETS[i])];
      AllAllowed(t, es) && ApplyAll(t, es) == w.(uploads := ApplyAll(t, es).uploads)
  {
    assert MayUpload(w, ASSETS[i]);
    assert MayUpload(t, ASSETS[i]);
    One(t, Upload(ASSETS[i]));
  }

  /** Allowed, and changing nothing but what was uploaded. */
  ghost predicate OnlyUploads(w: World, es: seq<Effect>) {
    AllAllowed(w, es) && ApplyAll(w, es) == w.(uploads := ApplyAll(w, es).uploads)
  }

  lemma {:induction false} UploadsAllowed(w: World, n: nat, env: Env)
    requires ReadyToUpload(w) && n <= |ASSETS|
    ensures OnlyUploads(w, Uploads(n, env))
  {
    if n > 0 {
      UploadsAllowed(w, n - 1, env);
      if Uploads(n, env) != Uploads(n - 1, env) {
        OneMoreUpload(w, Uploads(n - 1, env), n - 1);
      }
    }
  }

  lemma OneMoreUpload(w: World, before: seq<Effect>, i: nat)
    requires ReadyToUpload(w) && i < |ASSETS| && OnlyUploads(w, before)
    ensures OnlyUploads(w, before + [Upload(ASSETS[i])])
  {
    UploadIsAllowed(w, ApplyAll(w, before), i);
    Appended(w, before, [Upload(ASSETS[i])]);
  }

  lemma CheckpointAllowed(w: World, env: Env)
    requires Inv(w)
    ensures AllAllowed(w, CheckpointOp(w, env).effects)
  {
    CheckpointOk(w.receipt, env.checkpoint);
    SaveIsSound(w, w.receipt.(checkpoint := env.checkpoint));
  }

  lemma CheckpointOk(r: Receipt, checkpoint: string)
    requires ReceiptOk(r)
    ensures ReceiptOk(r.(checkpoint := checkpoint)) && Extends(r, r.(checkpoint := checkpoint))
  {
  }

  lemma UploadAllowed(w: World, env: Env)
    requires Inv(w)
    ensures AllAllowed(w, UploadOp(w, env).effects)
  {
    if UploadOp(w, env).effects != [] {
      assert w.receipt.packaged && w.receipt.payloads.Keys == PACKAGED;
      assert forall i :: 0 <= i < |ASSETS| ==> ASSETS[i] in w.receipt.outputs.Keys && ASSETS[i] in w.receipt.payloads.Keys;
      UploadsAllowed(w, |ASSETS|, env);
    }
  }

  lemma ExecuteAllowed(w: World, op: Op, env: Env)
    requires Inv(w)
    ensures AllAllowed(w, Execute(w, op, env).effects)
  {
    match op
    case OpSubmit(k) => SubmitAllowed(w, k, env);
    case OpPackage => PackageAllowed(w, env);
    case OpComplete => CompleteAllowed(w, env);
    case OpUpload => UploadAllowed(w, env);
    case OpCheckpoint => CheckpointAllowed(w, env);
  }

  // -------------------------------------------------------------- whole runs

  lemma NextKeepsInv(w: World, s: Step)
    requires Inv(w)
    ensures Inv(Next(w, s)) && Extends(w.receipt, Next(w, s).receipt)
  {
    if s.Operate? {
      var es := Execute(w, s.op, s.env).effects;
      ExecuteAllowed(w, s.op, s.env);
      PrefixAllowed(w, es, Min(s.upTo, |es|));
      AllAllowedKeepsInv(w, es[..Min(s.upTo, |es|)]);
    } else {
      BytesKeepInv(w, Next(w, s));
    }
  }

  lemma {:induction false} RunKeepsInv(w: World, steps: seq<Step>)
    requires Inv(w)
    ensures Inv(RunAll(w, steps)) && Extends(w.receipt, RunAll(w, steps).receipt)
    decreases |steps|
  {
    if steps != [] {
      NextKeepsInv(w, steps[0]);
      RunKeepsInv(Next(w, steps[0]), steps[1..]);
    }
  }

  lemma PreparedIsGood(app: Digest, server: Digest)
    ensures Inv(Prepared(app, server))
  {
  }

  lemma EqualElementsCount<T>(s: seq<T>, i: nat, j: nat)
    requires i < j < |s|
    ensures s[i] == s[j] ==> multiset(s)[s[i]] >= 2
  {
    assert s == s[..j] + s[j..];
    assert s[..j][i] == s[i] && s[j..][0] == s[j];
    assert s[i] in multiset(s[..j]) && s[j] in multiset(s[j..]);
  }

  /** Every logged start is within its attempts: five for a staple, validation or wait, one for
      everything else. */
  lemma {:induction false} StartsAreBounded(es: seq<Event>, c: Call, n: nat)
    requires forall i :: 0 <= i < |es| && es[i].Started? ==> 1 <= es[i].attempt <= MaxAttempts(es[i].call)
    requires (c, n) in Starts(es)
    ensures 1 <= n <= MaxAttempts(c)
  {
    if es[|es| - 1] != Started(c, n) {
      StartsAreBounded(es[..|es| - 1], c, n);
    }
  }

  lemma AttemptIsBounded(w: World, i: nat)
    requires Inv(w) && i < |w.calls|
    ensures 1 <= w.calls[i].1 <= MaxAttempts(w.calls[i].0)
  {
    var (c, n) := w.calls[i];
    assert (c, n) in multiset(w.calls);
    assert multiset(w.calls)[(c, n)] <= Starts(w.receipt.events)[(c, n)];
    StartsAreBounded(w.receipt.events, c, n);
  }

  lemma SubmissionsDiffer(w: World, i: nat, j: nat, k: Kind)
    requires Inv(w) && i < j < |w.calls| && w.calls[i].0 == Submit(k)
    ensures w.calls[j].0 != Submit(k)
  {
    AttemptIsBounded(w, i);
    AttemptIsBounded(w, j);
    assert multiset(w.calls)[(Submit(k), 1)] <= Starts(w.receipt.events)[(Submit(k), 1)] <= 1;
    EqualElementsCount(w.calls, i, j);
  }

  /** The `i`-th call, if it submits `k`, is the only one that does, and is given the retained bytes. */
  predicate SubmitsOnce(w: World, i: nat, k: Kind)
    requires i < |w.calls|
  {
    w.calls[i].0 == Submit(k) ==>
      && (forall j :: 0 <= j < |w.calls| && w.calls[j].0 == Submit(k) ==> j == i)
      && FileOf(k) in w.receipt.payloads && i < |w.inputs| && w.inputs[i] == Some(w.receipt.payloads[FileOf(k)])
  }

  lemma InvSubmitsOnce(w: World, i: nat, k: Kind)
    requires Inv(w) && i < |w.calls|
    ensures SubmitsOnce(w, i, k)
  {
    if w.calls[i].0 == Submit(k) {
      forall j | 0 <= j < |w.calls| && w.calls[j].0 == Submit(k) ensures j == i {
        if i < j {
          SubmissionsDiffer(w, i, j, k);
        } else if j < i {
          SubmissionsDiffer(w, j, i, k);
        }
      }
    }
  }

  /** Over any operations on one retained receipt, with a crash allowed after every effect, each
      payload is submitted at most once, whatever the attempt, and what Apple is given is exactly
      the bytes the receipt retains.  Every external call was logged first. */
  lemma SubmittedAtMostOnce(app: Digest, server: Digest, steps: seq<Step>, i: nat, k: Kind)
    requires i < |RunAll(Prepared(app, server), steps).calls|
    ensures var w := RunAll(Prepared(app, server), steps);
      SubmitsOnce(w, i, k) && multiset(w.calls) <= Starts(w.receipt.events)
  {
    PreparedIsGood(app, server);
    RunKeepsInv(Prepared(app, server), steps);
    InvSubmitsOnce(RunAll(Prepared(app, server), steps), i, k);
  }

  lemma RetriesAreBounded(app: Digest, server: Digest, steps: seq<Step>, i: nat)
    requires i < |RunAll(Prepared(app, server), steps).calls|
    ensures var (c, n) := RunAll(Prepared(app, server), steps).calls[i];
      1 <= n <= ATTEMPTS && (n > 1 ==> Idempotent(c))
  {
    PreparedIsGood(app, server);
    RunKeepsInv(Prepared(app, server), steps);
    AttemptIsBounded(RunAll(Prepared(app, server), steps), i);
  }

  /** A complete receipt is fully accepted and assessed, and names the image that was passed. */
  predicate CompletedRight(w: World) {
    var r := w.receipt;
    r.phase == Complete ==>
      && AllAccepted(r) && AllWaitsSucceeded(r)
      && SignedDmg in r.payloads && SignedDmg in r.outputs
      && Assessed(r.events, Dmg) && Vouched(w, Dmg, r.payloads[SignedDmg], r.outputs[SignedDmg])
  }

  predicate AllWaitsSucceeded(r: Receipt) {
    forall k :: Succeeded(r.events, Wait(k))
  }

  lemma AcceptedWereAwaited(r: Receipt)
    requires ReceiptOk(r) && AllAccepted(r)
    ensures AllWaitsSucceeded(r)
  {
  }

  lemma InvCompletedRight(w: World)
    requires Inv(w)
    ensures CompletedRight(w)
  {
    if w.receipt.phase == Complete {
      AcceptedWereAwaited(w.receipt);
      assert Shipped(w, w.receipt, SignedDmg, w.receipt.outputs[SignedDmg]);
    }
  }

  predicate Retaining(r: Receipt, app: Digest, server: Digest) {
    AppZip in r.payloads && ServerZip in r.payloads && r.payloads[AppZip] == app && r.payloads[ServerZip] == server
  }

  lemma PreparedIsRetained(app: Digest, server: Digest, r: Receipt)
    requires Extends(Prepared(app, server).receipt, r)
    ensures Retaining(r, app, server)
  {
    assert FileOf(App) == AppZip && FileOf(Server) == ServerZip;
  }

  /** A receipt that says "complete" has every payload accepted, under the digest it retains, after a
      wait that was logged as successful; it logs a successful staple, validation and assessment of the
      disk image, and the image it names is what they passed.  The disk image was built once. */
  lemma CompleteMeansAccepted(app: Digest, server: Digest, steps: seq<Step>)
    ensures var w := RunAll(Prepared(app, server), steps);
      && CompletedRight(w) && Retaining(w.receipt, app, server)
      && (w.uploads != [] ==> Cleared(w.receipt) && AllWaitsSucceeded(w.receipt))
      && w.builds <= 1 && (w.receipt.packaged ==> w.builds == 1)
  {
    PreparedIsGood(app, server);
    RunKeepsInv(Prepared(app, server), steps);
    var w := RunAll(Prepared(app, server), steps);
    InvCompletedRight(w);
    if w.uploads != [] {
      AcceptedWereAwaited(w.receipt);
    }
    PreparedIsRetained(app, server, w.receipt);
  }

  /** The packed copy is one of the prepared application, which is accepted together with the server. */
  ghost predicate PackedFrom(w: World, copy: Option<Image>, app: Digest) {
    && AcceptedIn(w.receipt, App) && AcceptedIn(w.receipt, Server)
    && Succeeded(w.receipt.events, Staple(App)) && Succeeded(w.receipt.events, Validate(App))
    && Succeeded(w.receipt.events, Gatekeeper(App))
    && copy.Some? && copy.value.kind == App && copy.value.origin == app && Vouched(w, App, app, copy.value.bytes)
  }

  /** A disk image that was made, recorded or not, holds a copy of the prepared application that was
      stapled, validated and assessed, after the application and the server had been accepted; so do the
      updater files, and a packaged receipt has both. */
  lemma PackedMeansAssessed(app: Digest, server: Digest, steps: seq<Step>)
    ensures var w := RunAll(Prepared(app, server), steps);
      && (w.builds > 0 || w.receipt.packaged ==> PackedFrom(w, w.inDmg, app))
      && (w.inUpdater.Some? || w.receipt.packaged ==> PackedFrom(w, w.inUpdater, app))
  {
    PreparedIsGood(app, server);
    RunKeepsInv(Prepared(app, server), steps);
    var w := RunAll(Prepared(app, server), steps);
    PreparedIsRetained(app, server, w.receipt);
    if SignedDmg in w.files {
      assert Packs(w, w.inDmg);
    }
    if w.inUpdater.Some? {
      assert Packs(w, w.inUpdater);
    }
  }

  /** What leaves the machine: an uploaded server archive is the prepared one, an updater file is the
      retained one, and a disk image is what a successful staple made of a copy of the retained, submitted
      and accepted image, after validation and the gatekeeper passed exactly those bytes. */
  lemma UploadedBytesAreRetained(app: Digest, server: Digest, steps: seq<Step>, i: nat)
    requires i < |RunAll(Prepared(app, server), steps).uploads|
    ensures var w := RunAll(Prepared(app, server), steps);
      var asset := w.uploads[i];
      && asset.name in w.receipt.payloads
      && (asset.name == ServerZip ==> asset.bytes == server)
      && (asset.name != SignedDmg ==> asset.bytes == w.receipt.payloads[asset.name])
      && (asset.name == SignedDmg ==> Vouched(w, Dmg, w.receipt.payloads[SignedDmg], asset.bytes))
      && Cleared(w.receipt)
      && Dmg in w.receipt.submissions && SignedDmg in w.receipt.payloads
      && w.receipt.submissions[Dmg].accepted && w.receipt.submissions[Dmg].digest == w.receipt.payloads[SignedDmg]
  {
    CompleteMeansAccepted(app, server, steps);
    PreparedIsGood(app, server);
    RunKeepsInv(Prepared(app, server), steps);
    var w := RunAll(Prepared(app, server), steps);
    assert Shipped(w, w.receipt, w.uploads[i].name, w.uploads[i].bytes);
    assert FileOf(Dmg) == SignedDmg;
  }

  /** The log only grows and nothing durable is taken back, from any point of a run to any later one. */
  lemma {:induction false} DurableRecordsGrow(app: Digest, server: Digest, before: seq<Step>, after: seq<Step>)
    ensures Extends(RunAll(Prepared(app, server), before).receipt,
                    RunAll(RunAll(Prepared(app, server), before), after).receipt)
  {
    PreparedIsGood(app, server);
    RunKeepsInv(Prepared(app, server), before);
    RunKeepsInv(RunAll(Prepared(app, server), before), after);
  }

  // ------------------------------------------------------ when they succeed

  /** The retained bytes are all there and are the ones the receipt names. */
  predicate Intact(w: World) {
    && w.receipt.payloads.Keys ==
         (if w.receipt.packaged then {AppZip, ServerZip, SignedDmg, Updater("archive"), Updater("manifest")} else {AppZip, ServerZip})
    && forall n :: n in w.receipt.payloads ==> n in w.files && w.files[n] == w.receipt.payloads[n]
  }

  /** The call succeeds within its attempts, five for a staple, a validation or a wait, and one for any
      other, when nothing but transient failures come before. */
  predicate WorksFrom(env: Env, c: Call, n: nat) {
    exists m: nat :: n <= m <= (if c.Staple? || c.Validate? || c.Wait? then 5 else 1) && SucceedsAt(env, c, n, m)
  }

  predicate SucceedsAt(env: Env, c: Call, n: nat, m: nat) {
    env.outcome(c, m).Succeeds? && forall j: nat :: n <= j < m ==> env.outcome(c, j).FailsTransiently?
  }

  predicate Works(env: Env, c: Call) {
    WorksFrom(env, c, 1)
  }

  lemma {:induction false} RemoteWorksIff(r: Receipt, c: Call, env: Env, n: nat)
    requires 1 <= n <= MaxAttempts(c)
    ensures Remote(r, c, env, n).ok <==> WorksFrom(env, c, n)
    decreases MaxAttempts(c) - n
  {
    if !GivesUp(c, env, n) {
      RemoteWorksIff(AttemptOf(r, c, env, n).receipt, c, env, n + 1);
      if WorksFrom(env, c, n + 1) {
        var m: nat :| n + 1 <= m <= MaxAttempts(c) && SucceedsAt(env, c, n + 1, m);
        assert SucceedsAt(env, c, n, m);
      }
      if WorksFrom(env, c, n) {
        var m: nat :| n <= m <= MaxAttempts(c) && SucceedsAt(env, c, n, m);
        assert SucceedsAt(env, c, n + 1, m);
      }
    } else if env.outcome(c, n).Succeeds? {
      assert SucceedsAt(env, c, n, n);
    }
  }

  /** The payload is accepted already, or waiting for it ends with Apple's acceptance. */
  predicate Accepts(r: Receipt, env: Env, k: Kind) {
    k in r.submissions && (r.submissions[k].accepted || (Works(env, Wait(k)) && env.accepted(k)))
  }

  /** The receipt is the same but for its log, its phase, and that `k` may be accepted now. */
  predicate SameBut(r: Receipt, s: Receipt, k: Kind) {
    && s.payloads == r.payloads && s.packaged == r.packaged && s.outputs == r.outputs && s.checkpoint == r.checkpoint
    && s.submissions.Keys == r.submissions.Keys
    && forall j :: j in r.submissions ==>
         s.submissions[j] == if j == k then r.submissions[j].(accepted := s.submissions[j].accepted) else r.submissions[j]
  }

  lemma WaitOkIff(r: Receipt, k: Kind, env: Env)
    requires k in r.submissions ==> FileOf(k) in r.payloads && r.submissions[k].digest == r.payloads[FileOf(k)]
    ensures var x := WaitAccepted(r, k, env);
      && (x.ok <==> Accepts(r, env, k)) && SameBut(r, x.receipt, k)
  {
    RemoteWorksIff(r, Wait(k), env, 1);
    RemoteReceipt(r, Wait(k), env, 1);
  }

  lemma GatekeeperOkIff(r: Receipt, item: Kind, env: Env)
    ensures GatekeeperCalls(r, item, env).ok <==>
      Works(env, Staple(item)) && Works(env, Validate(item)) && Works(env, Gatekeeper(item))
  {
    var a := Remote(r, Staple(item), env, 1);
    RemoteWorksIff(r, Staple(item), env, 1);
    var b := Remote(a.receipt, Validate(item), env, 1);
    RemoteWorksIff(a.receipt, Validate(item), env, 1);
    RemoteWorksIff(b.receipt, Gatekeeper(item), env, 1);
  }

  /** Every submission is of the bytes the receipt retains. */
  predicate SubmissionsMatch(r: Receipt) {
    forall k :: k in r.submissions ==> FileOf(k) in r.payloads && r.submissions[k].digest == r.payloads[FileOf(k)]
  }

  lemma SameButMatches(r: Receipt, s: Receipt, k: Kind, env: Env)
    requires SubmissionsMatch(r) && SameBut(r, s, k)
    ensures SubmissionsMatch(s) && forall j :: j != k ==> (Accepts(s, env, j) <==> Accepts(r, env, j))
  {
  }

  lemma WaitTwoOkIff(r: Receipt, first: Kind, second: Kind, env: Env)
    requires SubmissionsMatch(r) && first != second
    ensures var x := WaitTwo(r, first, second, env);
      && (x.ok <==> Accepts(r, env, first) && Accepts(r, env, second))
      && x.receipt.payloads == r.payloads && x.receipt.packaged == r.packaged && SubmissionsMatch(x.receipt)
      && forall k :: k != first && k != second ==> (Accepts(x.receipt, env, k) <==> Accepts(r, env, k))
  {
    WaitOkIff(r, first, env);
    var a := WaitAccepted(r, first, env);
    SameButMatches(r, a.receipt, first, env);
    WaitOkIff(a.receipt, second, env);
    SameButMatches(a.receipt, WaitAccepted(a.receipt, second, env).receipt, second, env);
    WaitTwoIs(r, first, second, env);
  }

  lemma WaitTwoIs(r: Receipt, first: Kind, second: Kind, env: Env)
    ensures var a := WaitAccepted(r, first, env);
      var b := WaitAccepted(a.receipt, second, env);
      && WaitTwo(r, first, second, env).ok == (a.ok && b.ok)
      && WaitTwo(r, first, second, env).receipt == if a.ok then b.receipt else a.receipt
  {
  }

  lemma ThenIs(a: Exec, b: Exec)
    ensures Then(a, b).ok == (a.ok && b.ok) && (a.ok ==> Then(a, b).receipt == b.receipt)
    ensures a.ok && b.effects != [] ==> Then(a, b).effects[|Then(a, b).effects| - 1] == b.effects[|b.effects| - 1]
  {
  }

  /** When submitting succeeds, and what it then leaves in memory and on disk. */
  lemma SubmitSucceedsIff(w: World, k: Kind, env: Env)
    requires Inv(w)
    ensures var x := SubmitOp(w, k, env);
      && (x.ok <==>
            && env.loads && Intact(w) && k !in w.receipt.submissions && (k == Dmg ==> w.receipt.packaged)
            && (forall i :: 0 <= i < |w.receipt.events| ==> !(w.receipt.events[i].Started? && w.receipt.events[i].call == Submit(k)))
            && Works(env, Submit(k)) && env.validId)
      && (x.ok ==>
            var t := ApplyAll(w, x.effects);
            && FileOf(k) in w.files && t.receipt == x.receipt && t.files == w.files
            && t.receipt.submissions == w.receipt.submissions[k := Submission(env.id, w.files[FileOf(k)], false)])
  {
    LoadsIff(w, env);
    RemoteWorksIff(w.receipt, Submit(k), env, 1);
    if SubmitOp(w, k, env).ok {
      SubmitLeaves(w, k, env);
    }
  }

  lemma SubmitLeaves(w: World, k: Kind, env: Env)
    requires SubmitOp(w, k, env).ok
    ensures var x := SubmitOp(w, k, env);
      var t := ApplyAll(w, x.effects);
      && FileOf(k) in w.files && t.receipt == x.receipt && t.files == w.files
      && t.receipt.submissions == w.receipt.submissions[k := Submission(env.id, w.files[FileOf(k)], false)]
  {
    RemoteReceipt(w.receipt, Submit(k), env, 1);
    var x := SubmitOp(w, k, env);
    var started := Log(w.receipt, Started(Submit(k), 1));
    var run := Run(Submit(k), 1, env.leaves(1), true);
    HeadLeaves(w, started, run);
    LastLeaves(w, [Save(started), run], x.receipt);
    assert x.effects == [Save(started), run] + [Save(x.receipt)];
  }

  lemma LoadsIff(w: World, env: Env)
    ensures Loads(w, env) <==> env.loads && Intact(w)
  {
  }

  lemma InvMatches(w: World)
    requires Inv(w)
    ensures SubmissionsMatch(w.receipt)
  {
  }

  /** When packaging succeeds. */
  lemma PackageSucceedsIff(w: World, env: Env)
    requires Inv(w)
    ensures var x := PackageOp(w, env);
      && (x.ok <==>
            && env.loads && Intact(w) && !w.receipt.packaged && SignedDmg !in w.files
            && Accepts(w.receipt, env, Server) && Accepts(w.receipt, env, App)
            && Works(env, Staple(App)) && Works(env, Validate(App)) && Works(env, Gatekeeper(App))
            && env.tool(0) && env.tool(1) && env.tool(2) && env.tool(3) && env.tool(4))
      && (x.ok ==>
            && x.receipt.packaged && x.receipt.payloads == (w.receipt.payloads + UpdaterFiles(env.updater))[SignedDmg := env.signed]
            && x.effects != [] && x.effects[|x.effects| - 1] == Save(x.receipt))
  {
    LoadsIff(w, env);
    InvMatches(w);
    PackagesIff(w.receipt, env);
  }

  lemma PackagesIff(r: Receipt, env: Env)
    requires SubmissionsMatch(r)
    ensures var x := WaitAndPackage(r, env);
      && (x.ok <==>
            && Accepts(r, env, Server) && Accepts(r, env, App)
            && Works(env, Staple(App)) && Works(env, Validate(App)) && Works(env, Gatekeeper(App))
            && env.tool(0) && env.tool(1) && env.tool(2) && env.tool(3) && env.tool(4))
      && (x.ok ==>
            && x.receipt.packaged && x.receipt.payloads == (r.payloads + UpdaterFiles(env.updater))[SignedDmg := env.signed]
            && x.effects != [] && x.effects[|x.effects| - 1] == Save(x.receipt))
  {
    WaitTwoOkIff(r, Server, App, env);
    var b := WaitTwo(r, Server, App, env);
    var c := AppCalls(b.receipt, env);
    AppCallsOkIff(b.receipt, env);
    PackageBytesOkIff(c.receipt, env);
    ThenIs(b, c);
    ThenIs(Then(b, c), PackageBytes(Then(b, c).receipt, env));
  }

  /** What a successful packaging leaves on disk: the signed image, the updater files instead of any that
      were there, and every other file as it was; so what the receipt then names is retained whole when
      the updater is. */
  lemma PackageLeaves(w: World, env: Env)
    requires Inv(w) && PackageOp(w, env).ok
    ensures var x := PackageOp(w, env);
      var t := ApplyAll(w, x.effects);
      && t.receipt == x.receipt && SignedDmg in t.files && t.files[SignedDmg] == env.signed
      && (forall p :: Updater(p) in t.files <==> p in env.updater)
      && (forall p :: p in env.updater ==> t.files[Updater(p)] == env.updater[p])
      && (forall n :: n != SignedDmg && !n.Updater? ==> FileAt(t.files, n) == FileAt(w.files, n))
      && (env.updater.Keys == {"archive", "manifest"} ==> Intact(t))
  {
    var c := WaitsAreKept(w, env);
    PackedIs(ApplyAll(w, c.effects), c.receipt, env);
    Appended(w, c.effects, PackageBytes(c.receipt, env).effects);
    var t := ApplyAll(w, PackageOp(w, env).effects);
    PackedFilesAre(w, t, env);
    IntactAfter(w, t, c.receipt, env);
  }

  /** Everything before the packing itself keeps the files and the payloads. */
  lemma WaitsAreKept(w: World, env: Env) returns (c: Exec)
    requires Inv(w) && PackageOp(w, env).ok
    ensures c.ok && PackageOp(w, env) == Then(c, PackageBytes(c.receipt, env)) && c.receipt.payloads == w.receipt.payloads
    ensures ApplyAll(w, c.effects).files == w.files
  {
    var r := w.receipt;
    InvMatches(w);
    WaitTwoOkIff(r, Server, App, env);
    var a := WaitAccepted(r, Server, env);
    WaitIsSound(w, r, Server, env);
    AllAllowedKeepsInv(w, a.effects);
    var b := WaitAccepted(a.receipt, App, env);
    WaitIsSound(ApplyAll(w, a.effects), a.receipt, App, env);
    SoundThen(w, a, b);
    BothAccepted(w, a, b);
    c := Then(Then(a, b), AppCalls(b.receipt, env));
    AppCallsOkIff(b.receipt, env);
    AppCallsKeep(w, Then(a, b), env);
  }

  lemma AppCallsKeep(w: World, b: Exec, env: Env)
    requires Inv(w) && Sound(w, b) && b.ok && Retains(w) && AppZip in w.receipt.payloads
    requires b.receipt.payloads == w.receipt.payloads && AcceptedIn(b.receipt, App) && AcceptedIn(b.receipt, Server)
    requires AppCalls(b.receipt, env).ok
    ensures ApplyAll(w, Then(b, AppCalls(b.receipt, env)).effects).files == w.files
  {
    AllAllowedKeepsInv(w, b.effects);
    AppCallsAreSound(ApplyAll(w, b.effects), b.receipt, env);
    Appended(w, b.effects, AppCalls(b.receipt, env).effects);
  }

  /** The files without the old updater's, with the new updater's and the signed image. */
  function PackedFiles(files: map<Name, Digest>, env: Env): map<Name, Digest> {
    ((map n | n in files && !n.Updater? :: files[n]) + UpdaterFiles(env.updater))[SignedDmg := env.signed]
  }

  lemma PackedIs(m: World, r: Receipt, env: Env)
    requires PackageBytes(r, env).ok
    ensures var t := ApplyAll(m, PackageBytes(r, env).effects);
      t.receipt == WithDmg(r, env) == PackageBytes(r, env).receipt && t.files == PackedFiles(m.files, env)
  {
    var u, c, g, done := WriteUpdater(env.updater), CreateDmg(env.created), SignDmg(env.signed), WithDmg(r, env);
    FourLeave(m, u, c, g, Save(done));
    PackedSteps(m, env, done);
    assert PackageBytes(r, env).effects == [u, c] + [g, Save(done)];
  }

  lemma FourLeave(m: World, a: Effect, b: Effect, c: Effect, d: Effect)
    ensures ApplyAll(m, [a, b] + [c, d]) == Apply(Apply(Apply(Apply(m, a), b), c), d)
  {
    HeadIs(m, a, b);
    HeadIs(Apply(Apply(m, a), b), c, d);
    Appended(m, [a, b], [c, d]);
  }

  lemma PackedSteps(m: World, env: Env, done: Receipt)
    ensures var t := Apply(Apply(Apply(Apply(m, WriteUpdater(env.updater)), CreateDmg(env.created)), SignDmg(env.signed)), Save(done));
      t.receipt == done && t.files == PackedFiles(m.files, env)
  {
  }

  lemma PackedFilesAre(w: World, t: World, env: Env)
    requires t.files == PackedFiles(w.files, env)
    ensures SignedDmg in t.files && t.files[SignedDmg] == env.signed
    ensures forall p :: Updater(p) in t.files <==> p in env.updater
    ensures forall p :: p in env.updater ==> t.files[Updater(p)] == env.updater[p]
    ensures forall n :: n != SignedDmg && !n.Updater? ==> FileAt(t.files, n) == FileAt(w.files, n)
  {
  }

  lemma IntactAfter(w: World, t: World, r: Receipt, env: Env)
    requires Intact(w) && !w.receipt.packaged && r.payloads == w.receipt.payloads
    requires t.files == PackedFiles(w.files, env) && t.receipt == WithDmg(r, env)
    ensures env.updater.Keys == {"archive", "manifest"} ==> Intact(t)
  {
    if env.updater.Keys == {"archive", "manifest"} {
      var u := UpdaterFiles(env.updater);
      assert u.Keys == {Updater("archive"), Updater("manifest")} by {
        assert Updater("archive") in u && Updater("manifest") in u;
      }
      forall n | n in t.receipt.payloads ensures n in t.files && t.files[n] == t.receipt.payloads[n] {
      }
    }
  }

  lemma AppCallsOkIff(r: Receipt, env: Env)
    ensures var x := AppCalls(r, env);
      && (x.ok <==> Works(env, Staple(App)) && Works(env, Validate(App)) && Works(env, Gatekeeper(App)))
      && (x.ok ==> x.receipt.payloads == r.payloads)
  {
    GatekeeperOkIff(r, App, env);
    GatekeeperReceipt(r, App, env);
    ThenIs(Exec([UnzipApp], r, true), GatekeeperCalls(r, App, env));
  }

  lemma PackageBytesOkIff(r: Receipt, env: Env)
    ensures var x := PackageBytes(r, env);
      && (x.ok <==> env.tool(1) && env.tool(2) && env.tool(3) && env.tool(4))
      && (x.ok ==>
            && x.receipt.packaged && x.receipt.payloads == (r.payloads + UpdaterFiles(env.updater))[SignedDmg := env.signed]
            && x.effects != [] && x.effects[|x.effects| - 1] == Save(x.receipt))
  {
  }

  /** When completion succeeds. */
  lemma CompleteSucceedsIff(w: World, env: Env)
    requires Inv(w)
    ensures var x := CompleteOp(w, env);
      && (x.ok <==>
            && env.loads && Intact(w) && w.receipt.packaged
            && Accepts(w.receipt, env, App) && Accepts(w.receipt, env, Server) && Accepts(w.receipt, env, Dmg)
            && Works(env, Staple(Dmg)) && Works(env, Validate(Dmg)) && Works(env, Gatekeeper(Dmg)) && env.tool(0))
      && (x.ok ==> x.receipt.phase == Complete && x.effects != [] && x.effects[|x.effects| - 1] == Save(x.receipt))
  {
    LoadsIff(w, env);
    InvMatches(w);
    CompletesIff(w, env);
  }

  lemma CompletesIff(w: World, env: Env)
    requires SubmissionsMatch(w.receipt)
    ensures var x := WaitAndComplete(w, env);
      && (x.ok <==>
            && Accepts(w.receipt, env, App) && Accepts(w.receipt, env, Server) && Accepts(w.receipt, env, Dmg)
            && Works(env, Staple(Dmg)) && Works(env, Validate(Dmg)) && Works(env, Gatekeeper(Dmg)) && env.tool(0))
      && (x.ok ==> x.receipt.phase == Complete && x.effects != [] && x.effects[|x.effects| - 1] == Save(x.receipt))
  {
    var r := w.receipt;
    WaitTwoOkIff(r, App, Server, env);
    var b := WaitTwo(r, App, Server, env);
    WaitOkIff(b.receipt, Dmg, env);
    var d := WaitAccepted(b.receipt, Dmg, env);
    ThenIs(b, d);
    var c := Then(b, d);
    CompleteBytesOkIff(ApplyAll(w, c.effects), c.receipt, env);
    ThenIs(c, CompleteBytes(ApplyAll(w, c.effects), c.receipt, env));
  }

  lemma CompleteBytesOkIff(w: World, r: Receipt, env: Env)
    ensures var x := CompleteBytes(w, r, env);
      && (x.ok <==> Works(env, Staple(Dmg)) && Works(env, Validate(Dmg)) && Works(env, Gatekeeper(Dmg)) && env.tool(0))
      && (x.ok ==> x.receipt.phase == Complete && x.effects != [] && x.effects[|x.effects| - 1] == Save(x.receipt))
  {
    GatekeeperOkIff(r.(phase := CompletingDmg), Dmg, env);
  }

  /** What a successful completion leaves on disk: outputs that the receipt names, of every payload that
      ships, the image as it was stapled. */
  lemma CompleteLeaves(w: World, env: Env)
    requires Inv(w) && CompleteOp(w, env).ok
    ensures var t := ApplyAll(w, CompleteOp(w, env).effects);
      && t.receipt.phase == Complete && t.outputs == t.receipt.outputs && t.files == w.files
      && t.outputs.Keys == {SignedDmg, ServerZip} + (set n | n in w.files && n.Updater?)
      && t.outputs[ServerZip] == w.files[ServerZip] && (forall n :: n in w.files && n.Updater? ==> t.outputs[n] == w.files[n])
      && WorksOn(t, Dmg) && t.outputs[SignedDmg] == t.work.value.bytes
  {
    var m, r := CompleteIsFinished(w, env);
    FinishedLeaves(w, m, ApplyAll(w, CompleteOp(w, env).effects), r);
  }

  /** The outputs were copied from `m`, where everything else was done, and recorded. */
  predicate FinishedFrom(w: World, m: World, t: World, r: Receipt) {
    && m.files == w.files && WorksOn(m, Dmg) && ServerZip in m.files
    && t == m.(outputs := Outputs(m), receipt := WithOutputs(r, Outputs(m)))
  }

  lemma FinishedLeaves(w: World, m: World, t: World, r: Receipt)
    requires FinishedFrom(w, m, t, r)
    ensures t.receipt.phase == Complete && t.outputs == t.receipt.outputs && t.files == w.files
    ensures t.outputs.Keys == {SignedDmg, ServerZip} + (set n | n in w.files && n.Updater?)
    ensures t.outputs[ServerZip] == w.files[ServerZip] && forall n :: n in w.files && n.Updater? ==> t.outputs[n] == w.files[n]
    ensures WorksOn(t, Dmg) && t.outputs[SignedDmg] == t.work.value.bytes
  {
  }

  lemma CompleteIsFinished(w: World, env: Env) returns (m: World, r: Receipt)
    requires Inv(w) && CompleteOp(w, env).ok
    ensures FinishedFrom(w, m, ApplyAll(w, CompleteOp(w, env).effects), r)
  {
    var a := WaitAccepted(w.receipt, App, env);
    WaitIsSound(w, w.receipt, App, env);
    var wa := ApplyAll(w, a.effects);
    AllAllowedKeepsInv(w, a.effects);
    var b := WaitAccepted(a.receipt, Server, env);
    WaitIsSound(wa, a.receipt, Server, env);
    SoundThen(w, a, b);
    m, r := FinishAfterWaits(w, Then(a, b), env);
  }

  lemma FinishAfterWaits(w: World, b: Exec, env: Env) returns (m: World, r: Receipt)
    requires Inv(w) && Sound(w, b) && b.ok && w.receipt.packaged && Retains(w)
    requires App in b.receipt.submissions && b.receipt.submissions[App].accepted
    requires Server in b.receipt.submissions && b.receipt.submissions[Server].accepted
    requires var c := Then(b, WaitAccepted(b.receipt, Dmg, env));
      Then(c, CompleteBytes(ApplyAll(w, c.effects), c.receipt, env)).ok
    ensures var c := Then(b, WaitAccepted(b.receipt, Dmg, env));
      var x := Then(c, CompleteBytes(ApplyAll(w, c.effects), c.receipt, env));
      FinishedFrom(w, m, ApplyAll(w, x.effects), r)
  {
    var d := WaitAccepted(b.receipt, Dmg, env);
    var c := Then(b, d);
    var wc := ApplyAll(w, c.effects);
    ReadyToFinish(w, b, env);
    m, r := FinishedIs(wc, c.receipt, env);
    Appended(w, c.effects, CompleteBytes(wc, c.receipt, env).effects);
  }

  lemma ReadyToFinish(w: World, b: Exec, env: Env)
    requires Inv(w) && Sound(w, b) && b.ok && w.receipt.packaged && Retains(w) && WaitAccepted(b.receipt, Dmg, env).ok
    requires App in b.receipt.submissions && b.receipt.submissions[App].accepted
    requires Server in b.receipt.submissions && b.receipt.submissions[Server].accepted
    ensures var c := Then(b, WaitAccepted(b.receipt, Dmg, env));
      var wc := ApplyAll(w, c.effects);
      Inv(wc) && wc.receipt == c.receipt && c.receipt.packaged && AllAccepted(c.receipt) && Retains(wc) && wc.files == w.files
  {
    var wb := ApplyAll(w, b.effects);
    AllAllowedKeepsInv(w, b.effects);
    var d := WaitAccepted(b.receipt, Dmg, env);
    WaitIsSound(wb, b.receipt, Dmg, env);
    SoundThen(w, b, d);
    AllAllowedKeepsInv(w, Then(b, d).effects);
    AllThreeAccepted(b.receipt, Then(b, d).receipt);
  }

  lemma FinishedIs(w: World, r: Receipt, env: Env) returns (m: World, s: Receipt)
    requires Inv(w) && w.receipt == r && r.packaged && AllAccepted(r) && Retains(w) && CompleteBytes(w, r, env).ok
    ensures FinishedFrom(w, m, ApplyAll(w, CompleteBytes(w, r, env).effects), s)
  {
    var g := Completing(r, env);
    m, s := ApplyAll(w, g.effects), g.receipt;
    CompletingIsSound(w, r, env);
    CompletingKeepsFiles(w, r, env);
    FinishedEffects(w, g.effects, m, s);
  }

  lemma FinishedEffects(w: World, es: seq<Effect>, m: World, r: Receipt)
    requires m == ApplyAll(w, es) && m.files == w.files && WorksOn(m, Dmg) && ServerZip in m.files
    ensures FinishedFrom(w, m, ApplyAll(w, es + [WriteOutputs, Save(WithOutputs(r, Outputs(m)))]), r)
  {
    WrittenAndSaved(m, WithOutputs(r, Outputs(m)));
    Appended(w, es, [WriteOutputs, Save(WithOutputs(r, Outputs(m)))]);
  }

  lemma WrittenAndSaved(m: World, r: Receipt)
    ensures ApplyAll(m, [WriteOutputs, Save(r)]) == m.(outputs := Outputs(m), receipt := r)
  {
    HeadIs(m, WriteOutputs, Save(r));
  }

  lemma HeadIs(w: World, a: Effect, b: Effect)
    ensures ApplyAll(w, [a, b]) == Apply(Apply(w, a), b)
  {
    One(w, a);
    One(Apply(w, a), b);
    Appended(w, [a], [b]);
    assert [a] + [b] == [a, b];
  }

  lemma CompletingKeepsFiles(w: World, r: Receipt, env: Env)
    requires Inv(w) && w.receipt == r && r.packaged && AllAccepted(r) && Retains(w)
    ensures ApplyAll(w, Completing(r, env).effects).files == w.files
  {
    var starting := r.(phase := CompletingDmg);
    StartingIsSound(w, r);
    var c := ApplyAll(w, [Save(starting), CopyDmg]);
    GatekeeperIsSound(c, starting, Dmg, env);
    Appended(w, [Save(starting), CopyDmg], GatekeeperCalls(starting, Dmg, env).effects);
  }

  /** A checkpoint changes the receipt's checkpoint, when the receipt loads. */
  lemma CheckpointSucceedsIff(w: World, env: Env)
    ensures var x := CheckpointOp(w, env);
      && (x.ok <==> env.loads && Intact(w))
      && ApplyAll(w, x.effects) == if x.ok then w.(receipt := w.receipt.(checkpoint := env.checkpoint)) else w
  {
    LoadsIff(w, env);
    One(w, Save(w.receipt.(checkpoint := env.checkpoint)));
  }

  /** When uploading succeeds, and what it then uploads: the image, the updater archive and the server. */
  lemma UploadSucceedsIff(w: World, env: Env)
    requires Inv(w)
    ensures var x := UploadOp(w, env);
      && (x.ok <==>
            && env.loads && Intact(w) && w.receipt.phase == Complete
            && w.receipt.outputs.Keys == {SignedDmg, ServerZip, Updater("archive"), Updater("manifest")}
            && (forall n :: n in w.receipt.outputs ==> n in w.outputs && w.outputs[n] == w.receipt.outputs[n])
            && env.tool(1) && env.tool(2) && env.tool(3))
      && (x.ok ==> x.effects == [Upload(SignedDmg), Upload(Updater("archive")), Upload(ServerZip)])
  {
    AllUploaded(env);
    LoadsIff(w, env);
  }

  lemma AllUploaded(env: Env)
    ensures |ASSETS| == 3 && (|Uploads(3, env)| == 3 <==> env.tool(1) && env.tool(2) && env.tool(3))
    ensures |Uploads(3, env)| == 3 ==> Uploads(3, env) == [Upload(SignedDmg), Upload(Updater("archive")), Upload(ServerZip)]
  {
    assert Uploads(0, env) == [];
    assert Uploads(1, env) == if env.tool(1) then [Upload(SignedDmg)] else [];
    assert Uploads(2, env) == if env.tool(1) && env.tool(2) then [Upload(SignedDmg), Upload(Updater("archive"))] else Uploads(1, env);
  }

  // ---------------------------------------------------------- the controller

  /** Two pieces done one after the other are the composed piece. */
  lemma Composed(before: seq<Effect>, a: Exec, b: Exec)
    requires a.ok
    ensures before + a.effects + b.effects == before + Then(a, b).effects
  {
  }

  /** `x` with the effects `done` before it. */
  function After(done: seq<Effect>, x: Exec): Exec {
    x.(effects := done + x.effects)
  }

  lemma AddedTo(before: seq<Effect>, done: seq<Effect>, more: seq<Effect>)
    ensures before + done + more == before + (done + more)
  {
  }

  lemma RemoteUnfolds(done: seq<Effect>, r: Receipt, c: Call, env: Env, attempt: nat)
    ensures var a := AttemptOf(r, c, env, attempt);
      After(done, Remote(r, c, env, attempt)) ==
        if GivesUp(c, env, attempt) then Exec(done + a.effects, a.receipt, a.ok)
        else After(done + a.effects, Remote(a.receipt, c, env, attempt + 1))
  {
    var a := AttemptOf(r, c, env, attempt);
    var rest := Remote(a.receipt, c, env, attempt + 1);
    assert done + (a.effects + rest.effects) == done + a.effects + rest.effects;
  }

  /** The controller as it runs: `data` is the receipt in memory, `disk` everything durable or
      outside, and `log` the effects since `start`. */
  class Controller {
    var data: Receipt
    var log: seq<Effect>
    const start: World

    function Disk(): World
      reads this
    {
      ApplyAll(start, log)
    }

    /** Exactly the effects of `x` were added, memory holds its receipt, and the answer is its answer. */
    twostate predicate Did(x: Exec, ok: bool)
      reads this
    {
      log == old(log) + x.effects && data == x.receipt && ok == x.ok
    }

    constructor (w: World)
      ensures Disk() == w && data == w.receipt && log == [] && start == w
    {
      data, log, start := w.receipt, [], w;
    }

    method Do(e: Effect)
      modifies this`log
      ensures log == old(log) + [e]
      ensures Disk() == Apply(old(Disk()), e)
    {
      assert (log + [e])[..|log|] == log;
      log := log + [e];
    }

    method Attempt(c: Call, env: Env, attempt: nat) returns (ok: bool)
      modifies this
      ensures Did(AttemptOf(old(data), c, env, attempt), ok)
    {
      data := Log(data, Started(c, attempt));
      Do(Save(data));
      ok := env.outcome(c, attempt).Succeeds?;
      Do(Run(c, attempt, env.leaves(attempt), ok));
      data := Log(data, Finished(c, attempt, ok));
      if !c.Submit? || !ok {
        Do(Save(data));
      }
    }

    method CallRemote(c: Call, env: Env) returns (ok: bool)
      modifies this
      ensures Did(Remote(old(data), c, env, 1), ok)
    {
      var attempt := 1;
      ghost var whole := Remote(data, c, env, 1);
      ghost var done: seq<Effect> := [];
      while true
        invariant 1 <= attempt <= MaxAttempts(c)
        invariant log == old(log) + done
        invariant whole == After(done, Remote(data, c, env, attempt))
        decreases MaxAttempts(c) - attempt
      {
        RemoteUnfolds(done, data, c, env, attempt);
        ghost var a := AttemptOf(data, c, env, attempt);
        ok := Attempt(c, env, attempt);
        AddedTo(old(log), done, a.effects);
        done := done + a.effects;
        if GivesUp(c, env, attempt) {
          return;
        }
        attempt := attempt + 1;
      }
    }

    method AwaitAccepted(k: Kind, env: Env) returns (ok: bool)
      modifies this
      ensures Did(WaitAccepted(old(data), k, env), ok)
    {
      if k !in data.submissions || FileOf(k) !in data.payloads || data.submissions[k].digest != data.payloads[FileOf(k)] {
        return false;
      }
      var submission := data.submissions[k];
      if submission.accepted {
        return true;
      }
      RemoteReceipt(data, Wait(k), env, 1);
      ok := CallRemote(Wait(k), env);
      if !ok || !env.accepted(k) {
        return false;
      }
      data := data.(submissions := data.submissions[k := submission.(accepted := true)], phase := AcceptedPhase(k));
      Do(Save(data));
    }

    method RunGatekeeper(item: Kind, env: Env) returns (ok: bool)
      modifies this
      ensures Did(GatekeeperCalls(old(data), item, env), ok)
    {
      ghost var a := Remote(data, Staple(item), env, 1);
      ok := CallRemote(Staple(item), env);
      if ok {
        Composed(old(log), a, Assess(data, item, env));
        ok := ValidateAndAssess(item, env);
      }
    }

    method ValidateAndAssess(item: Kind, env: Env) returns (ok: bool)
      modifies this
      ensures Did(Assess(old(data), item, env), ok)
    {
      ghost var b := Remote(data, Validate(item), env, 1);
      ok := CallRemote(Validate(item), env);
      if ok {
        Composed(old(log), b, Remote(data, Gatekeeper(item), env, 1));
        ok := CallRemote(Gatekeeper(item), env);
      }
    }

    method SubmitPayload(k: Kind, env: Env) returns (ok: bool)
      requires data == Disk().receipt
      modifies this
      ensures Did(SubmitOp(old(Disk()), k, env), ok)
    {
      if !Loads(Disk(), env) || k in data.submissions || SubmitStarted(data.events, k) || FileOf(k) !in data.payloads {
        return false;
      }
      RemoteReceipt(data, Submit(k), env, 1);
      ok := CallRemote(Submit(k), env);
      if !ok || !env.validId {
        return false;
      }
      var s := Submission(env.id, data.payloads[FileOf(k)], false);
      data := data.(submissions := data.submissions[k := s], phase := Submitted(k));
      Do(Save(data));
    }

    method AwaitTwo(first: Kind, second: Kind, env: Env) returns (ok: bool)
      modifies this
      ensures Did(WaitTwo(old(data), first, second, env), ok)
    {
      ghost var a := WaitAccepted(data, first, env);
      ok := AwaitAccepted(first, env);
      if ok {
        Composed(old(log), a, WaitAccepted(data, second, env));
        ok := AwaitAccepted(second, env);
      }
    }

    method CompleteRelease(env: Env) returns (ok: bool)
      requires data == Disk().receipt
      modifies this
      ensures Did(CompleteOp(old(Disk()), env), ok)
    {
      if !Loads(Disk(), env) || !data.packaged {
        return false;
      }
      ghost var b := WaitTwo(data, App, Server, env);
      ok := AwaitTwo(App, Server, env);
      if !ok {
        return;
      }
      ghost var d := WaitAccepted(data, Dmg, env);
      ok := AwaitAccepted(Dmg, env);
      Composed(old(log), b, d);
      if !ok {
        return;
      }
      AppendedToLog(old(log), Then(b, d).effects);
      Composed(old(log), Then(b, d), CompleteBytes(Disk(), data, env));
      ok := Finish(env);
    }

    method StartCompleting(env: Env) returns (ok: bool)
      modifies this
      ensures Did(Completing(old(data), env), ok)
    {
      data := data.(phase := CompletingDmg);
      ghost var marked := Exec([Save(data), CopyDmg], data, true);
      Do(Save(data));
      Do(CopyDmg);
      assert log == old(log) + marked.effects;
      Composed(old(log), marked, GatekeeperCalls(data, Dmg, env));
      ok := RunGatekeeper(Dmg, env);
    }

    method Finish(env: Env) returns (ok: bool)
      modifies this
      ensures Did(CompleteBytes(old(Disk()), old(data), env), ok)
    {
      ghost var g := Completing(data, env);
      ok := StartCompleting(env);
      if !ok || !env.tool(0) {
        return false;
      }
      AppendedToLog(old(log), g.effects);
      RecordOutputs();
      assert old(log) + g.effects + [WriteOutputs, Save(data)] == old(log) + (g.effects + [WriteOutputs, Save(data)]);
    }

    method RecordOutputs()
      modifies this
      ensures data == WithOutputs(old(data), Outputs(old(Disk())))
      ensures log == old(log) + [WriteOutputs, Save(data)]
    {
      Do(WriteOutputs);
      data := data.(outputs := Disk().outputs, phase := Complete);
      Do(Save(data));
    }

    /** The disk after more effects. */
    lemma AppendedToLog(before: seq<Effect>, more: seq<Effect>)
      ensures ApplyAll(start, before + more) == ApplyAll(ApplyAll(start, before), more)
    {
      Appended(start, before, more);
    }

    method PackageRelease(env: Env) returns (ok: bool)
      requires data == Disk().receipt
      modifies this
      ensures Did(PackageOp(old(Disk()), env), ok)
    {
      if !Loads(Disk(), env) || data.packaged || SignedDmg in Disk().files {
        return false;
      }
      ghost var b := WaitTwo(data, Server, App, env);
      ok := AwaitTwo(Server, App, env);
      if !ok || !env.tool(0) {
        return false;
      }
      ghost var g := AppCalls(data, env);
      ok := AssessApp(env);
      Composed(old(log), b, g);
      if !ok {
        return;
      }
      Composed(old(log), Then(b, g), PackageBytes(data, env));
      ok := BuildDmg(env);
    }

    method AssessApp(env: Env) returns (ok: bool)
      modifies this
      ensures Did(AppCalls(old(data), env), ok)
    {
      ghost var copied := Exec([UnzipApp], data, true);
      Do(UnzipApp);
      Composed(old(log), copied, GatekeeperCalls(data, App, env));
      ok := RunGatekeeper(App, env);
    }

    method BuildDmg(env: Env) returns (ok: bool)
      modifies this
      ensures Did(PackageBytes(old(data), env), ok)
    {
      if !env.tool(1) {
        return false;
      }
      Do(WriteUpdater(env.updater));
      if !env.tool(2) {
        return false;
      }
      Do(CreateDmg(env.created));
      if !env.tool(3) {
        return false;
      }
      Do(SignDmg(env.signed));
      assert log == old(log) + [WriteUpdater(env.updater), CreateDmg(env.created), SignDmg(env.signed)];
      if !env.tool(4) {
        return false;
      }
      RecordDmg(env);
      return true;
    }

    method RecordDmg(env: Env)
      modifies this
      ensures data == WithDmg(old(data), env) && log == old(log) + [Save(data)]
    {
      data := data.(payloads := (data.payloads + UpdaterFiles(env.updater))[SignedDmg := env.signed],
                    packaged := true, phase := DmgRetained);
      Do(Save(data));
    }
  }
}
