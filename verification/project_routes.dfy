// The client runtime's route registry, and how project receivers are handed out.
module ProjectRoutes {

  type ProjectId = string
  type HandleId = nat
  type ChannelId = nat
  type Frame = string

  // ---------------------------------------------------------------- registry

  /** The two mutex-guarded maps.  A route holds the sending half of a channel,
      `pending` the receiving half of a channel nobody has opened yet. */
  datatype Registry = Registry(routes: map<ProjectId, ChannelId>, pending: map<ProjectId, ChannelId>)

  function WithRoute(r: Registry, p: ProjectId, c: ChannelId): Registry {
    if p in r.routes then r else r.(routes := r.routes[p := c])
  }

  function WithoutRoute(r: Registry, p: ProjectId): Registry {
    r.(routes := r.routes - {p})
  }

  function WithPending(r: Registry, p: ProjectId, c: ChannelId): Registry {
    r.(pending := r.pending[p := c])
  }

  function WithoutPending(r: Registry, p: ProjectId): Registry {
    r.(pending := r.pending - {p})
  }

  /** The shared object.  Each method is exactly one lock section. */
  class Shared {
    var routes: map<ProjectId, ChannelId>
    var pending: map<ProjectId, ChannelId>

    ghost function Contents(): Registry
      reads this
    {
      Registry(routes, pending)
    }

    constructor ()
      ensures Contents() == Registry(map[], map[])
    {
      routes, pending := map[], map[];
    }

    method RegisterRoute(p: ProjectId, c: ChannelId) returns (ok: bool)
      modifies this`routes
      ensures ok <==> p !in old(routes)
      ensures Contents() == WithRoute(old(Contents()), p, c)
    {
      if p in routes {
        return false;
      }
      routes := routes[p := c];
      return true;
    }

    method UnregisterRoute(p: ProjectId)
      modifies this`routes
      ensures Contents() == WithoutRoute(old(Contents()), p)
    {
      routes := routes - {p};
    }

    method ParkPending(p: ProjectId, c: ChannelId)
      modifies this`pending
      ensures Contents() == WithPending(old(Contents()), p, c)
    {
      pending := pending[p := c];
    }

    method TakePending(p: ProjectId) returns (found: bool, c: ChannelId)
      modifies this`pending
      ensures found <==> p in old(pending)
      ensures found ==> c == old(pending)[p]
      ensures Contents() == WithoutPending(old(Contents()), p)
    {
      found, c := p in pending, 0;
      if found {
        c := pending[p];
      }
      pending := pending - {p};
    }

    /** Where the reader sends a frame of `p`, which it drops when nothing is registered. */
    method RouteFor(p: ProjectId) returns (found: bool, c: ChannelId)
      ensures forall f :: AfterRead(Contents(), p, f) == if found then Sending(p, c, f) else Idle
    {
      found, c := p in routes, 0;
      if found {
        c := routes[p];
      }
    }

    /** Pre-registration when nothing interleaves.  A stopped writer leaves the routes as they were. */
    method PreRegisterProjectEndpoint(p: ProjectId, c: ChannelId, writerUp: bool) returns (ok: bool)
      modifies this
      ensures ok <==> p in old(routes) || writerUp
      ensures p in old(routes) ==> Contents() == old(Contents())
      ensures p !in old(routes) && writerUp ==>
        routes == old(routes)[p := c] && pending == old(pending)[p := c]
      ensures !ok ==> routes == old(routes) && pending == old(pending) - {p}
    {
      if p in routes {
        return true;
      }
      var inserted := RegisterRoute(p, c);
      if !inserted {
        return true;
      }
      ParkPending(p, c);
      if !writerUp {
        UnregisterRoute(p);
        var _, _ := TakePending(p);
        return false;
      }
      return true;
    }

    /** A delete touches the route only if it removed the receiver. */
    method RemovePendingProjectEndpoint(p: ProjectId)
      modifies this
      ensures p in old(pending) ==> routes == old(routes) - {p} && pending == old(pending) - {p}
      ensures p !in old(pending) ==> Contents() == old(Contents())
    {
      var removed, _ := TakePending(p);
      if removed {
        UnregisterRoute(p);
      }
    }

    /** `open_project` when nothing interleaves: the parked receiver if there is one, else the fresh
        channel `c`; a failed first command drops the endpoint and its route with it. */
    method OpenProject(p: ProjectId, c: ChannelId, writerUp: bool, accessed: bool)
      returns (success: bool, channel: ChannelId)
      requires accessed ==> writerUp
      modifies this
      ensures success <==> accessed && (p in old(pending) || p !in old(routes))
      ensures success ==> channel == if p in old(pending) then old(pending)[p] else c
      ensures p in old(pending) ==>
        pending == old(pending) - {p} && routes == if accessed then old(routes) else old(routes) - {p}
      ensures p !in old(pending) ==>
        pending == old(pending)
        && routes == if p in old(routes) || (writerUp && !accessed) then old(routes) else old(routes)[p := c]
    {
      var found;
      found, channel := TakePending(p);
      if !found {
        channel := c;
        var inserted := RegisterRoute(p, c);
        if !inserted || !writerUp {
          return false, c;
        }
      }
      if !accessed {
        UnregisterRoute(p);
        return false, channel;
      }
      return true, channel;
    }
  }

  // ---------------------------------------------------------------- protocol

  // One reader task, any number of `open_project` callers and the drops of their endpoints
  // interleave; every lock section is one atomic step.

  /** Everything sent into one channel; `start` is how many frames of its project
      had arrived on the wire when the channel was registered. */
  datatype Channel = Channel(start: nat, frames: seq<Frame>)

  /** Where the reader task stands between two of its lock sections. */
  datatype Reader =
    | Idle
    | Checked(p: ProjectId)                   // saw no route, has not inserted one
    | Routed(p: ProjectId, c: ChannelId)      // inserted the route, still holds the receiver
    | Parked(p: ProjectId, c: ChannelId)      // parked the receiver, not yet writable
    | Rollback(p: ProjectId)                  // registration failed, route already removed
    | Unrouting(p: ProjectId, c: ChannelId)   // a delete removed the receiver, not yet the route
    | Sending(p: ProjectId, c: ChannelId, f: Frame)
    | Ended                                   // the read loop is over

  function AfterRead(r: Registry, p: ProjectId, f: Frame): Reader {
    if p in r.routes then Sending(p, r.routes[p], f) else Idle
  }

  /** Where one caller of `open_project`, or the endpoint it obtained, stands. */
  datatype Opener =
    | Missing(p: ProjectId)                   // nothing was pending
    | Registered(p: ProjectId, c: ChannelId)  // route inserted, not yet writable
    | Accessing(p: ProjectId, c: ChannelId)   // endpoint built, `accessed` in flight
    | Live(p: ProjectId, c: ChannelId)

  /** `shared` says that somebody still holds the shared object. */
  datatype State = State(
    reg: Registry,
    channels: seq<Channel>,
    wire: map<ProjectId, seq<Frame>>,
    reader: Reader,
    openers: map<HandleId, Opener>,
    writerUp: bool,
    shared: bool)

  const Init := State(Registry(map[], map[]), [], map[], Idle, map[], true, true)

  function Wire(s: State, p: ProjectId): seq<Frame> {
    if p in s.wire then s.wire[p] else []
  }

  datatype Step =
    | Upsert(p: ProjectId)                  // first check of a pre-registration
    | InsertRoute
    | ParkReceiver
    | ReaderWritable                        // RegisterStream reaches the writer, or fails
    | RollbackPending
    | Delete(p: ProjectId)
    | DeleteRoute
    | ReadFrame(p: ProjectId, f: Frame)     // clone the sender
    | Deliver                               // send through the clone
    | OpenTake(h: HandleId, p: ProjectId)
    | OpenRegister(h: HandleId)
    | OpenWritable(h: HandleId)
    | OpenAccessed(h: HandleId, ok: bool)
    | OpenCancel(h: HandleId)               // the caller drops the future at one of its two waits
    | DropEndpoint(h: HandleId)
    | EndReader                             // end of stream, a bad frame, or a gone listener
    | StopWriter                            // the reader signals the writer after its loop
    | Release                               // the last handle goes: both maps go with it

  predicate Enabled(s: State, a: Step) {
    match a
    case Upsert(_) => s.reader.Idle?
    case InsertRoute => s.reader.Checked?
    case ParkReceiver => s.reader.Routed?
    case ReaderWritable => s.reader.Parked?
    case RollbackPending => s.reader.Rollback?
    case Delete(_) => s.reader.Idle?
    case DeleteRoute => s.reader.Unrouting?
    case ReadFrame(_, _) => s.reader.Idle?
    case Deliver => s.reader.Sending? && s.reader.c < |s.channels|
    case OpenTake(h, _) => h !in s.openers && s.shared
    case OpenRegister(h) => h in s.openers && s.openers[h].Missing?
    case OpenWritable(h) => h in s.openers && s.openers[h].Registered?
    case OpenAccessed(h, ok) => h in s.openers && s.openers[h].Accessing? && (ok ==> s.writerUp)
    case OpenCancel(h) => h in s.openers && (s.openers[h].Registered? || s.openers[h].Accessing?)
    case DropEndpoint(h) => h in s.openers && s.openers[h].Live?
    case EndReader => s.reader.Idle?
    case StopWriter => s.reader.Ended?
    // While it handles a frame the reader holds the shared object too.
    case Release => s.shared && s.openers == map[] && (s.reader.Idle? || s.reader.Ended?)
  }

  function NewChannel(s: State, p: ProjectId): State {
    s.(channels := s.channels + [Channel(|Wire(s, p)|, [])], reg := WithRoute(s.reg, p, |s.channels|))
  }

  function ReaderStep(s: State, a: Step): State
    requires Enabled(s, a)
  {
    match a
    case Upsert(p) =>
      if p in s.reg.routes then s else s.(reader := Checked(p))
    case InsertRoute =>
      var p := s.reader.p;
      if p in s.reg.routes then s.(reader := Idle)
      else NewChannel(s, p).(reader := Routed(p, |s.channels|))
    case ParkReceiver =>
      s.(reg := WithPending(s.reg, s.reader.p, s.reader.c), reader := Parked(s.reader.p, s.reader.c))
    case ReaderWritable =>
      if s.writerUp then s.(reader := Idle)
      else s.(reg := WithoutRoute(s.reg, s.reader.p), reader := Rollback(s.reader.p))
    case RollbackPending =>
      s.(reg := WithoutPending(s.reg, s.reader.p), reader := Idle)
    case Delete(p) =>
      if p in s.reg.pending
      then s.(reg := WithoutPending(s.reg, p), reader := Unrouting(p, s.reg.pending[p]))
      else s
    case DeleteRoute =>
      s.(reg := WithoutRoute(s.reg, s.reader.p), reader := Idle)
    case ReadFrame(p, f) =>
      s.(wire := s.wire[p := Wire(s, p) + [f]],
         reader := AfterRead(s.reg, p, f))
    case Deliver =>
      var ch := s.channels[s.reader.c];
      s.(channels := s.channels[s.reader.c := ch.(frames := ch.frames + [s.reader.f])], reader := Idle)
    case _ => s
  }

  function OtherStep(s: State, a: Step): State
    requires Enabled(s, a)
  {
    match a
    case OpenTake(h, p) =>
      if p in s.reg.pending
      then s.(reg := WithoutPending(s.reg, p), openers := s.openers[h := Accessing(p, s.reg.pending[p])])
      else s.(openers := s.openers[h := Missing(p)])
    case OpenRegister(h) =>
      var p := s.openers[h].p;
      if p in s.reg.routes then s.(openers := s.openers - {h})
      else NewChannel(s, p).(openers := s.openers[h := Registered(p, |s.channels|)])
    case OpenWritable(h) =>
      // A failure drops the bare receiver: no endpoint exists yet whose drop would unregister the route.
      if s.writerUp then s.(openers := s.openers[h := Accessing(s.openers[h].p, s.openers[h].c)])
      else s.(openers := s.openers - {h})
    case OpenAccessed(h, ok) =>
      if ok then s.(openers := s.openers[h := Live(s.openers[h].p, s.openers[h].c)])
      else s.(reg := WithoutRoute(s.reg, s.openers[h].p), openers := s.openers - {h})
    case DropEndpoint(h) =>
      s.(reg := WithoutRoute(s.reg, s.openers[h].p), openers := s.openers - {h})
    case OpenCancel(h) =>
      // Before the endpoint is built nothing unregisters the route; afterwards its drop does.
      if s.openers[h].Registered? then s.(openers := s.openers - {h})
      else s.(reg := WithoutRoute(s.reg, s.openers[h].p), openers := s.openers - {h})
    case EndReader => s.(reader := Ended)
    case StopWriter => s.(writerUp := false)
    case Release => s.(reg := Registry(map[], map[]), reader := Ended, writerUp := false, shared := false)
    case _ => s
  }

  predicate OfReader(a: Step) {
    || a.Upsert? || a.InsertRoute? || a.ParkReceiver? || a.ReaderWritable? || a.RollbackPending?
    || a.Delete? || a.DeleteRoute? || a.ReadFrame? || a.Deliver?
  }

  function Next(s: State, a: Step): State
    requires Enabled(s, a)
  {
    if OfReader(a) then ReaderStep(s, a) else OtherStep(s, a)
  }

  /** `t` is reached from `s` by taking `run` step by step. */
  ghost predicate Reaches(s: State, run: seq<Step>, t: State)
    decreases |run|
  {
    if run == [] then s == t
    else Enabled(s, run[0]) && Reaches(Next(s, run[0]), run[1..], t)
  }

  // --------------------------------------------------------------- invariant

  /** Every place that can own the receiving half of a project channel. */
  datatype Holder = InReader | InPending | InHandle(h: HandleId)

  predicate HoldsFor(s: State, o: Holder, p: ProjectId) {
    match o
    case InReader => s.reader.Routed? && s.reader.p == p
    case InPending => p in s.reg.pending
    case InHandle(h) => h in s.openers && !s.openers[h].Missing? && s.openers[h].p == p
  }

  function HeldChannel(s: State, o: Holder, p: ProjectId): ChannelId
    requires HoldsFor(s, o, p)
  {
    match o
    case InReader => s.reader.c
    case InPending => s.reg.pending[p]
    case InHandle(h) => s.openers[h].c
  }

  /** Frames read for channel `c` but not yet pushed into it. */
  function InFlight(s: State, c: ChannelId): seq<Frame> {
    if s.reader.Sending? && s.reader.c == c then [s.reader.f] else []
  }

  ghost predicate AtMostOneReceiver(s: State) {
    forall o, o', p :: HoldsFor(s, o, p) && HoldsFor(s, o', p) ==> o == o'
  }

  ghost predicate EveryReceiverRouted(s: State) {
    forall o, p :: HoldsFor(s, o, p) ==> p in s.reg.routes && s.reg.routes[p] == HeldChannel(s, o, p)
  }

  /** No receiver of the project a delete is unrouting exists any more. */
  ghost predicate DeleteOwnsItsRoute(s: State) {
    s.reader.Unrouting? ==>
      s.reader.p in s.reg.routes && s.reg.routes[s.reader.p] == s.reader.c
      && forall o :: !HoldsFor(s, o, s.reader.p)
  }

  /** Each routed channel carries every frame of its project since registration, in wire order. */
  ghost predicate NothingLost(s: State) {
    forall p :: p in s.reg.routes ==>
      var c := s.reg.routes[p];
      c < |s.channels| && s.channels[c].start <= |Wire(s, p)|
      && s.channels[c].frames + InFlight(s, c) == Wire(s, p)[s.channels[c].start..]
  }

  ghost predicate RoutesDistinct(s: State) {
    forall p, q :: p in s.reg.routes && q in s.reg.routes && s.reg.routes[p] == s.reg.routes[q] ==> p == q
  }

  ghost predicate SenderKnown(s: State) {
    s.reader.Sending? ==> s.reader.c < |s.channels|
  }

  /** The writer stops only after the reader, so no registration of the reader's ever fails. */
  predicate WriterOutlivesReader(s: State) {
    (s.writerUp || s.reader.Ended?) && !s.reader.Rollback?
  }

  ghost predicate Inv(s: State) {
    && AtMostOneReceiver(s)
    && EveryReceiverRouted(s)
    && DeleteOwnsItsRoute(s)
    && NothingLost(s)
    && RoutesDistinct(s)
    && SenderKnown(s)
    && WriterOutlivesReader(s)
  }

  // ------------------------------------------------------------ preservation

  /** The step registers a channel for `p`, which had no route. */
  predicate Registers(s: State, a: Step, p: ProjectId)
    requires Enabled(s, a)
  {
    p !in s.reg.routes &&
    ((a.InsertRoute? && s.reader.p == p) || (a.OpenRegister? && s.openers[a.h].p == p))
  }

  /** The step removes the route of `p`. */
  predicate Unregisters(s: State, a: Step, p: ProjectId)
    requires Enabled(s, a)
  {
    || (a.DeleteRoute? && s.reader.p == p)
    || (a.ReaderWritable? && !s.writerUp && s.reader.p == p)
    || (a.OpenAccessed? && !a.ok && s.openers[a.h].p == p)
    || (a.OpenCancel? && s.openers[a.h].Accessing? && s.openers[a.h].p == p)
    || a.Release?
    || (a.DropEndpoint? && s.openers[a.h].p == p)
  }

  /** Who owned the receiver that `o` owns after the step. */
  function Origin(s: State, a: Step, o: Holder, p: ProjectId): Holder
    requires Enabled(s, a)
  {
    if a.ParkReceiver? && o == InPending && p == s.reader.p then InReader
    else if a.OpenTake? && o == InHandle(a.h) then InPending
    else o
  }

  predicate RoutesChange(s: State, a: Step, p: ProjectId)
    requires Enabled(s, a)
  {
    var t := Next(s, a);
    && (p in t.reg.routes <==> (p in s.reg.routes || Registers(s, a, p)) && !Unregisters(s, a, p))
    && (p in t.reg.routes ==> t.reg.routes[p] == if Registers(s, a, p) then |s.channels| else s.reg.routes[p])
  }

  lemma RoutesAfterReader(s: State, a: Step, p: ProjectId)
    requires Enabled(s, a) && OfReader(a)
    ensures RoutesChange(s, a, p)
  {
  }

  lemma RoutesAfterOther(s: State, a: Step, p: ProjectId)
    requires Enabled(s, a) && !OfReader(a)
    ensures RoutesChange(s, a, p)
  {
  }

  lemma RoutesAfter(s: State, a: Step, p: ProjectId)
    requires Enabled(s, a)
    ensures RoutesChange(s, a, p)
  {
    if OfReader(a) {
      RoutesAfterReader(s, a, p);
    } else {
      RoutesAfterOther(s, a, p);
    }
  }

  /** A receiver is new exactly when its route is; otherwise it was handed over unchanged. */
  lemma HoldersAfter(s: State, a: Step, o: Holder, p: ProjectId)
    requires Enabled(s, a) && HoldsFor(Next(s, a), o, p)
    ensures HoldsFor(s, Origin(s, a, o, p), p)
            || (Registers(s, a, p) && o == (if a.InsertRoute? then InReader else InHandle(a.h)))
    ensures HeldChannel(Next(s, a), o, p) ==
            if HoldsFor(s, Origin(s, a, o, p), p) then HeldChannel(s, Origin(s, a, o, p), p) else |s.channels|
  {
    if OfReader(a) {
      HoldersAfterReader(s, a, o, p);
    } else {
      HoldersAfterOther(s, a, o, p);
    }
  }

  lemma HoldersAfterReader(s: State, a: Step, o: Holder, p: ProjectId)
    requires Enabled(s, a) && OfReader(a) && HoldsFor(ReaderStep(s, a), o, p)
    ensures HoldsFor(s, Origin(s, a, o, p), p) || (Registers(s, a, p) && o == InReader)
    ensures Registers(s, a, p) ==> a.InsertRoute?
    ensures HeldChannel(ReaderStep(s, a), o, p) ==
            if HoldsFor(s, Origin(s, a, o, p), p) then HeldChannel(s, Origin(s, a, o, p), p) else |s.channels|
  {
  }

  lemma HoldersAfterOther(s: State, a: Step, o: Holder, p: ProjectId)
    requires Enabled(s, a) && !OfReader(a) && HoldsFor(OtherStep(s, a), o, p)
    ensures HoldsFor(s, Origin(s, a, o, p), p) || (Registers(s, a, p) && o == InHandle(a.h))
    ensures HeldChannel(OtherStep(s, a), o, p) ==
            if HoldsFor(s, Origin(s, a, o, p), p) then HeldChannel(s, Origin(s, a, o, p), p) else |s.channels|
  {
  }

  /** A step never unregisters a route whose receiver survives the step. */
  lemma UnregisterIsByOwner(s: State, a: Step, o: Holder, p: ProjectId)
    requires Inv(s) && Enabled(s, a) && Unregisters(s, a, p)
    ensures !HoldsFor(Next(s, a), o, p)
  {
    if HoldsFor(Next(s, a), o, p) {
      HoldersAfter(s, a, o, p);
      if a.DropEndpoint? || a.OpenAccessed? || a.OpenCancel? {
        OpenerIsGone(s, a, o, p);
      }
    }
  }

  lemma OpenerIsGone(s: State, a: Step, o: Holder, p: ProjectId)
    requires AtMostOneReceiver(s) && Enabled(s, a) && Unregisters(s, a, p) && !OfReader(a) && HoldsFor(s, o, p)
    requires a.DropEndpoint? || a.OpenAccessed? || a.OpenCancel?
    ensures !HoldsFor(Next(s, a), o, p)
  {
    assert HoldsFor(s, InHandle(a.h), p);
  }

  lemma ExclusionKept(s: State, a: Step)
    requires Inv(s) && Enabled(s, a)
    ensures AtMostOneReceiver(Next(s, a))
  {
    var t := Next(s, a);
    forall o, o', p | HoldsFor(t, o, p) && HoldsFor(t, o', p)
      ensures o == o'
    {
      HoldersAfter(s, a, o, p);
      HoldersAfter(s, a, o', p);
    }
  }

  lemma RoutingKept(s: State, a: Step)
    requires Inv(s) && Enabled(s, a)
    ensures EveryReceiverRouted(Next(s, a))
  {
    var t := Next(s, a);
    forall o, p | HoldsFor(t, o, p)
      ensures p in t.reg.routes && t.reg.routes[p] == HeldChannel(t, o, p)
    {
      HoldersAfter(s, a, o, p);
      RoutesAfter(s, a, p);
      if Unregisters(s, a, p) {
        UnregisterIsByOwner(s, a, o, p);
      }
    }
  }

  lemma DeleteKeepsItsRoute(s: State, a: Step)
    requires Inv(s) && Enabled(s, a)
    ensures DeleteOwnsItsRoute(Next(s, a))
  {
    var t := Next(s, a);
    if t.reader.Unrouting? {
      var p := t.reader.p;
      RoutesAfter(s, a, p);
      if a.Delete? {
        assert HoldsFor(s, InPending, p);
      } else if Unregisters(s, a, p) {
        assert HoldsFor(s, InHandle(a.h), p);
      }
      forall o ensures !HoldsFor(t, o, p) {
        if HoldsFor(t, o, p) {
          HoldersAfter(s, a, o, p);
        }
      }
    }
  }

  lemma FramesKept(s: State, a: Step)
    requires Inv(s) && Enabled(s, a)
    ensures NothingLost(Next(s, a)) && SenderKnown(Next(s, a))
  {
    var t := Next(s, a);
    forall p | p in t.reg.routes
      ensures var c := t.reg.routes[p];
              c < |t.channels| && t.channels[c].start <= |Wire(t, p)|
              && t.channels[c].frames + InFlight(t, c) == Wire(t, p)[t.channels[c].start..]
    {
      RoutesAfter(s, a, p);
      if Registers(s, a, p) {
        NewChannelIsEmpty(s, a, p);
      } else {
        ChannelKept(s, a, p);
      }
    }
  }

  lemma NewChannelIsEmpty(s: State, a: Step, p: ProjectId)
    requires Enabled(s, a) && SenderKnown(s) && Registers(s, a, p)
    ensures var t, c := Next(s, a), |s.channels|;
            |t.channels| == c + 1 && t.channels[c] == Channel(|Wire(t, p)|, []) && InFlight(t, c) == []
  {
  }

  lemma RoutesStayDistinct(s: State, a: Step)
    requires Inv(s) && Enabled(s, a)
    ensures RoutesDistinct(Next(s, a))
  {
    var t := Next(s, a);
    forall p, q | p in t.reg.routes && q in t.reg.routes && t.reg.routes[p] == t.reg.routes[q]
      ensures p == q
    {
      RoutesAfter(s, a, p);
      RoutesAfter(s, a, q);
    }
  }

  lemma ChannelKept(s: State, a: Step, p: ProjectId)
    requires NothingLost(s) && RoutesDistinct(s) && Enabled(s, a) && p in s.reg.routes
    ensures var c := s.reg.routes[p];
            c < |Next(s, a).channels| && Next(s, a).channels[c].start <= |Wire(Next(s, a), p)|
            && Next(s, a).channels[c].frames + InFlight(Next(s, a), c)
               == Wire(Next(s, a), p)[Next(s, a).channels[c].start..]
  {
    var t := Next(s, a);
    var c := s.reg.routes[p];
    var ch := s.channels[c];
    assert ch.frames + InFlight(s, c) == Wire(s, p)[ch.start..];
    if a.ReadFrame? && a.p == p {
      assert ch.frames + [] == ch.frames;
      assert Wire(t, p)[ch.start..] == Wire(s, p)[ch.start..] + [a.f];
    } else if a.Deliver? && s.reader.c == c {
      assert t.channels[c].frames + [] == ch.frames + [s.reader.f];
    } else {
      ChannelUntouched(s, a, p);
    }
  }

  lemma ChannelUntouched(s: State, a: Step, p: ProjectId)
    requires NothingLost(s) && RoutesDistinct(s) && Enabled(s, a) && p in s.reg.routes
    requires !(a.ReadFrame? && a.p == p) && !(a.Deliver? && s.reader.c == s.reg.routes[p])
    ensures var c := s.reg.routes[p];
            c < |Next(s, a).channels| && Next(s, a).channels[c] == s.channels[c]
            && Wire(Next(s, a), p) == Wire(s, p) && InFlight(Next(s, a), c) == InFlight(s, c)
  {
    var c := s.reg.routes[p];
    assert c < |s.channels|;
    if OfReader(a) {
      ReaderLeavesChannel(s, a, p, c);
    } else {
      OtherLeavesChannel(s, a, p, c);
    }
  }

  lemma OtherLeavesChannel(s: State, a: Step, p: ProjectId, c: ChannelId)
    requires Enabled(s, a) && !OfReader(a) && c < |s.channels|
    ensures c < |Next(s, a).channels| && Next(s, a).channels[c] == s.channels[c]
    ensures Wire(Next(s, a), p) == Wire(s, p) && InFlight(Next(s, a), c) == InFlight(s, c)
  {
  }

  lemma ReaderLeavesChannel(s: State, a: Step, p: ProjectId, c: ChannelId)
    requires Enabled(s, a) && OfReader(a) && c < |s.channels| && RoutesDistinct(s)
    requires p in s.reg.routes && s.reg.routes[p] == c
    requires !(a.ReadFrame? && a.p == p) && !(a.Deliver? && s.reader.c == c)
    ensures c < |Next(s, a).channels| && Next(s, a).channels[c] == s.channels[c]
    ensures Wire(Next(s, a), p) == Wire(s, p) && InFlight(Next(s, a), c) == InFlight(s, c)
  {
  }

  lemma StepKeepsInv(s: State, a: Step)
    requires Inv(s) && Enabled(s, a)
    ensures Inv(Next(s, a))
  {
    ExclusionKept(s, a);
    RoutingKept(s, a);
    DeleteKeepsItsRoute(s, a);
    FramesKept(s, a);
    RoutesStayDistinct(s, a);
  }

  // -------------------------------------------------------------- whole runs

  lemma {:induction false} RunKeepsInv(s: State, run: seq<Step>, t: State)
    requires Inv(s) && Reaches(s, run, t)
    ensures Inv(t)
    decreases |run|
  {
    if run != [] {
      StepKeepsInv(s, run[0]);
      RunKeepsInv(Next(s, run[0]), run[1..], t);
    }
  }

  /** Under every interleaving: one receiver per project at most, and it has seen every frame of its
      project since registration, in wire order. */
  lemma ProjectReceiversAreExclusive(run: seq<Step>, t: State)
    requires Reaches(Init, run, t)
    ensures forall o, o', p :: HoldsFor(t, o, p) && HoldsFor(t, o', p) ==> o == o'
    ensures forall o, p :: HoldsFor(t, o, p) ==>
      var c := HeldChannel(t, o, p);
      p in t.reg.routes && t.reg.routes[p] == c && c < |t.channels| && t.channels[c].start <= |Wire(t, p)|
      && t.channels[c].frames + InFlight(t, c) == Wire(t, p)[t.channels[c].start..]
  {
    RunKeepsInv(Init, run, t);
  }

  /** No step of the reader ever takes a route away from an opener: what a delete unregisters is
      the route of the receiver it has itself removed. */
  lemma ReaderNeverUnroutesAnOpener(run: seq<Step>, t: State, a: Step, h: HandleId)
    requires Reaches(Init, run, t) && Enabled(t, a) && OfReader(a)
    requires h in t.openers && !t.openers[h].Missing?
    ensures h in Next(t, a).openers && Next(t, a).openers[h] == t.openers[h]
    ensures t.openers[h].p in Next(t, a).reg.routes
            && Next(t, a).reg.routes[t.openers[h].p] == t.openers[h].c
  {
    RunKeepsInv(Init, run, t);
    StepKeepsInv(t, a);
    assert HoldsFor(Next(t, a), InHandle(h), t.openers[h].p);
  }

  /** The rollback of a failed pre-registration is never taken: while the reader waits for its stream
      to become writable the writer is up, and so the registration succeeds. */
  lemma RollbackIsUnreachable(run: seq<Step>, t: State)
    requires Reaches(Init, run, t)
    ensures !t.reader.Rollback? && (t.reader.Parked? ==> t.writerUp)
    ensures Enabled(t, ReaderWritable) ==> Next(t, ReaderWritable) == t.(reader := Idle)
  {
    RunKeepsInv(Init, run, t);
  }

  // ------------------------------------------------------ what a caller gets

  /** With nothing in between, a project that is upserted without a route gets one, and its receiver is
      parked; one that has a route is left alone. */
  lemma UpsertParks(s: State, p: ProjectId)
    requires s.reader.Idle? && s.writerUp
    ensures p in s.reg.routes ==> Next(s, Upsert(p)) == s
    ensures p !in s.reg.routes ==>
      var a := Next(s, Upsert(p));
      && Enabled(a, InsertRoute)
      && var b := Next(a, InsertRoute);
         && Enabled(b, ParkReceiver)
         && var c := Next(b, ParkReceiver);
            && Enabled(c, ReaderWritable)
            && Next(c, ReaderWritable) ==
                 s.(channels := s.channels + [Channel(|Wire(s, p)|, [])],
                    reg := Registry(s.reg.routes[p := |s.channels|], s.reg.pending[p := |s.channels|]))
  {
  }

  /** A caller takes over a parked receiver, and no one else can. */
  lemma OpenTakesParked(s: State, p: ProjectId, h: HandleId)
    requires Enabled(s, OpenTake(h, p)) && p in s.reg.pending && s.writerUp
    ensures var a := Next(s, OpenTake(h, p));
      && p !in a.reg.pending && a.reg.routes == s.reg.routes && Enabled(a, OpenAccessed(h, true))
      && Next(a, OpenAccessed(h, true)) == a.(openers := s.openers[h := Live(p, s.reg.pending[p])])
  {
  }

  /** With nothing parked it gets a fresh channel, unless the project has a route already. */
  lemma OpenWithoutParked(s: State, p: ProjectId, h: HandleId)
    requires Enabled(s, OpenTake(h, p)) && p !in s.reg.pending && s.writerUp
    ensures var a := Next(s, OpenTake(h, p));
      && Enabled(a, OpenRegister(h))
      && var b := Next(a, OpenRegister(h));
         && (p in s.reg.routes ==> b.reg == s.reg && b.channels == s.channels && b.openers == s.openers)
         && (p !in s.reg.routes ==>
               && Enabled(b, OpenWritable(h)) && Enabled(Next(b, OpenWritable(h)), OpenAccessed(h, true))
               && Next(Next(b, OpenWritable(h)), OpenAccessed(h, true)) ==
                    s.(channels := s.channels + [Channel(|Wire(s, p)|, [])], openers := s.openers[h := Live(p, |s.channels|)],
                       reg := Registry(s.reg.routes[p := |s.channels|], s.reg.pending)))
  {
    assert p !in s.reg.routes ==> s.openers[h := Missing(p)][h := Registered(p, |s.channels|)] == s.openers[h := Registered(p, |s.channels|)];
  }

  /** A frame goes to the channel of its project's route, and nowhere without one. */
  lemma FrameIsDelivered(s: State, p: ProjectId, f: Frame)
    requires s.reader.Idle?
    ensures var a := Next(s, ReadFrame(p, f));
      && Wire(a, p) == Wire(s, p) + [f]
      && (p !in s.reg.routes ==> a == s.(wire := a.wire))
      && (p in s.reg.routes && s.reg.routes[p] < |s.channels| ==>
            && Enabled(a, Deliver)
            && var c := s.reg.routes[p];
               Next(a, Deliver) == s.(wire := a.wire, channels := s.channels[c := s.channels[c].(frames := s.channels[c].frames + [f])]))
  {
  }

  /** A delete, a failed or abandoned access and a dropped endpoint give the route back. */
  lemma RouteIsGivenBack(s: State, p: ProjectId, h: HandleId)
    ensures s.reader.Idle? && p in s.reg.pending ==>
      var a := Next(s, Delete(p));
      && Enabled(a, DeleteRoute)
      && Next(a, DeleteRoute) == s.(reg := Registry(s.reg.routes - {p}, s.reg.pending - {p}), reader := Idle)
    ensures s.reader.Idle? && p !in s.reg.pending ==> Next(s, Delete(p)) == s
    ensures h in s.openers && s.openers[h].Accessing? && s.openers[h].p == p ==>
      && Next(s, OpenAccessed(h, false)) == s.(reg := Registry(s.reg.routes - {p}, s.reg.pending), openers := s.openers - {h})
      && Next(s, OpenCancel(h)) == Next(s, OpenAccessed(h, false))
    ensures h in s.openers && s.openers[h].Live? && s.openers[h].p == p ==>
      Next(s, DropEndpoint(h)) == s.(reg := Registry(s.reg.routes - {p}, s.reg.pending), openers := s.openers - {h})
  {
  }

  /** What the end of the connection and of the last handle leave.  Had a stream not become writable, the
      two steps of the rollback would take back both the route and the receiver. */
  lemma EndsLeave(s: State)
    ensures s.reader.Idle? ==> Next(s, EndReader) == s.(reader := Ended)
    ensures s.reader.Ended? ==> Next(s, StopWriter) == s.(writerUp := false)
    ensures s.shared && s.openers == map[] && (s.reader.Idle? || s.reader.Ended?) ==>
      Enabled(s, Release) && Next(s, Release).reg == Registry(map[], map[]) && !Next(s, Release).shared && !Next(s, Release).writerUp
    ensures s.reader.Parked? && !s.writerUp ==>
      var a := Next(s, ReaderWritable);
      && Enabled(a, RollbackPending)
      && Next(a, RollbackPending).reg == Registry(s.reg.routes - {s.reader.p}, s.reg.pending - {s.reader.p})
  {
  }

  // ----------------------------------------------------------- orphaned routes

  ghost predicate Owned(s: State, p: ProjectId) {
    || (s.reader.Unrouting? && s.reader.p == p && p in s.reg.routes && s.reader.c == s.reg.routes[p])
    || exists o :: HoldsFor(s, o, p)
  }

  /** A route without a receiver, and without a delete about to remove it. */
  ghost predicate Orphan(s: State, p: ProjectId) {
    p in s.reg.routes && !Owned(s, p)
  }

  /** An `open_project` that ends between registering its route and building its endpoint: the writer
      has stopped, or the caller drops the future while it waits for the writer. */
  predicate LeavesOrphan(s: State, a: Step, p: ProjectId)
    requires Enabled(s, a)
  {
    && ((a.OpenWritable? && !s.writerUp) || (a.OpenCancel? && s.openers[a.h].Registered?))
    && s.openers[a.h].p == p
  }

  /** Where the receiver of `o` is after the step, when it still exists. */
  function Successor(s: State, a: Step, o: Holder, p: ProjectId): Holder
    requires Enabled(s, a)
  {
    if a.ParkReceiver? && o == InReader && p == s.reader.p then InPending
    else if a.OpenTake? && o == InPending && a.p == p then InHandle(a.h)
    else o
  }

  lemma HolderSurvives(s: State, a: Step, o: Holder, p: ProjectId)
    requires AtMostOneReceiver(s) && EveryReceiverRouted(s) && WriterOutlivesReader(s) && Enabled(s, a)
    requires HoldsFor(s, o, p) && !Unregisters(s, a, p) && !LeavesOrphan(s, a, p)
    ensures if a.Delete? && a.p == p && o == InPending then Next(s, a).reader == Unrouting(p, s.reg.routes[p])
            else HoldsFor(Next(s, a), Successor(s, a, o, p), p)
  {
    if a.OpenWritable? || a.OpenCancel? || a.OpenAccessed? || a.DropEndpoint? {
      assert s.openers[a.h].p == p ==> HoldsFor(s, InHandle(a.h), p);
    }
  }

  lemma OwnedUnlessLeft(s: State, a: Step, p: ProjectId)
    requires Inv(s) && Enabled(s, a) && Owned(s, p) && !LeavesOrphan(s, a, p)
    ensures !Orphan(Next(s, a), p)
  {
    var t := Next(s, a);
    RoutesAfter(s, a, p);
    if p in t.reg.routes {
      if !(s.reader.Unrouting? && s.reader.p == p) {
        var o :| HoldsFor(s, o, p);
        HolderSurvives(s, a, o, p);
      }
    }
  }

  lemma OrphanKeepsRoute(s: State, a: Step, p: ProjectId)
    requires Inv(s) && Enabled(s, a) && Orphan(s, p) && !a.Release?
    ensures p in Next(s, a).reg.routes
  {
    RoutesAfter(s, a, p);
    if Unregisters(s, a, p) && !a.DeleteRoute? && !a.ReaderWritable? {
      assert HoldsFor(s, InHandle(a.h), p);
    }
  }

  lemma OrphanGainsNoReceiver(s: State, a: Step, p: ProjectId, o: Holder)
    requires Inv(s) && Enabled(s, a) && Orphan(s, p) && !a.Release?
    ensures !HoldsFor(Next(s, a), o, p)
  {
    if HoldsFor(Next(s, a), o, p) {
      HoldersAfter(s, a, o, p);
    }
  }

  lemma OrphanIsNotUnrouted(s: State, a: Step, p: ProjectId)
    requires Inv(s) && Enabled(s, a) && Orphan(s, p)
    ensures var t := Next(s, a); t.reader.Unrouting? ==> t.reader.p != p || s.reader == t.reader
  {
    UnroutingBegins(s, a);
    assert p in s.reg.pending ==> HoldsFor(s, InPending, p);
  }

  /** Only a delete of a parked receiver starts to unregister a route. */
  lemma UnroutingBegins(s: State, a: Step)
    requires Enabled(s, a)
    ensures var t := Next(s, a);
      t.reader.Unrouting? ==> s.reader == t.reader || (a.Delete? && a.p == t.reader.p && a.p in s.reg.pending)
  {
  }

  lemma OrphanStays(s: State, a: Step, p: ProjectId)
    requires Inv(s) && Enabled(s, a) && Orphan(s, p) && !a.Release?
    ensures Orphan(Next(s, a), p)
  {
    var t := Next(s, a);
    OrphanKeepsRoute(s, a, p);
    OrphanIsNotUnrouted(s, a, p);
    forall o ensures !HoldsFor(t, o, p) {
      OrphanGainsNoReceiver(s, a, p, o);
    }
  }

  lemma LeftIsOrphan(s: State, a: Step, p: ProjectId)
    requires Inv(s) && Enabled(s, a) && LeavesOrphan(s, a, p)
    ensures Orphan(Next(s, a), p)
  {
    var t := Next(s, a);
    assert HoldsFor(s, InHandle(a.h), p);
    forall o ensures !HoldsFor(t, o, p) {
      if HoldsFor(t, o, p) {
        assert HoldsFor(s, o, p);
      }
    }
  }

  lemma NewRouteIsOwned(s: State, a: Step, p: ProjectId)
    requires Inv(s) && Enabled(s, a) && p !in s.reg.routes
    ensures !Orphan(Next(s, a), p)
  {
    RoutesAfter(s, a, p);
    if Registers(s, a, p) {
      assert HoldsFor(Next(s, a), if a.InsertRoute? then InReader else InHandle(a.h), p);
    }
  }

  /** A step leaves an orphaned route exactly when it was orphaned before, or the step is an
      `open_project` ending between its registration and its endpoint. */
  lemma OrphanAfterStepIff(s: State, a: Step, p: ProjectId)
    requires Inv(s) && Enabled(s, a) && !a.Release?
    ensures Orphan(Next(s, a), p) <==> Orphan(s, p) || LeavesOrphan(s, a, p)
  {
    if Orphan(s, p) {
      OrphanStays(s, a, p);
    } else if LeavesOrphan(s, a, p) {
      LeftIsOrphan(s, a, p);
    } else if p in s.reg.routes {
      OwnedUnlessLeft(s, a, p);
    } else {
      NewRouteIsOwned(s, a, p);
    }
  }

  /** Some step of the run is an `open_project` of `p` ending before its endpoint. */
  predicate Abandons(s: State, run: seq<Step>, p: ProjectId)
    decreases |run|
  {
    run != [] && Enabled(s, run[0]) && (LeavesOrphan(s, run[0], p) || Abandons(Next(s, run[0]), run[1..], p))
  }

  lemma {:induction false} OrphanAfterRunIff(s: State, run: seq<Step>, t: State, p: ProjectId)
    requires Inv(s) && Reaches(s, run, t) && forall i :: 0 <= i < |run| ==> !run[i].Release?
    ensures Orphan(t, p) <==> Orphan(s, p) || Abandons(s, run, p)
    decreases |run|
  {
    if run != [] {
      OrphanAfterStepIff(s, run[0], p);
      StepKeepsInv(s, run[0]);
      OrphanAfterRunIff(Next(s, run[0]), run[1..], t, p);
    }
  }

  /** While the shared object is held a project's route has no receiver exactly when some earlier
      `open_project` of it ended between registering the route and building the endpoint.  That is
      final: no receiver of the project ever exists again, and every later open is refused. */
  lemma OrphansAreAbandonedOpens(run: seq<Step>, t: State, p: ProjectId, later: seq<Step>, u: State)
    requires Reaches(Init, run, t) && forall i :: 0 <= i < |run| ==> !run[i].Release?
    requires Reaches(t, later, u) && forall i :: 0 <= i < |later| ==> !later[i].Release?
    ensures Orphan(t, p) <==> Abandons(Init, run, p)
    ensures Abandons(Init, run, p) ==> Orphan(u, p) && forall o :: !HoldsFor(u, o, p)
    ensures Abandons(Init, run, p) ==> forall h :: Enabled(u, OpenRegister(h)) && u.openers[h].p == p ==>
      Next(u, OpenRegister(h)) == u.(openers := u.openers - {h})
  {
    OrphanAfterRunIff(Init, run, t, p);
    RunKeepsInv(Init, run, t);
    OrphanAfterRunIff(t, later, u, p);
    if Orphan(u, p) {
      OrphanIsClosed(u, p);
    }
  }

  lemma OrphanIsClosed(u: State, p: ProjectId)
    requires Orphan(u, p)
    ensures forall o :: !HoldsFor(u, o, p)
    ensures forall h :: Enabled(u, OpenRegister(h)) && u.openers[h].p == p ==>
      Next(u, OpenRegister(h)) == u.(openers := u.openers - {h})
  {
    assert !Owned(u, p);
  }

  /** An `open_project` that has registered its route and waits for the writer. */
  function Waiting(p: ProjectId): State {
    Init.(reg := Registry(map[p := 0], map[]), channels := [Channel(0, [])], openers := map[0 := Registered(p, 0)])
  }

  lemma WaitingIsReachable(p: ProjectId)
    ensures Reaches(Init, [OpenTake(0, p), OpenRegister(0)], Waiting(p))
  {
    var s := Init.(openers := map[0 := Missing(p)]);
    ReachesOneMore(Init, [], Init, OpenTake(0, p));
    assert Next(Init, OpenTake(0, p)) == s;
    ReachesOneMore(Init, [] + [OpenTake(0, p)], s, OpenRegister(0));
    assert [] + [OpenTake(0, p)] + [OpenRegister(0)] == [OpenTake(0, p), OpenRegister(0)];
    assert Next(s, OpenRegister(0)) == Waiting(p);
  }

  /** Both ways to leave an orphan are reachable: a caller gives up while the writer is up, or the
      connection ends while a caller waits. */
  lemma OrphanIsReachable(p: ProjectId) returns (cancelled: seq<Step>, t: State, ended: seq<Step>, u: State)
    ensures Reaches(Init, cancelled, t) && Orphan(t, p) && t.writerUp
    ensures Reaches(Init, ended, u) && Orphan(u, p) && !u.writerUp
    ensures forall i :: 0 <= i < |cancelled| ==> !cancelled[i].Release?
    ensures forall i :: 0 <= i < |ended| ==> !ended[i].Release?
  {
    WaitingIsReachable(p);
    cancelled, t := LeftAt(p, [OpenTake(0, p), OpenRegister(0)], Waiting(p), OpenCancel(0));
    StoppedIsReachable(p);
    ended, u := LeftAt(p, [OpenTake(0, p), OpenRegister(0), EndReader, StopWriter], Stopped(p), OpenWritable(0));
  }

  /** The same after the connection has ended. */
  function Stopped(p: ProjectId): State {
    Waiting(p).(reader := Ended, writerUp := false)
  }

  lemma StoppedIsReachable(p: ProjectId)
    ensures Reaches(Init, [OpenTake(0, p), OpenRegister(0), EndReader, StopWriter], Stopped(p))
  {
    var run := [OpenTake(0, p), OpenRegister(0)];
    var s := Waiting(p).(reader := Ended);
    WaitingIsReachable(p);
    ReachesOneMore(Init, run, Waiting(p), EndReader);
    assert Next(Waiting(p), EndReader) == s;
    ReachesOneMore(Init, run + [EndReader], s, StopWriter);
    assert Next(s, StopWriter) == Stopped(p);
    assert run + [EndReader] + [StopWriter] == [OpenTake(0, p), OpenRegister(0), EndReader, StopWriter];
  }

  lemma LeftAt(p: ProjectId, run: seq<Step>, s: State, a: Step) returns (longer: seq<Step>, t: State)
    requires Reaches(Init, run, s) && Enabled(s, a) && LeavesOrphan(s, a, p)
    ensures longer == run + [a] && Reaches(Init, longer, t) && Orphan(t, p) && t.writerUp == s.writerUp
  {
    ReachesOneMore(Init, run, s, a);
    RunKeepsInv(Init, run, s);
    LeftIsOrphan(s, a, p);
    longer, t := run + [a], Next(s, a);
  }

  lemma {:induction false} ReachesOneMore(s: State, run: seq<Step>, t: State, a: Step)
    requires Reaches(s, run, t) && Enabled(t, a)
    ensures Reaches(s, run + [a], Next(t, a))
    decreases |run|
  {
    if run == [] {
      assert [a][1..] == [];
    } else {
      ReachesOneMore(Next(s, run[0]), run[1..], t, a);
      assert (run + [a])[1..] == run[1..] + [a];
    }
  }
}
