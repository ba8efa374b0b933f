// The agent-control runtime: one loop takes commands and host events, keeps a
// snapshot of all agents, and publishes it.  Spawned agents become "direct" and
// only direct agents may be addressed.
module AgentControl {

  datatype Option<+T> = None | Some(value: T)

  type AgentId = string
  type SpawnId = nat

  datatype Activity = Thinking | AwaitingUser | OtherActivity
  datatype Status = StatusFailed | StatusAwaitingUser | StatusThinking | StatusIdle

  datatype AgentState = AgentState(
    name: string, backend: string, roots: seq<string>, project: Option<string>, parent: Option<AgentId>,
    isThinking: bool, turnCompleted: bool, activity: Activity, terminated: bool, lastError: Option<string>)
  {
    predicate IsActive() {
      !terminated && (isThinking || !turnCompleted)
    }

    function Status(): Status {
      if terminated && lastError.Some? then StatusFailed
      else if !terminated && activity == AwaitingUser then StatusAwaitingUser
      else if IsActive() then StatusThinking
      else StatusIdle
    }
  }

  datatype Snapshot = Snapshot(
    agents: map<AgentId, AgentState>, direct: set<AgentId>, error: Option<string>, version: nat)

  const EmptySnapshot := Snapshot(map[], {}, None, 0)
  const MAX_U64 := 0xFFFF_FFFF_FFFF_FFFF

  // ---------------------------------------------------------------- envelopes

  datatype NewAgent = NewAgent(
    id: AgentId, name: string, backend: string, roots: seq<string>, project: Option<string>,
    parent: Option<AgentId>, activity: Activity)

  datatype Chat =
    | Typing(on: bool)
    | StreamStart
    | StreamEnd
    | Cancelled
    | MessageAdded(fromAssistantOrError: bool)
    | OtherChat

  datatype BootItem = BootChat(chat: Chat) | BootError(message: string, fatal: bool) | BootOther

  datatype Envelope =
    | HostBootstrap(agents: seq<NewAgent>)
    | Announced(agent: NewAgent)
    | AgentBootstrap(id: AgentId, items: seq<BootItem>, activity: Activity)
    | ActivityChanged(id: AgentId, activity: Activity)
    | ChatEvent(id: AgentId, chat: Chat)
    | AgentError(id: AgentId, message: string, fatal: bool)
    | Renamed(id: AgentId, name: string)
    | Moved(id: AgentId, project: Option<string>, roots: seq<string>)
    | OtherEnvelope

  type Agents = map<AgentId, AgentState>

  function Fresh(n: NewAgent): AgentState {
    AgentState(n.name, n.backend, n.roots, n.project, n.parent, false, false, n.activity, false, None)
  }

  function AfterChat(a: AgentState, c: Chat): AgentState {
    match c
    case Typing(on) => a.(isThinking := on)
    case StreamStart => a.(lastError := None)
    case StreamEnd => a.(turnCompleted := true, lastError := None)
    case Cancelled => a.(turnCompleted := true)
    case MessageAdded(fromAssistantOrError) => if fromAssistantOrError then a.(turnCompleted := true) else a
    case OtherChat => a
  }

  function AfterError(a: AgentState, message: string, fatal: bool): AgentState {
    var b := a.(lastError := Some(message));
    if fatal || message == "agent not running"
    then b.(isThinking := false, turnCompleted := true, terminated := true) else b
  }

  function AfterItems(a: AgentState, items: seq<BootItem>): AgentState {
    if items == [] then a
    else
      var b := AfterItems(a, items[..|items| - 1]);
      match items[|items| - 1]
      case BootChat(c) => AfterChat(b, c)
      case BootError(m, f) => AfterError(b, m, f)
      case BootOther => b
  }

  function AddAll(m: Agents, ns: seq<NewAgent>): Agents {
    if ns == [] then m else AddAll(m, ns[..|ns| - 1])[ns[|ns| - 1].id := Fresh(ns[|ns| - 1])]
  }

  /** The envelope names an agent the code insists on knowing. */
  predicate Panics(m: Agents, e: Envelope) {
    (e.AgentBootstrap? || e.ChatEvent? || e.AgentError? || e.Renamed?) && e.id !in m
  }

  function Apply(m: Agents, e: Envelope): Agents
    requires !Panics(m, e)
  {
    match e
    case HostBootstrap(ns) => AddAll(m, ns)
    case Announced(n) => m[n.id := Fresh(n)]
    case AgentBootstrap(id, items, activity) => m[id := AfterItems(m[id], items).(activity := activity)]
    case ActivityChanged(id, activity) => if id in m then m[id := m[id].(activity := activity)] else m
    case ChatEvent(id, c) => m[id := AfterChat(m[id], c)]
    case AgentError(id, message, fatal) => m[id := AfterError(m[id], message, fatal)]
    case Renamed(id, name) => m[id := m[id].(name := name)]
    case Moved(id, project, roots) => if id in m then m[id := m[id].(project := project, roots := roots)] else m
    case OtherEnvelope => m
  }

  // ------------------------------------------------------------------ spawns

  datatype Spawn = Spawn(
    id: SpawnId, name: Option<string>, backend: string, roots: seq<string>, project: Option<string>,
    parent: Option<AgentId>)

  predicate Matches(p: Spawn, n: NewAgent) {
    (p.name.None? || n.name == p.name.value) && n.backend == p.backend && n.roots == p.roots
    && n.project == p.project && n.parent == p.parent
  }

  datatype Reply = Spawned(agent: AgentId, status: Status) | Refused

  /** An agent became direct because this announcement matched this spawn. */
  datatype Grant = Grant(spawn: Spawn, agent: NewAgent)

  /** `unpublished`: the loop has changed the snapshot and is about to publish it. */
  datatype State = State(
    agents: Agents, direct: set<AgentId>, error: Option<string>, version: nat,
    pending: Option<Spawn>, unpublished: bool, ready: bool, closed: bool,
    published: seq<Snapshot>, issued: set<SpawnId>, sent: seq<Spawn>,
    replies: seq<(SpawnId, Reply)>, grants: seq<Grant>)

  const Init := State(map[], {}, None, 0, None, false, false, false, [EmptySnapshot], {}, [], [], [])

  datatype Step =
    | BootEvent(e: Envelope)
    | BootDone
    | BootFail(message: string)
    | SpawnCommand(spawn: Spawn, written: bool)
    | SendCommand(agent: AgentId, written: bool)
    | HostEvent(e: Envelope)
    | Publish
    | HostGone(message: string)
    | CommandsGone

  predicate Enabled(s: State, a: Step) {
    !s.closed &&
    match a
    case BootEvent(_) => !s.ready && !s.unpublished
    case BootDone => !s.ready && !s.unpublished
    case BootFail(_) => !s.ready && !s.unpublished
    case Publish => s.unpublished
    case SpawnCommand(p, _) => s.ready && !s.unpublished && p.id !in s.issued
    case _ => s.ready && !s.unpublished
  }

  function Current(s: State): Snapshot {
    Snapshot(s.agents, s.direct, s.error, s.version)
  }

  function Published(s: State): State {
    var t := s.(version := if s.version < MAX_U64 then s.version + 1 else s.version, unpublished := false);
    t.(published := t.published + [Current(t)])
  }

  function AfterAnnouncement(s: State, n: NewAgent): State {
    if s.pending.None? || !Matches(s.pending.value, n) then s
    else
      var t := s.(pending := None, direct := s.direct + {n.id}, grants := s.grants + [Grant(s.pending.value, n)]);
      // "announced agent missing from runtime snapshot"
      if n.id !in s.agents then t.(replies := t.replies + [(s.pending.value.id, Refused)], unpublished := false)
      else t.(replies := t.replies + [(s.pending.value.id, Spawned(n.id, s.agents[n.id].Status()))])
  }

  function Next(s: State, a: Step): State
    requires Enabled(s, a)
  {
    match a
    case BootEvent(e) =>
      if Panics(s.agents, e) then s.(closed := true)
      else s.(agents := Apply(s.agents, e), unpublished := true)
    case BootDone => s.(ready := true)
    case BootFail(m) =>
      var t := s.(error := Some(m));
      t.(published := t.published + [Current(t)], closed := true)
    case SpawnCommand(p, written) =>
      var t := s.(issued := s.issued + {p.id});
      if s.pending.Some? || !written then t.(replies := t.replies + [(p.id, Refused)])
      else t.(pending := Some(p), sent := t.sent + [p])
    case SendCommand(id, written) =>
      if id !in s.agents || !written then s
      else s.(agents := s.agents[id := s.agents[id].(turnCompleted := false, activity := Thinking)],
              unpublished := true)
    case HostEvent(e) =>
      if Panics(s.agents, e) then s.(closed := true)
      else
        var t := s.(agents := Apply(s.agents, e), unpublished := true);
        if e.Announced? then AfterAnnouncement(t, e.agent) else t
    case Publish => Published(s)
    case HostGone(m) =>
      var t := s.(error := Some(m), pending := None,
                  replies := if s.pending.Some? then s.replies + [(s.pending.value.id, Refused)] else s.replies);
      Published(t).(closed := true)
    case CommandsGone => s.(closed := true)
  }

  ghost predicate Reaches(s: State, run: seq<Step>, t: State)
    decreases |run|
  {
    if run == [] then s == t
    else Enabled(s, run[0]) && Reaches(Next(s, run[0]), run[1..], t)
  }

  // --------------------------------------------------------------- invariant

  predicate Grows(a: Snapshot, b: Snapshot) {
    a.agents.Keys <= b.agents.Keys && a.direct <= b.direct
  }

  ghost predicate DirectRight(s: State) {
    && s.direct <= s.agents.Keys
    && (forall id :: id in s.direct <==> exists k :: 0 <= k < |s.grants| && s.grants[k].agent.id == id)
    && (forall k :: 0 <= k < |s.grants| ==> Matches(s.grants[k].spawn, s.grants[k].agent))
  }

  /** Grants, the pending spawn and refused spawns use up distinct sent spawns. */
  ghost predicate SpawnsRight(s: State) {
    && (forall i, j :: 0 <= i < j < |s.sent| ==> s.sent[i].id != s.sent[j].id)
    && (forall i :: 0 <= i < |s.sent| ==> s.sent[i].id in s.issued)
    && (forall k :: 0 <= k < |s.grants| ==> s.grants[k].spawn in s.sent && Replied(s, s.grants[k].spawn.id))
    && (forall i, j :: 0 <= i < j < |s.grants| ==> s.grants[i].spawn.id != s.grants[j].spawn.id)
    && (s.pending.Some? ==> s.pending.value in s.sent && !Replied(s, s.pending.value.id))
  }

  ghost predicate Replied(s: State, id: SpawnId) {
    exists k :: 0 <= k < |s.replies| && s.replies[k].0 == id
  }

  ghost predicate RepliesRight(s: State) {
    && (forall k :: 0 <= k < |s.replies| ==> s.replies[k].0 in s.issued)
    && (forall i, j :: 0 <= i < j < |s.replies| ==> s.replies[i].0 != s.replies[j].0)
    && (forall k :: 0 <= k < |s.replies| && s.replies[k].1.Spawned? ==> s.replies[k].1.agent in s.direct)
  }

  ghost predicate PublishedRight(s: State) {
    && |s.published| > 0
    && (forall i, j :: 0 <= i <= j < |s.published| ==> Grows(s.published[i], s.published[j]))
    && Grows(s.published[|s.published| - 1], Current(s))
    && (!s.unpublished && !s.closed ==> s.published[|s.published| - 1].direct == s.direct
                                        && s.published[|s.published| - 1].agents == s.agents)
  }

  ghost predicate Inv(s: State) {
    DirectRight(s) && SpawnsRight(s) && RepliesRight(s) && PublishedRight(s)
  }

  lemma {:induction false} AddAllGrows(m: Agents, ns: seq<NewAgent>)
    ensures m.Keys <= AddAll(m, ns).Keys
  {
    if ns != [] {
      AddAllGrows(m, ns[..|ns| - 1]);
    }
  }

  lemma ApplyGrows(m: Agents, e: Envelope)
    requires !Panics(m, e)
    ensures m.Keys <= Apply(m, e).Keys
    ensures e.Announced? ==> e.agent.id in Apply(m, e)
  {
    if e.HostBootstrap? {
      AddAllGrows(m, e.agents);
    }
  }

  lemma PublishedStays(s: State, t: State)
    requires PublishedRight(s) && t.published == s.published && Grows(Current(s), Current(t))
    requires t.unpublished || t.closed || (t.agents == s.agents && t.direct == s.direct && !s.unpublished && !s.closed)
    ensures PublishedRight(t)
  {
  }

  lemma PublishedMore(s: State, t: State)
    requires PublishedRight(s) && t.published == s.published + [Current(t)] && Grows(Current(s), Current(t))
    ensures PublishedRight(t)
  {
  }

  lemma NextKeepsPublished(s: State, a: Step)
    requires PublishedRight(s) && Enabled(s, a)
    ensures PublishedRight(Next(s, a))
  {
    var t := Next(s, a);
    if (a.BootEvent? || a.HostEvent?) && !Panics(s.agents, a.e) {
      ApplyGrows(s.agents, a.e);
      PublishedStays(s, t);
    } else if a.Publish? || a.HostGone? || a.BootFail? {
      PublishedMore(s, t);
    } else {
      PublishedStays(s, t);
    }
  }

  lemma RepliedMore(s: State, r: (SpawnId, Reply), t: State, id: SpawnId)
    requires t.replies == s.replies + [r]
    ensures Replied(t, id) <==> Replied(s, id) || id == r.0
  {
    assert t.replies[|s.replies|] == r;
    if k :| 0 <= k < |s.replies| && s.replies[k].0 == id {
      assert t.replies[k].0 == id;
    }
  }

  /** The parts of the state the spawn protocol is about. */
  predicate SameSpawns(s: State, t: State) {
    t.pending == s.pending && t.direct == s.direct && t.issued == s.issued && t.sent == s.sent
    && t.replies == s.replies && t.grants == s.grants && s.agents.Keys <= t.agents.Keys
  }

  lemma SameSpawnsKept(s: State, t: State)
    requires DirectRight(s) && SpawnsRight(s) && RepliesRight(s) && SameSpawns(s, t)
    ensures DirectRight(t) && SpawnsRight(t) && RepliesRight(t)
  {
  }

  lemma RefusalKept(s: State, id: SpawnId, t: State)
    requires DirectRight(s) && SpawnsRight(s) && RepliesRight(s)
    requires t.replies == s.replies + [(id, Refused)] && !Replied(s, id)
    requires id in t.issued && s.issued <= t.issued
    requires t.direct == s.direct && t.sent == s.sent && t.grants == s.grants && s.agents.Keys <= t.agents.Keys
    requires t.pending == None || (t.pending == s.pending && s.pending.Some? && s.pending.value.id != id)
    ensures DirectRight(t) && SpawnsRight(t) && RepliesRight(t)
  {
    forall i {:trigger Replied(t, i)} ensures Replied(t, i) <==> Replied(s, i) || i == id {
      RepliedMore(s, (id, Refused), t, i);
    }
  }

  lemma SpawnSentKept(s: State, p: Spawn, t: State)
    requires DirectRight(s) && SpawnsRight(s) && RepliesRight(s) && p.id !in s.issued && s.pending.None?
    requires t == s.(issued := s.issued + {p.id}, pending := Some(p), sent := s.sent + [p])
    ensures DirectRight(t) && SpawnsRight(t) && RepliesRight(t)
  {
  }

  predicate IsGrant(s: State, n: NewAgent, status: Status, t: State) {
    s.pending.Some? && Matches(s.pending.value, n) && n.id in s.agents
    && t == s.(pending := None, direct := s.direct + {n.id}, grants := s.grants + [Grant(s.pending.value, n)],
               replies := s.replies + [(s.pending.value.id, Spawned(n.id, status))])
  }

  lemma GrantKeepsDirect(s: State, n: NewAgent, t: State, status: Status)
    requires DirectRight(s) && IsGrant(s, n, status, t)
    ensures DirectRight(t)
  {
    assert t.grants[|s.grants|] == Grant(s.pending.value, n);
    forall id ensures id in t.direct <==> exists k :: 0 <= k < |t.grants| && t.grants[k].agent.id == id {
      if id in s.direct {
        var k :| 0 <= k < |s.grants| && s.grants[k].agent.id == id;
        assert t.grants[k].agent.id == id;
      }
    }
  }

  lemma GrantKeepsSpawns(s: State, n: NewAgent, t: State, status: Status)
    requires SpawnsRight(s) && IsGrant(s, n, status, t)
    ensures SpawnsRight(t)
  {
    var p := s.pending.value;
    forall i: SpawnId {:trigger Replied(t, i)} ensures Replied(t, i) <==> Replied(s, i) || i == p.id {
      RepliedMore(s, (p.id, Spawned(n.id, status)), t, i);
    }
    forall k | 0 <= k < |t.grants|
      ensures t.grants[k].spawn in t.sent && Replied(t, t.grants[k].spawn.id)
    {
      if k < |s.grants| {
        assert t.grants[k] == s.grants[k];
      }
    }
  }

  lemma GrantKeepsReplies(s: State, n: NewAgent, t: State, status: Status)
    requires RepliesRight(s) && SpawnsRight(s) && IsGrant(s, n, status, t)
    ensures RepliesRight(t)
  {
  }

  lemma NextKeepsSpawns(s: State, a: Step)
    requires Inv(s) && Enabled(s, a)
    ensures DirectRight(Next(s, a)) && SpawnsRight(Next(s, a)) && RepliesRight(Next(s, a))
  {
    var t := Next(s, a);
    if a.SpawnCommand? {
      if s.pending.Some? || !a.written {
        RefusalKept(s, a.spawn.id, t);
      } else {
        SpawnSentKept(s, a.spawn, t);
      }
    } else if a.HostGone? && s.pending.Some? {
      RefusalKept(s, s.pending.value.id, t);
    } else if a.HostEvent? && !Panics(s.agents, a.e) {
      HostEventKeepsSpawns(s, a.e);
    } else {
      if a.BootEvent? && !Panics(s.agents, a.e) {
        ApplyGrows(s.agents, a.e);
      }
      SameSpawnsKept(s, t);
    }
  }

  lemma HostEventKeepsSpawns(s: State, e: Envelope)
    requires Inv(s) && Enabled(s, HostEvent(e)) && !Panics(s.agents, e)
    ensures var t := Next(s, HostEvent(e)); DirectRight(t) && SpawnsRight(t) && RepliesRight(t)
  {
    ApplyGrows(s.agents, e);
    var m := s.(agents := Apply(s.agents, e), unpublished := true);
    SameSpawnsKept(s, m);
    if e.Announced? && m.pending.Some? && Matches(m.pending.value, e.agent) {
      var t, status := AfterAnnouncement(m, e.agent), m.agents[e.agent.id].Status();
      GrantKeepsDirect(m, e.agent, t, status);
      GrantKeepsSpawns(m, e.agent, t, status);
      GrantKeepsReplies(m, e.agent, t, status);
    }
  }

  lemma {:induction false} RunKeepsInv(s: State, run: seq<Step>, t: State)
    requires Inv(s) && Reaches(s, run, t)
    ensures Inv(t)
    decreases |run|
  {
    if run != [] {
      NextKeepsSpawns(s, run[0]);
      NextKeepsPublished(s, run[0]);
      RunKeepsInv(Next(s, run[0]), run[1..], t);
    }
  }

  // ------------------------------------------------- an agent from its history

  /** What happens to one agent. */
  datatype Touch =
    | Created(n: NewAgent)
    | Said(chat: Chat)
    | Erred(message: string, fatal: bool)
    | Told                                   // a message was sent to it
    | NowDoing(activity: Activity)
    | NowNamed(name: string)
    | NowIn(project: Option<string>, roots: seq<string>)

  function ItemTouch(item: BootItem): seq<Touch> {
    match item
    case BootChat(c) => [Said(c)]
    case BootError(m, f) => [Erred(m, f)]
    case BootOther => []
  }

  function ItemTouches(items: seq<BootItem>): seq<Touch> {
    if items == [] then [] else ItemTouches(items[..|items| - 1]) + ItemTouch(items[|items| - 1])
  }

  function Creations(ns: seq<NewAgent>, id: AgentId): seq<Touch> {
    if ns == [] then []
    else Creations(ns[..|ns| - 1], id) + if ns[|ns| - 1].id == id then [Created(ns[|ns| - 1])] else []
  }

  /** What an envelope tells about an agent. */
  function Touches(e: Envelope, id: AgentId): seq<Touch> {
    match e
    case HostBootstrap(ns) => Creations(ns, id)
    case Announced(n) => if n.id == id then [Created(n)] else []
    case AgentBootstrap(a, items, activity) => if a == id then ItemTouches(items) + [NowDoing(activity)] else []
    case ActivityChanged(a, activity) => if a == id then [NowDoing(activity)] else []
    case ChatEvent(a, c) => if a == id then [Said(c)] else []
    case AgentError(a, m, f) => if a == id then [Erred(m, f)] else []
    case Renamed(a, name) => if a == id then [NowNamed(name)] else []
    case Moved(a, project, roots) => if a == id then [NowIn(project, roots)] else []
    case OtherEnvelope => []
  }

  function StepTouches(a: Step, id: AgentId): seq<Touch> {
    match a
    case BootEvent(e) => Touches(e, id)
    case HostEvent(e) => Touches(e, id)
    case SendCommand(agent, written) => if agent == id && written then [Told] else []
    case _ => []
  }

  /** Everything that happened to an agent in a run. */
  function History(run: seq<Step>, id: AgentId): seq<Touch> {
    if run == [] then [] else History(run[..|run| - 1], id) + StepTouches(run[|run| - 1], id)
  }

  /** The error says that the agent is gone. */
  predicate Terminates(t: Touch) {
    t.Erred? && (t.fatal || t.message == "agent not running")
  }

  predicate EndsTurn(t: Touch) {
    t == Said(StreamEnd) || t == Said(Cancelled) || t == Said(MessageAdded(true)) || Terminates(t)
  }

  /** Which touches decide a field of the agent. */
  datatype Field = TurnField | ThinkingField | TerminatedField | ErrorField | ActivityField | NameField | PlaceField | KindField

  predicate Sets(t: Touch, f: Field) {
    t.Created? ||
    match f
    case TurnField => t.Told? || EndsTurn(t)
    case ThinkingField => (t.Said? && t.chat.Typing?) || Terminates(t)
    case TerminatedField => Terminates(t)
    case ErrorField => t.Erred? || t == Said(StreamStart) || t == Said(StreamEnd)
    case ActivityField => t.NowDoing? || t.Told?
    case NameField => t.NowNamed?
    case PlaceField => t.NowIn?
    case KindField => false
  }

  /** The field is as its last setter left it. */
  predicate IsAfter(a: AgentState, t: Touch, f: Field)
    requires Sets(t, f)
  {
    match f
    case TurnField => a.turnCompleted <==> EndsTurn(t)
    case ThinkingField => a.isThinking <==> t == Said(Typing(true))
    case TerminatedField => a.terminated <==> Terminates(t)
    case ErrorField => a.lastError == if t.Erred? then Some(t.message) else None
    case ActivityField => a.activity == (if t.Created? then t.n.activity else if t.NowDoing? then t.activity else Thinking)
    case NameField => a.name == if t.Created? then t.n.name else t.name
    case PlaceField =>
      a.project == (if t.Created? then t.n.project else t.project) && a.roots == (if t.Created? then t.n.roots else t.roots)
    case KindField => t.Created? && a.backend == t.n.backend && a.parent == t.n.parent
  }

  /** The last of the touches that decide the field. */
  predicate LastSetter(h: seq<Touch>, f: Field, i: int) {
    0 <= i < |h| && Sets(h[i], f) && forall j :: i < j < |h| ==> !Sets(h[j], f)
  }

  /** Every field of the agent is what the last touch to decide it made of it. */
  ghost predicate IsFrom(a: AgentState, h: seq<Touch>) {
    forall f, i :: LastSetter(h, f, i) ==> IsAfter(a, h[i], f)
  }

  predicate WasCreated(h: seq<Touch>) {
    exists i :: 0 <= i < |h| && h[i].Created?
  }

  /** One touch after the other. */
  function AfterTouch(a: Option<AgentState>, t: Touch): Option<AgentState> {
    if t.Created? then Some(Fresh(t.n))
    else if a.None? then None
    else
      match t
      case Said(c) => Some(AfterChat(a.value, c))
      case Erred(m, f) => Some(AfterError(a.value, m, f))
      case Told => Some(a.value.(turnCompleted := false, activity := Thinking))
      case NowDoing(activity) => Some(a.value.(activity := activity))
      case NowNamed(name) => Some(a.value.(name := name))
      case NowIn(project, roots) => Some(a.value.(project := project, roots := roots))
  }

  function AfterTouches(a: Option<AgentState>, h: seq<Touch>): Option<AgentState> {
    if h == [] then a else AfterTouch(AfterTouches(a, h[..|h| - 1]), h[|h| - 1])
  }

  function AgentAt(m: Agents, id: AgentId): Option<AgentState> {
    if id in m then Some(m[id]) else None
  }

  lemma LastSetterOneMore(h: seq<Touch>, t: Touch, f: Field, i: int)
    ensures LastSetter(h + [t], f, i) <==> if Sets(t, f) then i == |h| else LastSetter(h, f, i)
  {
    var g := h + [t];
    assert g[|h|] == t && forall j :: 0 <= j < |h| ==> g[j] == h[j];
  }

  lemma TouchIsLaw(a: Option<AgentState>, t: Touch, f: Field)
    requires a.Some? || t.Created?
    ensures AfterTouch(a, t).Some?
    ensures Sets(t, f) ==> IsAfter(AfterTouch(a, t).value, t, f)
    ensures !Sets(t, f) ==> forall u :: Sets(u, f) && IsAfter(a.value, u, f) ==> IsAfter(AfterTouch(a, t).value, u, f)
  {
  }

  /** An agent that was created is what its history says, and otherwise there is none. */
  lemma {:induction false} HistoryMakes(h: seq<Touch>)
    ensures AfterTouches(None, h).Some? <==> WasCreated(h)
    ensures WasCreated(h) ==> IsFrom(AfterTouches(None, h).value, h)
  {
    if h != [] {
      var g, t := h[..|h| - 1], h[|h| - 1];
      assert h == g + [t];
      HistoryMakes(g);
      var a := AfterTouches(None, g);
      if a.Some? || t.Created? {
        forall f, i | LastSetter(h, f, i) ensures IsAfter(AfterTouch(a, t).value, h[i], f) {
          LastSetterOneMore(g, t, f, i);
          TouchIsLaw(a, t, f);
        }
      }
    }
  }

  lemma {:induction false} TouchesCompose(a: Option<AgentState>, g: seq<Touch>, h: seq<Touch>)
    ensures AfterTouches(a, g + h) == AfterTouches(AfterTouches(a, g), h)
  {
    if h == [] {
      assert g + h == g;
    } else {
      var rest := h[..|h| - 1];
      TouchesCompose(a, g, rest);
      assert (g + h)[..|g + h| - 1] == g + rest;
    }
  }

  lemma {:induction false} BootstrapCreates(m: Agents, ns: seq<NewAgent>, id: AgentId)
    ensures AgentAt(AddAll(m, ns), id) == AfterTouches(AgentAt(m, id), Creations(ns, id))
  {
    if ns != [] {
      var n := |ns| - 1;
      BootstrapCreates(m, ns[..n], id);
      TouchesCompose(AgentAt(m, id), Creations(ns[..n], id), if ns[n].id == id then [Created(ns[n])] else []);
    }
  }

  lemma {:induction false} ItemsTouch(a: AgentState, items: seq<BootItem>)
    ensures AfterTouches(Some(a), ItemTouches(items)) == Some(AfterItems(a, items))
  {
    if items != [] {
      var n := |items| - 1;
      ItemsTouch(a, items[..n]);
      TouchesCompose(Some(a), ItemTouches(items[..n]), ItemTouch(items[n]));
    }
  }

  lemma {:induction false} NoneStays(h: seq<Touch>)
    requires forall i :: 0 <= i < |h| ==> !h[i].Created?
    ensures AfterTouches(None, h) == None
  {
    if h != [] {
      NoneStays(h[..|h| - 1]);
    }
  }

  lemma {:induction false} ItemsCreateNone(items: seq<BootItem>)
    ensures forall i :: 0 <= i < |ItemTouches(items)| ==> !ItemTouches(items)[i].Created?
  {
    if items != [] {
      ItemsCreateNone(items[..|items| - 1]);
    }
  }

  lemma OneTouch(a: Option<AgentState>, t: Touch)
    ensures AfterTouches(a, [t]) == AfterTouch(a, t) && AfterTouches(a, []) == a
  {
    assert [t][..0] == [];
  }

  /** An envelope does to each agent just what it tells about it: one it does not name is left alone. */
  lemma ApplyTouches(m: Agents, e: Envelope, id: AgentId)
    requires !Panics(m, e)
    ensures AgentAt(Apply(m, e), id) == AfterTouches(AgentAt(m, id), Touches(e, id))
    ensures Touches(e, id) == [] ==> AgentAt(Apply(m, e), id) == AgentAt(m, id)
  {
    if e.HostBootstrap? {
      BootstrapCreates(m, e.agents, id);
    } else if e.AgentBootstrap? {
      AgentBootstrapTouches(m, e, id);
    } else {
      OneTouchApplied(m, e, id);
    }
    OneTouch(AgentAt(m, id), Told);
  }

  lemma AgentBootstrapTouches(m: Agents, e: Envelope, id: AgentId)
    requires e.AgentBootstrap? && e.id in m
    ensures AgentAt(Apply(m, e), id) == AfterTouches(AgentAt(m, id), Touches(e, id))
  {
    if e.id == id {
      ItemsThenActivity(m[id], e.items, e.activity);
    }
  }

  lemma ItemsThenActivity(a: AgentState, items: seq<BootItem>, activity: Activity)
    ensures AfterTouches(Some(a), ItemTouches(items) + [NowDoing(activity)]) == Some(AfterItems(a, items).(activity := activity))
  {
    ItemsTouch(a, items);
    TouchesCompose(Some(a), ItemTouches(items), [NowDoing(activity)]);
    OneTouch(Some(AfterItems(a, items)), NowDoing(activity));
  }

  lemma OneTouchApplied(m: Agents, e: Envelope, id: AgentId)
    requires !Panics(m, e) && !e.HostBootstrap? && !e.AgentBootstrap?
    ensures AgentAt(Apply(m, e), id) == AfterTouches(AgentAt(m, id), Touches(e, id))
  {
    var h := Touches(e, id);
    if h != [] {
      assert h == [h[0]];
      OneTouch(AgentAt(m, id), h[0]);
    }
  }

  lemma PanicTouchesNone(m: Agents, e: Envelope, id: AgentId)
    requires Panics(m, e)
    ensures AfterTouches(AgentAt(m, id), Touches(e, id)) == AgentAt(m, id)
  {
    if Touches(e, id) != [] {
      if e.AgentBootstrap? {
        ItemsCreateNone(e.items);
      }
      NoneStays(Touches(e, id));
    }
  }

  lemma StepTouchesAgent(s: State, a: Step, id: AgentId)
    requires Enabled(s, a)
    ensures AgentAt(Next(s, a).agents, id) == AfterTouches(AgentAt(s.agents, id), StepTouches(a, id))
  {
    if a.BootEvent? || a.HostEvent? {
      if Panics(s.agents, a.e) {
        PanicTouchesNone(s.agents, a.e, id);
      } else {
        ApplyTouches(s.agents, a.e, id);
      }
    } else {
      OneTouch(AgentAt(s.agents, id), Told);
    }
  }

  lemma {:induction false} HistoryFromFront(run: seq<Step>, id: AgentId)
    requires run != []
    ensures History(run, id) == StepTouches(run[0], id) + History(run[1..], id)
  {
    var rest := run[1..];
    if rest == [] {
      assert run[..0] == [];
    } else {
      var n := |rest| - 1;
      var before := run[..n + 1];
      HistoryFromFront(before, id);
      assert before[1..] == rest[..n] && rest[n] == run[n + 1];
      ThreeParts(StepTouches(run[0], id), History(rest[..n], id), StepTouches(rest[n], id));
    }
  }

  lemma ThreeParts(a: seq<Touch>, b: seq<Touch>, c: seq<Touch>)
    ensures (a + b) + c == a + (b + c)
  {
  }

  lemma {:induction false} RunTouchesAgent(s: State, run: seq<Step>, t: State, id: AgentId)
    requires Reaches(s, run, t)
    ensures AgentAt(t.agents, id) == AfterTouches(AgentAt(s.agents, id), History(run, id))
    decreases |run|
  {
    if run != [] {
      StepTouchesAgent(s, run[0], id);
      RunTouchesAgent(Next(s, run[0]), run[1..], t, id);
      HistoryFromFront(run, id);
      TouchesCompose(AgentAt(s.agents, id), StepTouches(run[0], id), History(run[1..], id));
    }
  }

  /** After any run an agent is known exactly when it was announced, and each of its fields is what the
      last thing to decide it made of it: its turn is completed exactly when a stream end, a cancellation,
      an assistant or error message or a terminating error came after its last announcement and the last
      message sent to it; and so on for the others. */
  lemma AgentsAreFromHistory(run: seq<Step>, t: State, id: AgentId)
    requires Reaches(Init, run, t)
    ensures id in t.agents <==> WasCreated(History(run, id))
    ensures id in t.agents ==> IsFrom(t.agents[id], History(run, id))
  {
    RunTouchesAgent(Init, run, t, id);
    HistoryMakes(History(run, id));
  }

  /** By its last announcement, and what came after it, the agent is gone. */
  ghost predicate Gone(h: seq<Touch>) {
    exists i :: LastSetter(h, TerminatedField, i) && Terminates(h[i])
  }

  ghost predicate Types(h: seq<Touch>) {
    exists i :: LastSetter(h, ThinkingField, i) && h[i] == Said(Typing(true))
  }

  ghost predicate TurnDone(h: seq<Touch>) {
    exists i :: LastSetter(h, TurnField, i) && EndsTurn(h[i])
  }

  ghost predicate Failing(h: seq<Touch>) {
    exists i :: LastSetter(h, ErrorField, i) && h[i].Erred?
  }

  predicate AsksUser(t: Touch) {
    t == NowDoing(AwaitingUser) || (t.Created? && t.n.activity == AwaitingUser)
  }

  ghost predicate Asks(h: seq<Touch>) {
    exists i :: LastSetter(h, ActivityField, i) && AsksUser(h[i])
  }

  /** Waiting waits for an agent exactly while it is not gone and either types or has a turn that is not
      done, as its history says; its status follows. */
  lemma WaitedForIff(run: seq<Step>, t: State, id: AgentId)
    requires Reaches(Init, run, t) && id in t.agents
    ensures var h := History(run, id);
      && (t.agents[id].IsActive() <==> !Gone(h) && (Types(h) || !TurnDone(h)))
      && t.agents[id].Status() ==
           (if Gone(h) then if Failing(h) then StatusFailed else StatusIdle
            else if Asks(h) then StatusAwaitingUser
            else if Types(h) || !TurnDone(h) then StatusThinking else StatusIdle)
  {
    AgentsAreFromHistory(run, t, id);
    FieldsAre(t.agents[id], History(run, id));
  }

  lemma {:induction false} SetterIsThere(h: seq<Touch>, f: Field) returns (i: int)
    requires WasCreated(h)
    ensures LastSetter(h, f, i)
  {
    i := |h| - 1;
    if !Sets(h[i], f) {
      var k :| 0 <= k < |h| && h[k].Created?;
      var g, t := h[..i], h[i];
      assert g[k].Created? && g + [t] == h;
      i := SetterIsThere(g, f);
      LastSetterOneMore(g, t, f, i);
    }
  }

  lemma FieldsAre(a: AgentState, h: seq<Touch>)
    requires WasCreated(h) && IsFrom(a, h)
    ensures (a.terminated <==> Gone(h)) && (a.isThinking <==> Types(h)) && (a.turnCompleted <==> TurnDone(h))
    ensures (a.lastError.Some? <==> Failing(h)) && (a.activity == AwaitingUser <==> Asks(h))
  {
    var gone := SetterIsThere(h, TerminatedField);
    assert IsAfter(a, h[gone], TerminatedField);
    var typing := SetterIsThere(h, ThinkingField);
    assert IsAfter(a, h[typing], ThinkingField);
    var turn := SetterIsThere(h, TurnField);
    assert IsAfter(a, h[turn], TurnField);
    var error := SetterIsThere(h, ErrorField);
    assert IsAfter(a, h[error], ErrorField);
    var activity := SetterIsThere(h, ActivityField);
    assert IsAfter(a, h[activity], ActivityField);
  }

  // ------------------------------------------------------------ main results

  /** Every direct agent is known and was announced to match a spawn that had been sent. */
  lemma DirectAgentsWereSpawned(run: seq<Step>, t: State, id: AgentId) returns (g: Grant)
    requires Reaches(Init, run, t) && id in t.direct
    ensures id in t.agents && g in t.grants && g.agent.id == id
    ensures Matches(g.spawn, g.agent) && g.spawn in t.sent
  {
    RunKeepsInv(Init, run, t);
    var k :| 0 <= k < |t.grants| && t.grants[k].agent.id == id;
    g := t.grants[k];
  }

  function GrantedAgents(gs: seq<Grant>): set<AgentId> {
    if gs == [] then {} else GrantedAgents(gs[..|gs| - 1]) + {gs[|gs| - 1].agent.id}
  }

  function SpawnIds(ps: seq<Spawn>): set<SpawnId> {
    if ps == [] then {} else SpawnIds(ps[..|ps| - 1]) + {ps[|ps| - 1].id}
  }

  lemma {:induction false} GrantedAgentsBound(gs: seq<Grant>)
    ensures |GrantedAgents(gs)| <= |gs|
    ensures forall id :: id in GrantedAgents(gs) <==> exists k :: 0 <= k < |gs| && gs[k].agent.id == id
  {
    if gs != [] {
      var n := |gs| - 1;
      GrantedAgentsBound(gs[..n]);
      forall id ensures id in GrantedAgents(gs) <==> exists k :: 0 <= k < |gs| && gs[k].agent.id == id {
        if id in GrantedAgents(gs[..n]) {
          var k :| 0 <= k < n && gs[..n][k].agent.id == id;
          assert gs[k].agent.id == id;
        }
        if k :| 0 <= k < |gs| && gs[k].agent.id == id {
          assert k < n ==> gs[..n][k].agent.id == id;
        }
      }
    }
  }

  lemma {:induction false} SpawnIdsMembers(ps: seq<Spawn>)
    ensures forall id :: id in SpawnIds(ps) <==> exists k :: 0 <= k < |ps| && ps[k].id == id
    ensures |SpawnIds(ps)| <= |ps|
  {
    if ps != [] {
      var n := |ps| - 1;
      SpawnIdsMembers(ps[..n]);
      forall id ensures id in SpawnIds(ps) <==> exists k :: 0 <= k < |ps| && ps[k].id == id {
        if id in SpawnIds(ps[..n]) {
          var k :| 0 <= k < n && ps[..n][k].id == id;
          assert ps[k].id == id;
        }
        if k :| 0 <= k < |ps| && ps[k].id == id {
          assert k < n ==> ps[..n][k].id == id;
        }
      }
    }
  }

  lemma {:induction false} DistinctSpawnIds(ps: seq<Spawn>)
    requires forall i, j :: 0 <= i < j < |ps| ==> ps[i].id != ps[j].id
    ensures |SpawnIds(ps)| == |ps|
  {
    if ps != [] {
      var n := |ps| - 1;
      DistinctSpawnIds(ps[..n]);
      SpawnIdsMembers(ps[..n]);
      assert ps[n].id !in SpawnIds(ps[..n]);
    }
  }

  lemma SubsetCardinality(a: set<SpawnId>, b: set<SpawnId>)
    requires a <= b
    ensures |a| <= |b|
  {
    assert b == a + (b - a);
  }

  function GrantedSpawns(gs: seq<Grant>): (ps: seq<Spawn>)
    ensures |ps| == |gs| && forall k :: 0 <= k < |gs| ==> ps[k] == gs[k].spawn
  {
    if gs == [] then [] else GrantedSpawns(gs[..|gs| - 1]) + [gs[|gs| - 1].spawn]
  }

  lemma GrantsBoundedBySpawns(s: State)
    requires SpawnsRight(s)
    ensures |s.grants| <= |s.sent|
  {
    var ps := GrantedSpawns(s.grants);
    SpawnIdsMembers(ps);
    DistinctSpawnIds(ps);
    SpawnIdsMembers(s.sent);
    forall id | id in SpawnIds(ps) ensures id in SpawnIds(s.sent) {
      var k :| 0 <= k < |ps| && ps[k].id == id;
      assert s.grants[k].spawn in s.sent;
    }
    SubsetCardinality(SpawnIds(ps), SpawnIds(s.sent));
  }

  /** There are never more direct agents than spawns sent. */
  lemma DirectAgentsBoundedBySpawns(run: seq<Step>, t: State)
    requires Reaches(Init, run, t)
    ensures |t.direct| <= |t.grants| <= |t.sent|
  {
    RunKeepsInv(Init, run, t);
    GrantedAgentsBound(t.grants);
    assert t.direct == GrantedAgents(t.grants);
    GrantsBoundedBySpawns(t);
  }

  /** Every spawn command is answered at most once, and never while it is pending. */
  lemma AtMostOneReply(run: seq<Step>, t: State)
    requires Reaches(Init, run, t)
    ensures forall i, j :: 0 <= i < j < |t.replies| ==> t.replies[i].0 != t.replies[j].0
    ensures t.pending.Some? ==> forall k :: 0 <= k < |t.replies| ==> t.replies[k].0 != t.pending.value.id
  {
    RunKeepsInv(Init, run, t);
    forall k | 0 <= k < |t.replies| && t.pending.Some? ensures t.replies[k].0 != t.pending.value.id {
      assert t.replies[k].0 == t.pending.value.id ==> Replied(t, t.pending.value.id);
    }
  }

  /** Published snapshots only grow, so an authorization granted on any of them still holds when the
      command is executed, and the agent is known then. */
  lemma AuthorizationNeverExpires(run: seq<Step>, t: State, i: nat, id: AgentId)
    requires Reaches(Init, run, t) && i < |t.published| && id in t.published[i].direct
    ensures id in t.direct && id in t.agents
    ensures forall j :: i <= j < |t.published| ==> id in t.published[j].direct && Grows(t.published[i], t.published[j])
  {
    RunKeepsInv(Init, run, t);
    assert Grows(t.published[i], t.published[|t.published| - 1]);
  }

  /** The answers that name an agent, in order. */
  function Successes(replies: seq<(SpawnId, Reply)>): seq<(SpawnId, Reply)> {
    if replies == [] then [] else
    var last := replies[|replies| - 1];
    Successes(replies[..|replies| - 1]) + if last.1.Spawned? then [last] else []
  }

  function AnswerTo(g: Grant): (SpawnId, Reply) {
    (g.spawn.id, Spawned(g.agent.id, Fresh(g.agent).Status()))
  }

  function Answers(gs: seq<Grant>): seq<(SpawnId, Reply)> {
    if gs == [] then [] else Answers(gs[..|gs| - 1]) + [AnswerTo(gs[|gs| - 1])]
  }

  lemma OneMoreReply(replies: seq<(SpawnId, Reply)>, r: (SpawnId, Reply))
    ensures Successes(replies + [r]) == Successes(replies) + if r.1.Spawned? then [r] else []
  {
    assert (replies + [r])[..|replies|] == replies;
  }

  lemma OneMoreAnswer(gs: seq<Grant>, g: Grant)
    ensures Answers(gs + [g]) == Answers(gs) + [AnswerTo(g)]
  {
    assert (gs + [g])[..|gs|] == gs;
  }

  predicate GrantsAnswered(s: State) {
    Successes(s.replies) == Answers(s.grants)
  }

  lemma GrantIsAnswered(s: State, n: NewAgent)
    requires GrantsAnswered(s) && n.id in s.agents && s.agents[n.id] == Fresh(n)
    ensures GrantsAnswered(AfterAnnouncement(s, n))
  {
    if s.pending.Some? && Matches(s.pending.value, n) {
      var g := Grant(s.pending.value, n);
      OneMoreReply(s.replies, AnswerTo(g));
      OneMoreAnswer(s.grants, g);
    }
  }

  lemma RefusalIsNoSuccess(s: State, id: SpawnId, t: State)
    requires GrantsAnswered(s) && t.replies == s.replies + [(id, Refused)] && t.grants == s.grants
    ensures GrantsAnswered(t)
  {
    OneMoreReply(s.replies, (id, Refused));
  }

  lemma StepAnswersGrants(s: State, a: Step)
    requires Enabled(s, a) && GrantsAnswered(s)
    ensures GrantsAnswered(Next(s, a))
  {
    var t := Next(s, a);
    match a
    case HostEvent(e) =>
      if !Panics(s.agents, e) && e.Announced? {
        GrantIsAnswered(s.(agents := Apply(s.agents, e), unpublished := true), e.agent);
      }
    case SpawnCommand(p, written) =>
      if s.pending.Some? || !written {
        RefusalIsNoSuccess(s, p.id, t);
      }
    case HostGone(_) =>
      if s.pending.Some? {
        RefusalIsNoSuccess(s, s.pending.value.id, t);
      }
    case _ =>
  }

  /** Over any run the successful replies are, one for one and in order, those to the announcements that
      matched the spawn outstanding at the time, each with a fresh agent's status; every other reply
      is a refusal. */
  lemma {:induction false} MatchingAnnouncementsAreAnswered(s: State, run: seq<Step>, t: State)
    requires Reaches(s, run, t) && GrantsAnswered(s)
    ensures GrantsAnswered(t)
    decreases |run|
  {
    if run != [] {
      StepAnswersGrants(s, run[0]);
      MatchingAnnouncementsAreAnswered(Next(s, run[0]), run[1..], t);
    }
  }

  /** Between the reply and the publication behind it the new agent is not yet authorized by the
      latest snapshot; at every other point of an open runtime each replied agent is. */
  lemma RepliedAgentsAreAuthorized(run: seq<Step>, t: State, k: nat)
    requires Reaches(Init, run, t) && !t.closed && !t.unpublished
    requires k < |t.replies| && t.replies[k].1.Spawned?
    ensures |t.published| > 0 && t.replies[k].1.agent in t.published[|t.published| - 1].direct
  {
    RunKeepsInv(Init, run, t);
  }

  lemma ReplyPrecedesItsSnapshot(run: seq<Step>, t: State, n: NewAgent)
    requires Reaches(Init, run, t) && Enabled(t, HostEvent(Announced(n)))
    requires t.pending.Some? && Matches(t.pending.value, n)
    ensures var u := Next(t, HostEvent(Announced(n)));
      |u.published| > 0 && (n.id in u.published[|u.published| - 1].direct <==> n.id in t.direct)
      && Enabled(u, Publish) && n.id in Next(u, Publish).published[|u.published|].direct
  {
    RunKeepsInv(Init, run, t);
  }

  /** What a spawn asks of the announcement that answers it. */
  predicate Fits(p: Spawn, n: NewAgent) {
    n.backend == p.backend && n.roots == p.roots && n.project == p.project && n.parent == p.parent
    && (p.name.Some? ==> n.name == p.name.value)
  }

  /** A spawn that reaches the host while none is outstanding is answered by the first announcement that
      fits it, whose agent is direct from the next snapshot on; one that does not fit changes nothing. */
  lemma SpawnIsAnswered(s: State, p: Spawn, n: NewAgent)
    requires Enabled(s, SpawnCommand(p, true)) && s.pending.None?
    ensures var a := Next(s, SpawnCommand(p, true));
      && a.replies == s.replies && a.sent == s.sent + [p] && Enabled(a, HostEvent(Announced(n)))
      && var b := Next(a, HostEvent(Announced(n)));
         && Enabled(b, Publish)
         && var latest := Next(b, Publish).published[|b.published|];
            && n.id in latest.agents
            && (Fits(p, n) ==>
                  && b.replies == s.replies + [(p.id, Spawned(n.id, if n.activity == AwaitingUser then StatusAwaitingUser else StatusThinking))]
                  && latest.direct == s.direct + {n.id} && b.pending.None?)
            && (!Fits(p, n) ==> b.replies == s.replies && latest.direct == s.direct && b.pending == Some(p))
  {
  }

  /** A spawn that does not reach the host, or comes while another is outstanding, is refused and leaves
      the other outstanding. */
  lemma SpawnIsRefused(s: State, p: Spawn, written: bool)
    requires Enabled(s, SpawnCommand(p, written)) && (s.pending.Some? || !written)
    ensures Next(s, SpawnCommand(p, written)) == s.(issued := s.issued + {p.id}, replies := s.replies + [(p.id, Refused)])
  {
  }

  ghost predicate Accounted(s: State, id: SpawnId) {
    Replied(s, id) || (s.pending.Some? && s.pending.value.id == id)
  }

  lemma StepAccounts(s: State, a: Step, id: SpawnId)
    requires Inv(s) && Enabled(s, a) && (id in s.issued ==> Accounted(s, id))
    ensures id in Next(s, a).issued ==> Accounted(Next(s, a), id)
  {
    var t := Next(s, a);
    if |t.replies| > |s.replies| {
      RepliedMore(s, t.replies[|s.replies|], t, id);
    }
  }

  lemma {:induction false} RunAccounts(s: State, run: seq<Step>, t: State, id: SpawnId)
    requires Inv(s) && Reaches(s, run, t) && (id in s.issued ==> Accounted(s, id))
    ensures id in t.issued ==> Accounted(t, id)
    decreases |run|
  {
    if run != [] {
      StepAccounts(s, run[0], id);
      NextKeepsSpawns(s, run[0]);
      NextKeepsPublished(s, run[0]);
      RunAccounts(Next(s, run[0]), run[1..], t, id);
    }
  }

  /** No spawn command is forgotten: each is answered or is the one outstanding. */
  lemma NoSpawnIsForgotten(run: seq<Step>, t: State, id: SpawnId)
    requires Reaches(Init, run, t) && id in t.issued
    ensures Replied(t, id) || (t.pending.Some? && t.pending.value.id == id)
  {
    RunAccounts(Init, run, t, id);
  }

  /** The snapshots are numbered in the order they were published, up to the largest number; one
      published because the bootstrap failed repeats the number before it. */
  ghost predicate Numbered(s: State) {
    && s.version == (if |s.published| <= MAX_U64 then |s.published| - 1 else MAX_U64)
    && forall i :: 0 <= i < |s.published| ==> s.published[i].version == if i <= MAX_U64 then i else MAX_U64
  }

  lemma {:induction false} SnapshotsAreNumbered(s: State, run: seq<Step>, t: State)
    requires Reaches(s, run, t) && s.published != [] && Numbered(s) && forall i :: 0 <= i < |run| ==> !run[i].BootFail?
    ensures t.published != [] && Numbered(t)
    decreases |run|
  {
    if run != [] {
      SnapshotsAreNumbered(Next(s, run[0]), run[1..], t);
    }
  }

  /** When the host goes, the outstanding spawn is refused and the last snapshot says why. */
  lemma HostGoneIsPublished(s: State, message: string)
    requires Enabled(s, HostGone(message))
    ensures var t := Next(s, HostGone(message));
      && t.closed && t.pending.None? && |t.published| == |s.published| + 1
      && t.published[|s.published|].error == Some(message) && t.published[|s.published|].agents == s.agents
      && t.published[|s.published|].direct == s.direct
      && t.replies == s.replies + if s.pending.Some? then [(s.pending.value.id, Refused)] else []
  {
  }

  // ------------------------------------------------------------- the runtime

  class Runtime {
    var agents: Agents
    var direct: set<AgentId>
    var error: Option<string>
    var version: nat
    var pending: Option<Spawn>
    var published: seq<Snapshot>
    var replies: seq<(SpawnId, Reply)>
    var ready: bool
    var closed: bool
    ghost var unpublished: bool
    ghost var issued: set<SpawnId>
    ghost var sent: seq<Spawn>
    ghost var grants: seq<Grant>

    ghost function Contents(): State
      reads this
    {
      State(agents, direct, error, version, pending, unpublished, ready, closed, published, issued, sent, replies, grants)
    }

    constructor ()
      ensures Contents() == Init
    {
      agents, direct, error, version, pending := map[], {}, None, 0, None;
      published, replies, ready, closed := [EmptySnapshot], [], false, false;
      unpublished, issued, sent, grants := false, {}, [], [];
    }

    method ApplyEnvelope(e: Envelope)
      requires !Panics(agents, e)
      modifies this`agents
      ensures agents == Apply(old(agents), e)
    {
      match e
      case HostBootstrap(ns) =>
        for i := 0 to |ns|
          invariant agents == AddAll(old(agents), ns[..i])
        {
          assert ns[..i + 1][..i] == ns[..i];
          agents := agents[ns[i].id := Fresh(ns[i])];
        }
        assert ns[..|ns|] == ns;
      case Announced(n) =>
        agents := agents[n.id := Fresh(n)];
      case AgentBootstrap(id, items, activity) =>
        var a := agents[id];
        for i := 0 to |items|
          invariant a == AfterItems(old(agents)[id], items[..i])
        {
          assert items[..i + 1][..i] == items[..i];
          match items[i] {
            case BootChat(c) => a := AfterChat(a, c);
            case BootError(m, f) => a := AfterError(a, m, f);
            case BootOther =>
          }
        }
        assert items[..|items|] == items;
        agents := agents[id := a.(activity := activity)];
      case ActivityChanged(id, activity) =>
        if id in agents {
          agents := agents[id := agents[id].(activity := activity)];
        }
      case ChatEvent(id, c) =>
        agents := agents[id := AfterChat(agents[id], c)];
      case AgentError(id, message, fatal) =>
        agents := agents[id := AfterError(agents[id], message, fatal)];
      case Renamed(id, name) =>
        agents := agents[id := agents[id].(name := name)];
      case Moved(id, project, roots) =>
        if id in agents {
          agents := agents[id := agents[id].(project := project, roots := roots)];
        }
      case OtherEnvelope =>
    }

    method PublishSnapshot()
      requires Enabled(Contents(), Publish)
      modifies this
      ensures Contents() == Next(old(Contents()), Publish)
    {
      version := if version < MAX_U64 then version + 1 else version;
      published := published + [Snapshot(agents, direct, error, version)];
      unpublished := false;
    }

    method HandleSpawn(p: Spawn, written: bool)
      requires Enabled(Contents(), SpawnCommand(p, written))
      modifies this
      ensures Contents() == Next(old(Contents()), SpawnCommand(p, written))
    {
      issued := issued + {p.id};
      if pending.Some? || !written {
        replies := replies + [(p.id, Refused)];
        return;
      }
      pending := Some(p);
      sent := sent + [p];
    }

    method HandleHostEvent(e: Envelope)
      requires Enabled(Contents(), HostEvent(e))
      modifies this
      ensures Contents() == Next(old(Contents()), HostEvent(e))
    {
      if (e.AgentBootstrap? || e.ChatEvent? || e.AgentError? || e.Renamed?) && e.id !in agents {
        closed := true;
        return;
      }
      ApplyEnvelope(e);
      unpublished := true;
      if e.Announced? {
        AnswerIfMatching(e.agent);
      }
    }

    /** The outstanding spawn is answered by the announcement that matches it, and otherwise kept. */
    method AnswerIfMatching(n: NewAgent)
      modifies this
      ensures Contents() == AfterAnnouncement(old(Contents()), n)
    {
      if pending.None? {
        return;
      }
      var p := pending.value;
      pending := None;
      if !Matches(p, n) {
        pending := Some(p);
        return;
      }
      direct := direct + {n.id};
      grants := grants + [Grant(p, n)];
      if n.id in agents {
        replies := replies + [(p.id, Spawned(n.id, agents[n.id].Status()))];
      } else {
        replies := replies + [(p.id, Refused)];
        unpublished := false;
      }
    }

    method Fail(message: string)
      requires Enabled(Contents(), HostGone(message))
      modifies this
      ensures Contents() == Next(old(Contents()), HostGone(message))
    {
      if pending.Some? {
        replies := replies + [(pending.value.id, Refused)];
        pending := None;
      }
      error := Some(message);
      unpublished := true;
      PublishSnapshot();
      closed := true;
    }
  }
}
