// Waiting for agents: a loop that evaluates the latest published snapshot and
// sleeps on the watch channel until a newer one is published.
module AwaitAgents {
  import opened AgentControl

  type AgentStatus = (AgentId, Status)

  /** How many of the first `n` watched ids are active, or are not. */
  function CountBefore(m: Agents, ids: seq<AgentId>, active: bool, n: nat): nat
    requires n <= |ids|
  {
    if n == 0 then 0
    else CountBefore(m, ids, active, n - 1)
         + if ids[n - 1] in m && m[ids[n - 1]].IsActive() == active then 1 else 0
  }

  /** The agents among `ids` whose activity is `active`, with their statuses. */
  function Select(m: Agents, ids: seq<AgentId>, active: bool): seq<AgentStatus> {
    if ids == [] then []
    else
      var last := ids[|ids| - 1];
      Select(m, ids[..|ids| - 1], active)
      + if last in m && m[last].IsActive() == active then [(last, m[last].Status())] else []
  }

  predicate AllKnown(m: Agents, ids: seq<AgentId>) {
    forall i :: 0 <= i < |ids| ==> ids[i] in m
  }

  lemma {:induction false} CountSame(m: Agents, ids: seq<AgentId>, more: seq<AgentId>, active: bool, n: nat)
    requires n <= |ids|
    ensures CountBefore(m, ids + more, active, n) == CountBefore(m, ids, active, n)
  {
    if n > 0 {
      CountSame(m, ids, more, active, n - 1);
    }
  }

  lemma {:induction false} SelectLength(m: Agents, ids: seq<AgentId>, active: bool)
    ensures |Select(m, ids, active)| == CountBefore(m, ids, active, |ids|)
  {
    if ids != [] {
      var n := |ids| - 1;
      SelectLength(m, ids[..n], active);
      CountSame(m, ids[..n], [ids[n]], active, n);
      assert ids == ids[..n] + [ids[n]];
    }
  }

  lemma {:induction false} CountsAddUp(m: Agents, ids: seq<AgentId>, n: nat)
    requires AllKnown(m, ids) && n <= |ids|
    ensures CountBefore(m, ids, true, n) + CountBefore(m, ids, false, n) == n
  {
    if n > 0 {
      CountsAddUp(m, ids, n - 1);
    }
  }

  lemma {:induction false} SelectedAt(m: Agents, ids: seq<AgentId>, active: bool, i: nat)
    requires i < |ids| && ids[i] in m && m[ids[i]].IsActive() == active
    ensures CountBefore(m, ids, active, i) < |Select(m, ids, active)|
            && Select(m, ids, active)[CountBefore(m, ids, active, i)] == (ids[i], m[ids[i]].Status())
  {
    var n := |ids| - 1;
    var init := ids[..n];
    assert ids == init + [ids[n]];
    CountSame(m, init, [ids[n]], active, i);
    SelectLength(m, init, active);
    if i < n {
      SelectedAt(m, init, active, i);
    }
  }

  /** Each watched id, duplicates included, has its own place in the list for its activity; the
      lists keep the order of the ids and contain nothing else. */
  lemma SelectionsPartition(m: Agents, ids: seq<AgentId>)
    requires AllKnown(m, ids)
    ensures |Select(m, ids, true)| + |Select(m, ids, false)| == |ids|
    ensures forall i :: 0 <= i < |ids| ==>
      var active := m[ids[i]].IsActive();
      CountBefore(m, ids, active, i) < |Select(m, ids, active)|
      && Select(m, ids, active)[CountBefore(m, ids, active, i)] == (ids[i], m[ids[i]].Status())
  {
    SelectLength(m, ids, true);
    SelectLength(m, ids, false);
    CountsAddUp(m, ids, |ids|);
    forall i | 0 <= i < |ids|
      ensures var active := m[ids[i]].IsActive();
              CountBefore(m, ids, active, i) < |Select(m, ids, active)|
              && Select(m, ids, active)[CountBefore(m, ids, active, i)] == (ids[i], m[ids[i]].Status())
    {
      SelectedAt(m, ids, m[ids[i]].IsActive(), i);
    }
  }

  datatype Verdict =
    | NothingRequested
    | Unknown(id: AgentId)
    | Unauthorized(id: AgentId)
    | Result(ready: seq<AgentStatus>, still: seq<AgentStatus>)
    | Wait

  function FirstNotIn(ids: seq<AgentId>, s: set<AgentId>): Option<AgentId> {
    if ids == [] then None else if ids[0] !in s then Some(ids[0]) else FirstNotIn(ids[1..], s)
  }

  /** `order` is the order in which the snapshot's agent map happens to be iterated. */
  ghost predicate Iterates(s: Snapshot, order: seq<AgentId>) {
    && (forall i, j :: 0 <= i < j < |order| ==> order[i] != order[j])
    && (forall id :: id in order <==> id in s.agents)
  }

  function ActiveDirect(s: Snapshot, order: seq<AgentId>): seq<AgentId> {
    if order == [] then []
    else
      var id := order[|order| - 1];
      ActiveDirect(s, order[..|order| - 1])
      + if id in s.agents && s.agents[id].IsActive() && id in s.direct then [id] else []
  }

  function Watched(s: Snapshot, requested: Option<seq<AgentId>>, order: seq<AgentId>): seq<AgentId> {
    if requested.Some? then requested.value else ActiveDirect(s, order)
  }

  function Evaluate(s: Snapshot, requested: Option<seq<AgentId>>, enforce: bool, order: seq<AgentId>): Verdict {
    if requested == Some([]) then NothingRequested else
    var ids := Watched(s, requested, order);
    var unknown := if requested.Some? then FirstNotIn(ids, s.agents.Keys) else None;
    if unknown.Some? then Unknown(unknown.value)
    else
      var foreign := if enforce then FirstNotIn(ids, s.direct) else None;
      if foreign.Some? then Unauthorized(foreign.value)
      else
        var ready, still := Select(s.agents, ids, false), Select(s.agents, ids, true);
        if ready != [] || still == [] then Result(ready, still) else Wait
  }

  lemma {:induction false} FirstNotInNone(ids: seq<AgentId>, s: set<AgentId>)
    ensures FirstNotIn(ids, s).None? <==> forall i :: 0 <= i < |ids| ==> ids[i] in s
    ensures FirstNotIn(ids, s).Some? ==> FirstNotIn(ids, s).value in ids && FirstNotIn(ids, s).value !in s
  {
    if ids != [] {
      FirstNotInNone(ids[1..], s);
      assert forall i :: 1 <= i < |ids| ==> ids[1..][i - 1] == ids[i];
    }
  }

  lemma {:induction false} ActiveDirectMembers(s: Snapshot, order: seq<AgentId>)
    ensures forall i :: 0 <= i < |ActiveDirect(s, order)| ==>
      var id := ActiveDirect(s, order)[i]; id in s.agents && s.agents[id].IsActive() && id in s.direct
    ensures forall id :: id in order && id in s.agents && s.agents[id].IsActive() && id in s.direct ==>
      id in ActiveDirect(s, order)
  {
    if order != [] {
      ActiveDirectMembers(s, order[..|order| - 1]);
      assert forall id :: id in order <==> id in order[..|order| - 1] || id == order[|order| - 1];
    }
  }

  lemma {:induction false} SelectAll(m: Agents, ids: seq<AgentId>)
    requires forall i :: 0 <= i < |ids| ==> ids[i] in m && m[ids[i]].IsActive()
    ensures Select(m, ids, false) == [] && |Select(m, ids, true)| == |ids|
  {
    if ids != [] {
      SelectAll(m, ids[..|ids| - 1]);
    }
  }

  /** With explicit ids a result accounts for every id, and somebody is ready or nobody is active. */
  lemma ResultPartitionsRequested(s: Snapshot, ids: seq<AgentId>, enforce: bool, order: seq<AgentId>)
    requires Evaluate(s, Some(ids), enforce, order).Result?
    ensures var r := Evaluate(s, Some(ids), enforce, order);
      && AllKnown(s.agents, ids) && (enforce ==> forall i :: 0 <= i < |ids| ==> ids[i] in s.direct)
      && (r.ready != [] || r.still == [])
      && |r.ready| + |r.still| == |ids|
      && forall i :: 0 <= i < |ids| ==>
           var a := s.agents[ids[i]];
           var list := if a.IsActive() then r.still else r.ready;
           CountBefore(s.agents, ids, a.IsActive(), i) < |list|
           && list[CountBefore(s.agents, ids, a.IsActive(), i)] == (ids[i], a.Status())
  {
    FirstNotInNone(ids, s.agents.Keys);
    FirstNotInNone(ids, s.direct);
    SelectionsPartition(s.agents, ids);
  }

  /** The answer for explicit ids: refused when one is unknown, or not direct where that is asked; and
      else a result as soon as one of the agents is not active. */
  lemma EvaluateIff(s: Snapshot, ids: seq<AgentId>, enforce: bool, order: seq<AgentId>)
    requires ids != []
    ensures var r := Evaluate(s, Some(ids), enforce, order);
      var known := forall i :: 0 <= i < |ids| ==> ids[i] in s.agents;
      var allowed := enforce ==> forall i :: 0 <= i < |ids| ==> ids[i] in s.direct;
      && (r.Unknown? <==> !known) && (r.Unknown? ==> r.id in ids && r.id !in s.agents)
      && (r.Unauthorized? <==> known && !allowed) && (r.Unauthorized? ==> r.id in ids && r.id !in s.direct)
      && (r.Result? <==> known && allowed && exists i :: 0 <= i < |ids| && !s.agents[ids[i]].IsActive())
      && (r.Wait? <==> known && allowed && forall i :: 0 <= i < |ids| ==> s.agents[ids[i]].IsActive())
  {
    FirstNotInNone(ids, s.agents.Keys);
    FirstNotInNone(ids, s.direct);
    if AllKnown(s.agents, ids) {
      SelectionsPartition(s.agents, ids);
      if forall i :: 0 <= i < |ids| ==> s.agents[ids[i]].IsActive() {
        SelectAll(s.agents, ids);
      }
    }
  }

  /** No ids at all is an error of its own. */
  lemma NoIdsAreRefused(s: Snapshot, enforce: bool, order: seq<AgentId>)
    ensures Evaluate(s, Some([]), enforce, order) == NothingRequested
  {
  }

  /** Without ids only active direct agents are watched, so the answer is always two empty lists,
      given exactly when no direct agent is active any more. */
  lemma WithoutIdsTheResultIsEmpty(s: Snapshot, enforce: bool, order: seq<AgentId>)
    requires Iterates(s, order)
    ensures var r := Evaluate(s, None, enforce, order);
      if exists id :: id in s.agents && id in s.direct && s.agents[id].IsActive() then r == Wait else r == Result([], [])
  {
    var ids := ActiveDirect(s, order);
    ActiveDirectMembers(s, order);
    FirstNotInNone(ids, s.direct);
    SelectAll(s.agents, ids);
  }

  /** The loop over the snapshots found at successive wakeups (with the map order met each time): it
      answers at the first that decides, and runs out only when the runtime has stopped. */
  method AwaitAgents(looks: seq<(Snapshot, seq<AgentId>)>, requested: Option<seq<AgentId>>, enforce: bool)
    returns (n: nat, verdict: Verdict)
    ensures n <= |looks|
    ensures forall i :: 0 <= i < n ==> Evaluate(looks[i].0, requested, enforce, looks[i].1).Wait?
    ensures n < |looks| ==> !verdict.Wait? && verdict == Evaluate(looks[n].0, requested, enforce, looks[n].1)
    ensures n == |looks| ==> verdict.Wait?
  {
    n := 0;
    while n < |looks|
      invariant n <= |looks|
      invariant forall i :: 0 <= i < n ==> Evaluate(looks[i].0, requested, enforce, looks[i].1).Wait?
    {
      verdict := Evaluate(looks[n].0, requested, enforce, looks[n].1);
      if !verdict.Wait? {
        return;
      }
      n := n + 1;
    }
    verdict := Wait;
  }

  // ------------------------------------------------------------ the waiting

  datatype Waiter =
    | Start(seen: nat)             // about to look at the latest snapshot
    | Evaluated(seen: nat, at: nat)  // looked at snapshot `at`; about to ask for a change
    | Done(at: nat, verdict: Verdict)
    | Gone(at: nat)                // the runtime stopped

  /** The watch channel keeps the latest of `published`; its version is that one's index. */
  datatype World = World(published: seq<Snapshot>, closed: bool, waiter: Waiter)

  datatype Step =
    | PublishNext(s: Snapshot)
    | Close
    | Look(order: seq<AgentId>)
    | Changed

  function Latest(w: World): int {
    |w.published| - 1
  }

  ghost predicate Enabled(w: World, a: Step) {
    match a
    case PublishNext(_) => !w.closed
    case Close => !w.closed
    case Look(order) => w.waiter.Start? && w.published != [] && Iterates(w.published[Latest(w)], order)
    case Changed => w.waiter.Evaluated? && (w.waiter.seen < Latest(w) || w.closed)
  }

  ghost function Next(w: World, requested: Option<seq<AgentId>>, enforce: bool, a: Step): World
    requires Enabled(w, a)
  {
    match a
    case PublishNext(s) => w.(published := w.published + [s])
    case Close => w.(closed := true)
    case Look(order) =>
      var v := Evaluate(w.published[Latest(w)], requested, enforce, order);
      w.(waiter := if v.Wait? then Evaluated(w.waiter.seen, Latest(w)) else Done(Latest(w), v))
    case Changed =>
      // A version the receiver has not seen is reported before the closing of the channel.
      w.(waiter := if w.waiter.seen < Latest(w) then Start(Latest(w)) else Gone(w.waiter.at))
  }

  /** Looking does not count as having seen: what was published since the last wakeup wakes the waiter
      once more, even when the look already took it in. */
  lemma LookedButNotSeen(w: World, requested: Option<seq<AgentId>>, enforce: bool, order: seq<AgentId>)
    requires Enabled(w, Look(order))
    ensures var v := Next(w, requested, enforce, Look(order));
      v.waiter.Evaluated? && w.waiter.seen < Latest(w) ==> Enabled(v, Changed) && Next(v, requested, enforce, Changed).waiter == Start(Latest(w))
  {
  }

  ghost predicate Reaches(w: World, requested: Option<seq<AgentId>>, enforce: bool, run: seq<Step>, v: World)
    decreases |run|
  {
    if run == [] then w == v
    else Enabled(w, run[0]) && Reaches(Next(w, requested, enforce, run[0]), requested, enforce, run[1..], v)
  }

  ghost predicate Verdicts(w: World, requested: Option<seq<AgentId>>, enforce: bool, at: nat, v: Verdict) {
    at < |w.published| && exists order ::
      Iterates(w.published[at], order) && Evaluate(w.published[at], requested, enforce, order) == v
  }

  ghost predicate Inv(w: World, requested: Option<seq<AgentId>>, enforce: bool) {
    w.published != [] &&
    match w.waiter
    case Start(seen) => seen <= Latest(w)
    case Evaluated(seen, at) => seen <= at <= Latest(w) && Verdicts(w, requested, enforce, at, Wait)
    case Done(at, v) => !v.Wait? && Verdicts(w, requested, enforce, at, v)
    case Gone(at) => w.closed && at == Latest(w) && Verdicts(w, requested, enforce, at, Wait)
  }

  lemma StepKeepsInv(w: World, requested: Option<seq<AgentId>>, enforce: bool, a: Step)
    requires Inv(w, requested, enforce) && Enabled(w, a)
    ensures Inv(Next(w, requested, enforce, a), requested, enforce)
  {
    var v := Next(w, requested, enforce, a);
    if a.PublishNext? {
      assert forall i :: 0 <= i < |w.published| ==> v.published[i] == w.published[i];
    }
  }

  lemma {:induction false} RunKeepsInv(w: World, requested: Option<seq<AgentId>>, enforce: bool, run: seq<Step>, v: World)
    requires Inv(w, requested, enforce) && Reaches(w, requested, enforce, run, v)
    ensures Inv(v, requested, enforce)
    decreases |run|
  {
    if run != [] {
      StepKeepsInv(w, requested, enforce, run[0]);
      RunKeepsInv(Next(w, requested, enforce, run[0]), requested, enforce, run[1..], v);
    }
  }

  ghost predicate Blocked(w: World) {
    w.waiter.Evaluated? && !Enabled(w, Changed)
  }

  /** No wakeup is lost: a blocked waiter has evaluated the latest snapshot and found nothing to
      report, the next publication or the closing of the channel unblocks it, and a waiter told
      that the runtime stopped had evaluated the last snapshot ever published. */
  lemma NoLostWakeup(first: Snapshot, requested: Option<seq<AgentId>>, enforce: bool, run: seq<Step>, v: World)
    requires Reaches(World([first], false, Start(0)), requested, enforce, run, v)
    ensures Blocked(v) ==> v.waiter.at == Latest(v) && Verdicts(v, requested, enforce, v.waiter.at, Wait)
    ensures Blocked(v) ==> forall s :: !Blocked(Next(v, requested, enforce, PublishNext(s)))
    ensures Blocked(v) ==> !Blocked(Next(v, requested, enforce, Close))
    ensures v.waiter.Gone? ==> v.closed && v.waiter.at == Latest(v)
    ensures v.waiter.Done? ==> Verdicts(v, requested, enforce, v.waiter.at, v.waiter.verdict)
  {
    RunKeepsInv(World([first], false, Start(0)), requested, enforce, run, v);
  }

  /** A snapshot that has grown accepts the ids an older one accepted. */
  lemma GrownStaysAccepted(s: Snapshot, t: Snapshot, requested: Option<seq<AgentId>>, enforce: bool,
                           o: seq<AgentId>, p: seq<AgentId>)
    requires AgentControl.Grows(s, t) && Iterates(t, p) && Evaluate(s, requested, enforce, o).Wait?
    ensures Evaluate(t, requested, enforce, p).Wait? || Evaluate(t, requested, enforce, p).Result?
  {
    if requested.Some? {
      FirstNotInNone(requested.value, s.agents.Keys);
      FirstNotInNone(requested.value, s.direct);
      FirstNotInNone(requested.value, t.agents.Keys);
      FirstNotInNone(requested.value, t.direct);
    } else {
      WithoutIdsTheResultIsEmpty(t, enforce, p);
    }
  }

  /** Over the snapshots of a runtime, ids that were accepted once are never refused later. */
  lemma WatchedIdsStayAccepted(run: seq<AgentControl.Step>, t: State, i: nat, j: nat,
                               requested: Option<seq<AgentId>>, enforce: bool, o: seq<AgentId>, p: seq<AgentId>)
    requires AgentControl.Reaches(Init, run, t) && i <= j < |t.published|
    requires Iterates(t.published[j], p) && Evaluate(t.published[i], requested, enforce, o).Wait?
    ensures Evaluate(t.published[j], requested, enforce, p).Wait?
            || Evaluate(t.published[j], requested, enforce, p).Result?
  {
    AgentControl.RunKeepsInv(Init, run, t);
    GrownStaysAccepted(t.published[i], t.published[j], requested, enforce, o, p);
  }
}
