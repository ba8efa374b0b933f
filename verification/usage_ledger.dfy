// The audit of a usage ledger: every known cumulative counter is recomputed
// from the distinct requests seen so far.
module UsageLedger {

  datatype Option<+T> = None | Some(value: T)

  type Count = Option<int>

  datatype Usage = Usage(input: Count, output: Count, total: Count, cached: Count, creation: Count, reasoning: Count)

  // ------------------------------------------------------------ field sums

  function Plus(a: Count, b: Count): Count {
    if a.None? then b else if b.None? then a else Some(a.value + b.value)
  }

  function Add(u: Usage, v: Usage): Usage {
    Usage(Plus(u.input, v.input), Plus(u.output, v.output), Plus(u.total, v.total),
          Plus(u.cached, v.cached), Plus(u.creation, v.creation), Plus(u.reasoning, v.reasoning))
  }

  function InputOf(u: Usage): Count { u.input }
  function OutputOf(u: Usage): Count { u.output }
  function TotalOf(u: Usage): Count { u.total }
  function CachedOf(u: Usage): Count { u.cached }
  function CreationOf(u: Usage): Count { u.creation }
  function ReasoningOf(u: Usage): Count { u.reasoning }

  const NOTHING := Usage(None, None, None, None, None, None)

  /** The values that are there, in one field. */
  function Present(us: seq<Usage>, field: Usage -> Count): seq<int> {
    if us == [] then [] else
    var v := field(us[|us| - 1]);
    Present(us[..|us| - 1], field) + if v.Some? then [v.value] else []
  }

  function Total(xs: seq<int>): int {
    if xs == [] then 0 else Total(xs[..|xs| - 1]) + xs[|xs| - 1]
  }

  function SumField(us: seq<Usage>, field: Usage -> Count): Count {
    var values := Present(us, field);
    if values == [] then None else Some(Total(values))
  }

  /** `sum_usage`: field by field the sum of what is there, and absent when nothing is. */
  function SumUsage(us: seq<Usage>): Usage {
    Usage(SumField(us, InputOf), SumField(us, OutputOf), SumField(us, TotalOf),
          SumField(us, CachedOf), SumField(us, CreationOf), SumField(us, ReasoningOf))
  }

  lemma SumFieldOneMore(us: seq<Usage>, u: Usage, field: Usage -> Count)
    ensures SumField(us + [u], field) == Plus(SumField(us, field), field(u))
  {
    assert (us + [u])[..|us|] == us;
    var values := Present(us, field);
    if field(u).Some? {
      var v := field(u).value;
      assert Present(us + [u], field) == values + [v];
      assert (values + [v])[..|values|] == values;
      assert Total(values + [v]) == Total(values) + v;
    } else {
      assert Present(us + [u], field) == values + [];
      assert values + [] == values;
    }
  }

  lemma SumOneMore(us: seq<Usage>, u: Usage)
    ensures SumUsage(us + [u]) == Add(SumUsage(us), u)
  {
    SumFieldOneMore(us, u, InputOf);
    SumFieldOneMore(us, u, OutputOf);
    SumFieldOneMore(us, u, TotalOf);
    SumFieldOneMore(us, u, CachedOf);
    SumFieldOneMore(us, u, CreationOf);
    SumFieldOneMore(us, u, ReasoningOf);
  }

  lemma AddIsMonoid(u: Usage, v: Usage, w: Usage)
    ensures Add(Add(u, v), w) == Add(u, Add(v, w))
    ensures Add(u, v) == Add(v, u)
    ensures Add(NOTHING, u) == u
  {
  }

  lemma ConcatOneMore(us: seq<Usage>, rest: seq<Usage>, v: Usage)
    ensures SumUsage(us + (rest + [v])) == Add(SumUsage(us + rest), v)
  {
    assert us + (rest + [v]) == us + rest + [v];
    SumOneMore(us + rest, v);
  }

  lemma AddOneMore(a: Usage, b: Usage, ab: Usage, v: Usage, bv: Usage, abv: Usage)
    requires ab == Add(a, b) && abv == Add(ab, v) && bv == Add(b, v)
    ensures abv == Add(a, bv)
  {
    AddIsMonoid(a, b, v);
  }

  /** Sums with absent values are a homomorphism from lists to that monoid. */
  lemma {:induction false} SumOfConcat(us: seq<Usage>, vs: seq<Usage>)
    ensures SumUsage(us + vs) == Add(SumUsage(us), SumUsage(vs))
  {
    if vs == [] {
      assert us + vs == us;
      AddIsMonoid(SumUsage(us), NOTHING, NOTHING);
    } else {
      var rest, v := vs[..|vs| - 1], vs[|vs| - 1];
      assert vs == rest + [v];
      SumOfConcat(us, rest);
      ConcatOneMore(us, rest, v);
      SumOneMore(rest, v);
      AddOneMore(SumUsage(us), SumUsage(rest), SumUsage(us + rest), v, SumUsage(rest + [v]), SumUsage(us + (rest + [v])));
    }
  }

  function Concat(uss: seq<seq<Usage>>): seq<Usage> {
    if uss == [] then [] else Concat(uss[..|uss| - 1]) + uss[|uss| - 1]
  }

  function Sums(uss: seq<seq<Usage>>): (r: seq<Usage>)
    ensures |r| == |uss|
  {
    seq(|uss|, i requires 0 <= i < |uss| => SumUsage(uss[i]))
  }

  /** The aggregate over the ledgers' totals is the total over all their requests. */
  lemma {:induction false} AggregateIsTotal(uss: seq<seq<Usage>>)
    ensures SumUsage(Sums(uss)) == SumUsage(Concat(uss))
  {
    if uss != [] {
      var rest := uss[..|uss| - 1];
      AggregateIsTotal(rest);
      assert Sums(uss) == Sums(rest) + [SumUsage(uss[|uss| - 1])];
      SumOneMore(Sums(rest), SumUsage(uss[|uss| - 1]));
      SumOfConcat(Concat(rest), uss[|uss| - 1]);
    }
  }

  function OrZero(c: Count): int {
    if c.None? then 0 else c.value
  }

  /** `prompt`; None where adding to an absent input fails. */
  function Prompt(u: Usage): Count {
    if u.input.None? then None else Some(u.input.value + OrZero(u.cached) + OrZero(u.creation))
  }

  /** Prompt tokens distribute over sums: of two usages, and of the ledgers' totals. */
  lemma PromptOfSum(u: Usage, v: Usage)
    ensures Prompt(u).Some? && Prompt(v).Some? ==> Prompt(Add(u, v)) == Plus(Prompt(u), Prompt(v))
    ensures Prompt(Add(u, v)).None? <==> Prompt(u).None? && Prompt(v).None?
  {
  }

  function Prompts(us: seq<Usage>): int {
    if us == [] then 0 else Prompts(us[..|us| - 1]) + OrZero(Prompt(us[|us| - 1]))
  }

  lemma {:induction false} PromptOfTotal(us: seq<Usage>)
    requires us != [] && forall i :: 0 <= i < |us| ==> us[i].input.Some?
    ensures Prompt(SumUsage(us)) == Some(Prompts(us))
  {
    var rest, u := us[..|us| - 1], us[|us| - 1];
    assert us == rest + [u];
    SumOneMore(rest, u);
    if rest == [] {
      AddIsMonoid(u, NOTHING, NOTHING);
    } else {
      PromptOfTotal(rest);
      PromptOfSum(SumUsage(rest), u);
    }
  }

  // -------------------------------------------------------------- the ledger

  datatype Scope = Known(usage: Usage) | Unknown

  datatype TokenUsage = TokenUsage(request: Scope, cumulative: Scope)

  datatype Message = Message(id: string, hasContent: bool, tokenUsage: Option<TokenUsage>)

  datatype Event =
    | Typing(on: bool)
    | StreamEnd(message: Message)
    | MessageAdded(fromAssistant: bool, message: Message)
    | MetadataUpdated(message: Message)
    | OtherEvent(name: string)

  datatype Record = Record(session: string, eventId: string, sequence: int, ownScope: bool, visible: bool, event: Event)

  /** A request's counters: no negative number, and the first three are there. */
  predicate Reported(s: Scope) {
    && s.Known? && s.usage.input.Some? && s.usage.output.Some? && s.usage.total.Some?
    && OrZero(s.usage.input) >= 0 && OrZero(s.usage.output) >= 0 && OrZero(s.usage.total) >= 0
    && OrZero(s.usage.cached) >= 0 && OrZero(s.usage.creation) >= 0 && OrZero(s.usage.reasoning) >= 0
  }

  /** The message a record accounts for, if any. */
  function Accounted(r: Record): Option<Message> {
    if !r.visible then None else
    match r.event
    case StreamEnd(m) => Some(m)
    case MessageAdded(fromAssistant, m) => if fromAssistant then Some(m) else None
    case MetadataUpdated(m) => Some(m)
    case _ => None
  }

  datatype Request = Request(id: string, usage: Usage)

  datatype State = State(
    requests: seq<Request>, eventIds: set<string>, responseIds: set<string>,
    generations: nat, typing: bool, previous: int, repaired: seq<Record>)

  const START := State([], {}, {}, 0, false, -1, [])

  function Usages(rs: seq<Request>): (us: seq<Usage>)
    ensures |us| == |rs|
  {
    seq(|rs|, i requires 0 <= i < |rs| => rs[i].usage)
  }

  predicate HasId(rs: seq<Request>, id: string) {
    exists i :: 0 <= i < |rs| && rs[i].id == id
  }

  function SetMessage(e: Event, m: Message): Event
    requires e.StreamEnd? || e.MessageAdded? || e.MetadataUpdated?
  {
    e.(message := m)
  }

  function SetCumulative(r: Record, u: Usage): Record
    requires Accounted(r).Some? && Accounted(r).value.tokenUsage.Some?
  {
    var m := Accounted(r).value;
    r.(event := SetMessage(r.event, m.(tokenUsage := Some(m.tokenUsage.value.(cumulative := Known(u))))))
  }

  /** One assistant record with its token usage; None when the evidence is refused. */
  function Account(s: State, r: Record, m: Message, u: TokenUsage): Option<State>
    requires Accounted(r) == Some(m) && m.tokenUsage == Some(u)
  {
    var revision := r.event.MetadataUpdated?;
    if !Reported(u.request) || m.id == "" then None
    else if revision && m.id !in s.responseIds then None
    else if !revision && m.id in s.responseIds then None
    else if HasId(s.requests, m.id) && Request(m.id, u.request.usage) !in s.requests then None
    else
      var requests := if HasId(s.requests, m.id) then s.requests else s.requests + [Request(m.id, u.request.usage)];
      var out := if u.cumulative.Known? then SetCumulative(r, SumUsage(Usages(requests))) else r;
      Some(s.(requests := requests, responseIds := s.responseIds + {m.id}, repaired := s.repaired + [out]))
  }

  /** The checks and counters every record goes through. */
  function Admit(s: State, r: Record, session: string): Option<State> {
    if r.session != session || r.eventId in s.eventIds || r.sequence <= s.previous || !r.ownScope then None
    else
      var t := s.(eventIds := s.eventIds + {r.eventId}, previous := r.sequence);
      match r.event
      case Typing(on) => Some(t.(generations := if on && !s.typing then s.generations + 1 else s.generations, typing := on))
      case _ => Some(t)
  }

  function StepRecord(s: State, r: Record, session: string): Option<State> {
    var t := Admit(s, r, session);
    if t.None? then None else
    var m := Accounted(r);
    if m.None? then Some(t.value.(repaired := t.value.repaired + [r]))
    else if m.value.tokenUsage.None? then
      if r.event.MetadataUpdated? || !m.value.hasContent then Some(t.value.(repaired := t.value.repaired + [r])) else None
    else Account(t.value, r, m.value, m.value.tokenUsage.value)
  }

  function Repair(records: seq<Record>, session: string): Option<State> {
    if records == [] then Some(START) else
    var s := Repair(records[..|records| - 1], session);
    if s.None? then None else StepRecord(s.value, records[|records| - 1], session)
  }

  /** What the audit expects of one ledger. */
  datatype Spec = Spec(session: string, requests: nat, generations: nat, total: Usage, prompt: int)

  predicate AllOrNone(us: seq<Usage>, field: Usage -> Count) {
    |Present(us, field)| == 0 || |Present(us, field)| == |us|
  }

  predicate Passes(s: State, spec: Spec) {
    var us := Usages(s.requests);
    && !s.typing && |s.requests| == spec.requests && s.generations == spec.generations
    && AllOrNone(us, CachedOf) && AllOrNone(us, CreationOf) && AllOrNone(us, ReasoningOf)
    && SumUsage(us) == spec.total && Prompt(SumUsage(us)) == Some(spec.prompt)
  }

  /** `recompute`, as its loop runs; None stands for its errors. */
  method Recompute(records: seq<Record>, spec: Spec) returns (r: Option<State>)
    ensures r.Some? <==> Repair(records, spec.session).Some? && Passes(Repair(records, spec.session).value, spec)
    ensures r.Some? ==> r == Repair(records, spec.session) && MeetsSpec(records, r.value.requests, spec)
    ensures r.Some? ==> forall k :: 0 <= k < |records| ==> Admissible(records, spec.session, k)
  {
    AuditedIff(records, spec);
    var s := START;
    for i := 0 to |records|
      invariant Repair(records[..i], spec.session) == Some(s)
    {
      assert records[..i + 1][..i] == records[..i];
      var t := StepRecord(s, records[i], spec.session);
      if t.None? {
        PrefixRepairs(records, i + 1, spec.session);
        return None;
      }
      s := t.value;
    }
    assert records[..|records|] == records;
    if !Passes(s, spec) {
      return None;
    }
    return Some(s);
  }

  lemma {:induction false} PrefixRepairs(records: seq<Record>, n: nat, session: string)
    requires n <= |records|
    ensures Repair(records, session).Some? ==> Repair(records[..n], session).Some?
  {
    if n < |records| {
      PrefixRepairs(records[..|records| - 1], n, session);
      assert records[..|records| - 1][..n] == records[..n];
    } else {
      assert records[..n] == records;
    }
  }

  // ---------------------------------------------------------- what is repaired

  /** The record accounts for a request, under its id. */
  predicate Accounts(r: Record) {
    var m := Accounted(r);
    m.Some? && m.value.tokenUsage.Some?
  }

  function RequestOf(r: Record): Request
    requires Accounts(r) && Accounted(r).value.tokenUsage.value.request.Known?
  {
    Request(Accounted(r).value.id, Accounted(r).value.tokenUsage.value.request.usage)
  }

  predicate Writes(r: Record) {
    Accounts(r) && Accounted(r).value.tokenUsage.value.cumulative.Known?
  }

  function CumulativeOf(r: Record): Usage
    requires Writes(r)
  {
    Accounted(r).value.tokenUsage.value.cumulative.usage
  }

  /** The record with its cumulative counters blanked: all that a repair may not touch. */
  function Blank(r: Record): Record {
    if Writes(r) then SetCumulative(r, NOTHING) else r
  }

  lemma SetCumulativeLaws(r: Record, u: Usage)
    requires Writes(r)
    ensures var t := SetCumulative(r, u);
      && Writes(t) && CumulativeOf(t) == u && Blank(t) == Blank(r)
      && (u == CumulativeOf(r) ==> t == r)
      && (forall v :: SetCumulative(t, v) == SetCumulative(r, v))
  {
  }

  /** What one accepted record does to the requests and the copy. */
  lemma StepShape(s: State, r: Record, session: string)
    requires StepRecord(s, r, session).Some?
    ensures var t := StepRecord(s, r, session).value;
      && (!Accounts(r) ==> t.requests == s.requests && t.repaired == s.repaired + [r])
      && (Accounts(r) ==>
            && Reported(Accounted(r).value.tokenUsage.value.request)
            && t.requests == (if HasId(s.requests, RequestOf(r).id) then s.requests else s.requests + [RequestOf(r)])
            && RequestOf(r) in t.requests
            && t.repaired == s.repaired + [if Writes(r) then SetCumulative(r, SumUsage(Usages(t.requests))) else r])
  {
  }

  predicate Distinct(rs: seq<Request>) {
    forall i, j :: 0 <= i < j < |rs| ==> rs[i].id != rs[j].id
  }

  predicate AccountsFor(r: Record, q: Request) {
    Accounts(r) && Accounted(r).value.tokenUsage.value.request.Known? && RequestOf(r) == q
  }

  predicate IsAccounted(records: seq<Record>, q: Request) {
    exists i :: 0 <= i < |records| && AccountsFor(records[i], q)
  }

  predicate AreRequestsOf(records: seq<Record>, rs: seq<Request>) {
    && Distinct(rs)
    && (forall i :: 0 <= i < |records| && Accounts(records[i]) ==>
         Accounted(records[i]).value.tokenUsage.value.request.Known? && RequestOf(records[i]) in rs)
    && (forall q :: q in rs ==> IsAccounted(records, q))
  }

  lemma AccountedBefore(before: seq<Record>, r: Record, q: Request)
    requires IsAccounted(before, q) || AccountsFor(r, q)
    ensures IsAccounted(before + [r], q)
  {
    if IsAccounted(before, q) {
      var i :| 0 <= i < |before| && AccountsFor(before[i], q);
      assert AccountsFor((before + [r])[i], q);
    } else {
      assert AccountsFor((before + [r])[|before|], q);
    }
  }

  lemma RequestsOneMore(before: seq<Record>, s: State, r: Record, session: string)
    requires AreRequestsOf(before, s.requests) && StepRecord(s, r, session).Some?
    ensures AreRequestsOf(before + [r], StepRecord(s, r, session).value.requests)
  {
    StepShape(s, r, session);
    var rs := StepRecord(s, r, session).value.requests;
    forall q | q in rs ensures IsAccounted(before + [r], q) {
      AccountedBefore(before, r, q);
    }
  }

  /** After any prefix the requests are exactly those the records account for, one per id. */
  lemma {:induction false} RequestsAre(records: seq<Record>, session: string)
    requires Repair(records, session).Some?
    ensures AreRequestsOf(records, Repair(records, session).value.requests)
  {
    if records != [] {
      var before, r := records[..|records| - 1], records[|records| - 1];
      RequestsAre(before, session);
      RequestsOneMore(before, Repair(before, session).value, r, session);
      assert before + [r] == records;
    }
  }

  /** The total over the first `n` records. */
  function TotalAt(records: seq<Record>, session: string, n: nat): Usage
    requires n <= |records| && Repair(records[..n], session).Some?
  {
    SumUsage(Usages(Repair(records[..n], session).value.requests))
  }

  /** Each record that carries a known cumulative counter is given exactly the sum over the distinct
      requests up to it, and nothing else in the ledger changes. */
  lemma {:induction false} RepairWrites(records: seq<Record>, session: string, k: nat)
    requires Repair(records, session).Some? && k < |records|
    ensures var out := Repair(records, session).value.repaired;
      && |out| == |records| && Blank(out[k]) == Blank(records[k]) && (Writes(out[k]) <==> Writes(records[k]))
      && (!Writes(records[k]) ==> out[k] == records[k])
      && Repair(records[..k + 1], session).Some?
      && (Writes(records[k]) ==> CumulativeOf(out[k]) == TotalAt(records, session, k + 1))
  {
    RepairedLength(records, session);
    var before, r := records[..|records| - 1], records[|records| - 1];
    var s := Repair(before, session).value;
    RepairedLength(before, session);
    StepShape(s, r, session);
    if k == |records| - 1 {
      assert records[..k + 1] == records;
      if Writes(r) {
        SetCumulativeLaws(r, SumUsage(Usages(Repair(records, session).value.requests)));
      }
    } else {
      RepairWrites(before, session, k);
      assert before[..k + 1] == records[..k + 1];
    }
  }

  lemma {:induction false} RepairedLength(records: seq<Record>, session: string)
    requires Repair(records, session).Some?
    ensures |Repair(records, session).value.repaired| == |records|
  {
    if records != [] {
      RepairedLength(records[..|records| - 1], session);
      StepShape(Repair(records[..|records| - 1], session).value, records[|records| - 1], session);
    }
  }

  // ------------------------------------------------------- read off the ledger

  /** The record is an assistant's answer with token counters, seen by the user, under this id. */
  predicate Answers(r: Record, id: string) {
    && r.visible
    && ((r.event.StreamEnd? && r.event.message.id == id && r.event.message.tokenUsage.Some?)
        || (r.event.MessageAdded? && r.event.fromAssistant && r.event.message.id == id && r.event.message.tokenUsage.Some?))
  }

  predicate Revises(r: Record, id: string) {
    r.visible && r.event.MetadataUpdated? && r.event.message.id == id && r.event.message.tokenUsage.Some?
  }

  /** An answer or a later update of one reports these request counters. */
  predicate Reports(r: Record, id: string, u: Usage) {
    (Answers(r, id) || Revises(r, id)) && r.event.message.tokenUsage.value.request == Known(u)
  }

  predicate AtLeastZero(c: Count) {
    c.Some? ==> c.value >= 0
  }

  predicate CountersOk(m: Message)
    requires m.tokenUsage.Some?
  {
    && m.id != "" && m.tokenUsage.value.request.Known?
    && var u := m.tokenUsage.value.request.usage;
       && u.input.Some? && u.output.Some? && u.total.Some?
       && AtLeastZero(u.input) && AtLeastZero(u.output) && AtLeastZero(u.total)
       && AtLeastZero(u.cached) && AtLeastZero(u.creation) && AtLeastZero(u.reasoning)
  }

  /** Message `m` answers in record `k`: it has no content, or good counters under a new id. */
  ghost predicate AnswerOk(records: seq<Record>, k: nat, m: Message)
    requires k < |records|
  {
    if m.tokenUsage.None? then !m.hasContent
    else CountersOk(m) && forall i :: 0 <= i < k ==> !Answers(records[i], m.id)
  }

  /** What the audit asks of record `k`, given those before it. */
  ghost predicate Admissible(records: seq<Record>, session: string, k: nat)
    requires k < |records|
  {
    var r := records[k];
    && r.session == session && r.ownScope
    && r.sequence > (if k == 0 then -1 else records[k - 1].sequence)
    && (forall i :: 0 <= i < k ==> records[i].eventId != r.eventId)
    && (r.visible ==>
          match r.event
          case StreamEnd(m) => AnswerOk(records, k, m)
          case MessageAdded(fromAssistant, m) => fromAssistant ==> AnswerOk(records, k, m)
          case MetadataUpdated(m) => m.tokenUsage.Some? ==>
            CountersOk(m)
            && exists i :: 0 <= i < k && Answers(records[i], m.id) && Reports(records[i], m.id, m.tokenUsage.value.request.usage)
          case Typing(_) => true
          case OtherEvent(_) => true)
  }

  /** What the state holds, as read off the records. */
  ghost predicate HoldsIds(records: seq<Record>, s: State) {
    && (forall e :: e in s.eventIds <==> exists i :: 0 <= i < |records| && records[i].eventId == e)
    && (forall id :: id in s.responseIds <==> exists i :: 0 <= i < |records| && Answers(records[i], id))
    && s.previous == (if records == [] then -1 else records[|records| - 1].sequence)
  }

  ghost predicate HoldsRequests(records: seq<Record>, rs: seq<Request>) {
    && Distinct(rs)
    && (forall q :: q in rs <==> exists i :: 0 <= i < |records| && Reports(records[i], q.id, q.usage))
    && (forall q :: q in rs ==> exists i :: 0 <= i < |records| && Answers(records[i], q.id) && Reports(records[i], q.id, q.usage))
    && (forall i, id :: 0 <= i < |records| && Answers(records[i], id) ==> records[i].event.message.tokenUsage.value.request.Known?)
  }

  /** The last typing change said on. */
  ghost predicate TypingBefore(records: seq<Record>, k: nat)
    requires k <= |records|
  {
    exists i :: 0 <= i < k && records[i].event == Typing(true) && forall j :: i < j < k ==> !records[j].event.Typing?
  }

  /** Record `k` starts a generation: typing goes from off to on. */
  ghost predicate Rises(records: seq<Record>, k: nat)
    requires k < |records|
  {
    records[k].event == Typing(true) && !TypingBefore(records, k)
  }

  ghost function RisesOf(records: seq<Record>): set<nat> {
    set k: nat | k < |records| && Rises(records, k)
  }

  ghost predicate HoldsTyping(records: seq<Record>, s: State) {
    s.typing == TypingBefore(records, |records|) && s.generations == |RisesOf(records)|
  }

  /** The checks that every record goes through. */
  ghost predicate Orderly(records: seq<Record>, session: string, k: nat)
    requires k < |records|
  {
    var r := records[k];
    && r.session == session && r.ownScope
    && r.sequence > (if k == 0 then -1 else records[k - 1].sequence)
    && (forall i :: 0 <= i < k ==> records[i].eventId != r.eventId)
  }

  lemma AdmittedIff(before: seq<Record>, s: State, r: Record, session: string)
    requires HoldsIds(before, s)
    ensures Admit(s, r, session).Some? <==> Orderly(before + [r], session, |before|)
    ensures Admit(s, r, session).Some? ==>
      var t := Admit(s, r, session).value;
      t == s.(eventIds := s.eventIds + {r.eventId}, previous := r.sequence, generations := t.generations, typing := t.typing)
  {
    var all := before + [r];
    assert all[|before|] == r && forall i :: 0 <= i < |before| ==> all[i] == before[i];
  }

  lemma AnsweredBefore(before: seq<Record>, r: Record, s: State, id: string)
    requires HoldsIds(before, s)
    ensures id in s.responseIds <==> exists i :: 0 <= i < |before| && Answers((before + [r])[i], id)
  {
    assert forall i :: 0 <= i < |before| ==> (before + [r])[i] == before[i];
  }

  /** An answer is accounted for exactly when its counters are good and its id is new. */
  lemma AnswerCountsIff(before: seq<Record>, s: State, r: Record, m: Message, u: TokenUsage)
    requires HoldsIds(before, s) && HoldsRequests(before, s.requests)
    requires Accounted(r) == Some(m) && m.tokenUsage == Some(u) && !r.event.MetadataUpdated?
    ensures Account(s, r, m, u).Some? <==> AnswerOk(before + [r], |before|, m)
  {
    AnsweredBefore(before, r, s, m.id);
    if HasId(s.requests, m.id) {
      var k :| 0 <= k < |s.requests| && s.requests[k].id == m.id;
      assert s.requests[k] in s.requests;
    }
  }

  lemma AnswerIsRequested(records: seq<Record>, rs: seq<Request>, i: nat, id: string)
    requires HoldsRequests(records, rs) && i < |records| && Answers(records[i], id)
    ensures HasId(rs, id)
  {
    var q := Request(id, records[i].event.message.tokenUsage.value.request.usage);
    assert Reports(records[i], q.id, q.usage);
    assert q in rs;
  }

  /** An update is accounted for exactly when it repeats the counters of an earlier answer. */
  lemma RevisionCountsIff(before: seq<Record>, s: State, r: Record, m: Message, u: TokenUsage)
    requires HoldsIds(before, s) && HoldsRequests(before, s.requests)
    requires Accounted(r) == Some(m) && m.tokenUsage == Some(u) && r.event.MetadataUpdated?
    requires CountersOk(m)
    ensures Account(s, r, m, u).Some? <==>
      exists i :: 0 <= i < |before| && Answers(before[i], m.id) && Reports(before[i], m.id, u.request.usage)
  {
    var q := Request(m.id, u.request.usage);
    if Account(s, r, m, u).Some? {
      var i :| 0 <= i < |before| && Answers(before[i], m.id);
      AnswerIsRequested(before, s.requests, i, m.id);
      assert q in s.requests;
    } else if i :| 0 <= i < |before| && Answers(before[i], m.id) && Reports(before[i], m.id, u.request.usage) {
      assert q in s.requests;
    }
  }

  lemma UpdateRepeats(before: seq<Record>, r: Record, id: string, u: Usage)
    ensures (exists i :: 0 <= i < |before| && Answers(before[i], id) && Reports(before[i], id, u)) <==>
            exists i :: 0 <= i < |before| && Answers((before + [r])[i], id) && Reports((before + [r])[i], id, u)
  {
    var all := before + [r];
    if i :| 0 <= i < |before| && Answers(before[i], id) && Reports(before[i], id, u) {
      assert all[i] == before[i];
    }
    if i :| 0 <= i < |before| && Answers(all[i], id) && Reports(all[i], id, u) {
      assert all[i] == before[i];
    }
  }

  /** A record is let through exactly when it is admissible after those before it. */
  lemma StepAdmissibleIff(before: seq<Record>, s: State, r: Record, session: string)
    requires HoldsIds(before, s) && HoldsRequests(before, s.requests)
    ensures StepRecord(s, r, session).Some? <==> Admissible(before + [r], session, |before|)
  {
    AdmittedIff(before, s, r, session);
    assert (before + [r])[|before|] == r;
    if Admit(s, r, session).Some? && Accounts(r) {
      var t := Admit(s, r, session).value;
      MessageCountsIff(before, t.(eventIds := s.eventIds, previous := s.previous), r, r.event.message);
    }
  }

  lemma MessageCountsIff(before: seq<Record>, s: State, r: Record, m: Message)
    requires HoldsIds(before, s) && HoldsRequests(before, s.requests) && Accounted(r) == Some(m) && m.tokenUsage.Some?
    ensures Account(s, r, m, m.tokenUsage.value).Some? <==>
      if r.event.MetadataUpdated?
      then CountersOk(m) && exists i :: 0 <= i < |before| && Answers((before + [r])[i], m.id)
                                        && Reports((before + [r])[i], m.id, m.tokenUsage.value.request.usage)
      else AnswerOk(before + [r], |before|, m)
  {
    if !r.event.MetadataUpdated? {
      AnswerCountsIff(before, s, r, m, m.tokenUsage.value);
    } else if CountersOk(m) {
      RevisionCountsIff(before, s, r, m, m.tokenUsage.value);
      UpdateRepeats(before, r, m.id, m.tokenUsage.value.request.usage);
    }
  }

  lemma StepHoldsIds(before: seq<Record>, s: State, r: Record, session: string)
    requires HoldsIds(before, s) && StepRecord(s, r, session).Some?
    ensures HoldsIds(before + [r], StepRecord(s, r, session).value)
  {
    var all, t := before + [r], StepRecord(s, r, session).value;
    assert all[|before|] == r && forall i :: 0 <= i < |before| ==> all[i] == before[i];
    forall e ensures e in t.eventIds <==> exists i :: 0 <= i < |all| && all[i].eventId == e {
      if e in s.eventIds {
        var i :| 0 <= i < |before| && before[i].eventId == e;
        assert all[i].eventId == e;
      }
    }
    forall id ensures id in t.responseIds <==> exists i :: 0 <= i < |all| && Answers(all[i], id) {
      if id in s.responseIds {
        var i :| 0 <= i < |before| && Answers(before[i], id);
        assert Answers(all[i], id);
      }
    }
  }

  /** Which request a record reports, if any. */
  lemma ReportsRequest(r: Record, q: Request)
    requires Accounts(r) && Accounted(r).value.tokenUsage.value.request.Known?
    ensures Reports(r, q.id, q.usage) <==> q == RequestOf(r)
  {
  }

  lemma NoReport(r: Record, q: Request)
    requires !Accounts(r)
    ensures !Reports(r, q.id, q.usage) && !Answers(r, q.id) && !Revises(r, q.id)
  {
  }

  lemma OneMoreReports(before: seq<Record>, rs: seq<Request>, r: Record, ts: seq<Request>, q: Request)
    requires HoldsRequests(before, rs)
    requires if Accounts(r) then Accounted(r).value.tokenUsage.value.request.Known? && RequestOf(r) in ts && (ts == rs || ts == rs + [RequestOf(r)])
             else ts == rs
    ensures q in ts <==> exists i :: 0 <= i < |before| + 1 && Reports((before + [r])[i], q.id, q.usage)
  {
    var all := before + [r];
    assert all[|before|] == r && forall i :: 0 <= i < |before| ==> all[i] == before[i];
    if Accounts(r) {
      ReportsRequest(r, q);
    } else {
      NoReport(r, q);
    }
    if q in rs {
      var i :| 0 <= i < |before| && Reports(before[i], q.id, q.usage);
      assert Reports(all[i], q.id, q.usage);
    }
    if i :| 0 <= i < |all| && Reports(all[i], q.id, q.usage) && i < |before| {
      assert Reports(before[i], q.id, q.usage);
    }
  }

  /** A request that is new is an answer's. */
  lemma NewRequestIsAnswer(before: seq<Record>, s: State, r: Record, session: string)
    requires HoldsIds(before, s) && HoldsRequests(before, s.requests) && StepRecord(s, r, session).Some? && Accounts(r)
    ensures Accounted(r).value.tokenUsage.value.request.Known?
    ensures RequestOf(r) in s.requests || Answers(r, RequestOf(r).id)
  {
    StepAdmissibleIff(before, s, r, session);
    if r.event.MetadataUpdated? {
      var all, m := before + [r], r.event.message;
      var i :| 0 <= i < |before| && Answers(all[i], m.id) && Reports(all[i], m.id, m.tokenUsage.value.request.usage);
      assert Reports(before[i], RequestOf(r).id, RequestOf(r).usage);
    }
  }

  lemma AnswersStay(before: seq<Record>, r: Record, q: Request)
    requires exists i :: 0 <= i < |before| && Answers(before[i], q.id) && Reports(before[i], q.id, q.usage)
    ensures exists i :: 0 <= i < |before| + 1 && Answers((before + [r])[i], q.id) && Reports((before + [r])[i], q.id, q.usage)
  {
    var i :| 0 <= i < |before| && Answers(before[i], q.id) && Reports(before[i], q.id, q.usage);
    assert (before + [r])[i] == before[i];
  }

  lemma RequestIsAnswered(before: seq<Record>, rs: seq<Request>, r: Record, q: Request)
    requires HoldsRequests(before, rs) && (q in rs || (Answers(r, q.id) && Reports(r, q.id, q.usage)))
    ensures exists i :: 0 <= i < |before| + 1 && Answers((before + [r])[i], q.id) && Reports((before + [r])[i], q.id, q.usage)
  {
    if q in rs {
      AnswersStay(before, r, q);
    } else {
      assert (before + [r])[|before|] == r;
    }
  }

  lemma StepHoldsRequests(before: seq<Record>, s: State, r: Record, session: string)
    requires HoldsIds(before, s) && HoldsRequests(before, s.requests) && StepRecord(s, r, session).Some?
    ensures HoldsRequests(before + [r], StepRecord(s, r, session).value.requests)
  {
    var all, ts := before + [r], StepRecord(s, r, session).value.requests;
    StepShape(s, r, session);
    if Accounts(r) {
      NewRequestIsAnswer(before, s, r, session);
    }
    forall q ensures q in ts <==> exists i :: 0 <= i < |all| && Reports(all[i], q.id, q.usage) {
      OneMoreReports(before, s.requests, r, ts, q);
    }
    forall q | q in ts ensures exists i :: 0 <= i < |all| && Answers(all[i], q.id) && Reports(all[i], q.id, q.usage) {
      RequestIsAnswered(before, s.requests, r, q);
    }
    forall i, id | 0 <= i < |all| && Answers(all[i], id) ensures all[i].event.message.tokenUsage.value.request.Known? {
      assert i < |before| ==> all[i] == before[i];
    }
  }

  /** After any ledger that is let through the state holds what the records say. */
  lemma {:induction false} RepairHolds(records: seq<Record>, session: string)
    requires Repair(records, session).Some?
    ensures HoldsIds(records, Repair(records, session).value)
    ensures HoldsRequests(records, Repair(records, session).value.requests)
  {
    if records != [] {
      var before, r := records[..|records| - 1], records[|records| - 1];
      RepairHolds(before, session);
      StepHoldsIds(before, Repair(before, session).value, r, session);
      StepHoldsRequests(before, Repair(before, session).value, r, session);
      assert before + [r] == records;
    }
  }

  lemma AdmissibleInPrefix(records: seq<Record>, session: string, k: nat, n: nat)
    requires k < n <= |records|
    ensures Admissible(records[..n], session, k) <==> Admissible(records, session, k)
  {
    assert forall i :: 0 <= i < n ==> records[..n][i] == records[i];
  }

  /** The ledgers that are let through are exactly those all of whose records are admissible. */
  lemma {:induction false} RepairsIff(records: seq<Record>, session: string)
    ensures Repair(records, session).Some? <==> forall k :: 0 <= k < |records| ==> Admissible(records, session, k)
  {
    if records != [] {
      var n := |records| - 1;
      var before, r := records[..n], records[n];
      RepairsIff(before, session);
      forall k: nat | k < n ensures Admissible(before, session, k) <==> Admissible(records, session, k) {
        AdmissibleInPrefix(records, session, k, n);
      }
      if Repair(before, session).Some? {
        RepairHolds(before, session);
        StepAdmissibleIff(before, Repair(before, session).value, r, session);
        assert before + [r] == records;
      }
    }
  }

  /** The record has a cumulative counter that a repair is to overwrite. */
  predicate HasCumulative(r: Record) {
    && r.visible && (r.event.StreamEnd? || r.event.MetadataUpdated? || (r.event.MessageAdded? && r.event.fromAssistant))
    && r.event.message.tokenUsage.Some? && r.event.message.tokenUsage.value.cumulative.Known?
  }

  /** The record with that counter overwritten, and nothing else. */
  function Overwritten(r: Record, total: Usage): Record
    requires HasCumulative(r)
  {
    var m := r.event.message;
    var n := Message(m.id, m.hasContent, Some(TokenUsage(m.tokenUsage.value.request, Known(total))));
    Record(r.session, r.eventId, r.sequence, r.ownScope, r.visible,
           match r.event
           case StreamEnd(_) => StreamEnd(n)
           case MessageAdded(fromAssistant, _) => MessageAdded(fromAssistant, n)
           case MetadataUpdated(_) => MetadataUpdated(n))
  }

  lemma WritesIff(r: Record)
    ensures Writes(r) <==> HasCumulative(r)
    ensures Writes(r) ==> forall u :: SetCumulative(r, u) == Overwritten(r, u)
  {
  }

  /** A hidden record, somebody else's message, a typing change and any other event are copied as they
      are; so is a message without a known cumulative counter; that counter becomes the sum over the
      requests reported so far, each once, and nothing else of the record changes. */
  lemma RepairedIs(records: seq<Record>, session: string, k: nat)
    requires Repair(records, session).Some? && k < |records|
    ensures var out := Repair(records, session).value.repaired;
      && |out| == |records|
      && (!HasCumulative(records[k]) ==> out[k] == records[k])
      && (HasCumulative(records[k]) ==>
            exists rs :: HoldsRequests(records[..k + 1], rs) && out[k] == Overwritten(records[k], SumUsage(Usages(rs))))
  {
    var out := Repair(records, session).value.repaired;
    RepairWrites(records, session, k);
    WritesIff(records[k]);
    if HasCumulative(records[k]) {
      var rs := Repair(records[..k + 1], session).value.requests;
      RepairHolds(records[..k + 1], session);
      SameButCumulative(records[k], out[k]);
      assert out[k] == Overwritten(records[k], SumUsage(Usages(rs)));
    }
  }

  lemma TypingStep(before: seq<Record>, s: State, r: Record, session: string)
    requires HoldsTyping(before, s) && StepRecord(s, r, session).Some?
    ensures HoldsTyping(before + [r], StepRecord(s, r, session).value)
  {
    var all, t, n := before + [r], StepRecord(s, r, session).value, |before|;
    TypingBeforeStays(before, r);
    TypingAfter(before, r);
    RisesAfter(before, r);
    assert t.typing == (if r.event.Typing? then r.event.on else s.typing);
  }

  lemma TypingBeforeStays(before: seq<Record>, r: Record)
    ensures forall k: nat :: k <= |before| ==> (TypingBefore(before + [r], k) <==> TypingBefore(before, k))
  {
    var all := before + [r];
    assert forall i :: 0 <= i < |before| ==> all[i] == before[i];
    forall k: nat | k <= |before| ensures TypingBefore(all, k) <==> TypingBefore(before, k) {
      if TypingBefore(all, k) {
        var i :| 0 <= i < k && all[i].event == Typing(true) && forall j :: i < j < k ==> !all[j].event.Typing?;
        assert before[i].event == Typing(true) && forall j :: i < j < k ==> !before[j].event.Typing? by {
          assert forall j :: i < j < k ==> all[j] == before[j];
        }
      }
      if TypingBefore(before, k) {
        var i :| 0 <= i < k && before[i].event == Typing(true) && forall j :: i < j < k ==> !before[j].event.Typing?;
        assert all[i].event == Typing(true);
      }
    }
  }

  lemma TypingAfter(before: seq<Record>, r: Record)
    ensures TypingBefore(before + [r], |before| + 1) <==>
      if r.event.Typing? then r.event.on else TypingBefore(before, |before|)
  {
    var all := before + [r];
    assert all[|before|] == r;
    TypingBeforeStays(before, r);
    if r.event.Typing? {
      assert all[|before|].event == r.event;
    } else if TypingBefore(all, |before|) {
      var i :| 0 <= i < |before| && all[i].event == Typing(true) && forall j :: i < j < |before| ==> !all[j].event.Typing?;
      assert forall j :: i < j < |before| + 1 ==> !all[j].event.Typing?;
    }
  }

  lemma RisesAfter(before: seq<Record>, r: Record)
    ensures |RisesOf(before + [r])| ==
      |RisesOf(before)| + if r.event == Typing(true) && !TypingBefore(before, |before|) then 1 else 0
  {
    var all, n := before + [r], |before|;
    assert all[n] == r && forall i :: 0 <= i < n ==> all[i] == before[i];
    TypingBeforeStays(before, r);
    forall k: nat ensures k in RisesOf(all) <==> k in RisesOf(before) || (k == n && Rises(all, n)) {
      if k < n {
        assert Rises(all, k) <==> Rises(before, k);
      }
    }
    if Rises(all, n) {
      assert RisesOf(all) == RisesOf(before) + {n};
    } else {
      assert RisesOf(all) == RisesOf(before);
    }
  }

  /** The generations counted are the places where typing went from off to on. */
  lemma {:induction false} GenerationsAreRises(records: seq<Record>, session: string)
    requires Repair(records, session).Some?
    ensures HoldsTyping(records, Repair(records, session).value)
  {
    if records == [] {
      NoRises(records);
    } else {
      var before, r := records[..|records| - 1], records[|records| - 1];
      assert before + [r] == records;
      GenerationsAreRises(before, session);
      TypingStep(before, Repair(before, session).value, r, session);
    }
  }

  lemma NoRises(records: seq<Record>)
    requires records == []
    ensures HoldsTyping(records, START)
  {
    assert RisesOf(records) == {};
  }

  /** All of the requests report it, or none does. */
  predicate AllOrNoneReport(rs: seq<Request>, field: Usage -> Count) {
    (forall i :: 0 <= i < |rs| ==> field(rs[i].usage).Some?) || (forall i :: 0 <= i < |rs| ==> field(rs[i].usage).None?)
  }

  lemma {:induction false} PresentIs(us: seq<Usage>, field: Usage -> Count)
    ensures |Present(us, field)| <= |us|
    ensures |Present(us, field)| == 0 <==> forall i :: 0 <= i < |us| ==> field(us[i]).None?
    ensures |Present(us, field)| == |us| <==> forall i :: 0 <= i < |us| ==> field(us[i]).Some?
  {
    if us != [] {
      var rest := us[..|us| - 1];
      PresentIs(rest, field);
      assert forall i :: 0 <= i < |rest| ==> rest[i] == us[i];
    }
  }

  lemma AllOrNoneIff(rs: seq<Request>, field: Usage -> Count)
    ensures AllOrNone(Usages(rs), field) <==> AllOrNoneReport(rs, field)
  {
    PresentIs(Usages(rs), field);
    assert forall i :: 0 <= i < |rs| ==> Usages(rs)[i] == rs[i].usage;
  }

  /** What else the audit asks of a ledger, read off its records: the last generation is over, the
      requests and generations are as many as expected, each optional counter is reported by all the
      requests or by none, and the total is the expected one. */
  ghost predicate MeetsSpec(records: seq<Record>, rs: seq<Request>, spec: Spec) {
    && HoldsRequests(records, rs) && !TypingBefore(records, |records|)
    && |rs| == spec.requests && |RisesOf(records)| == spec.generations
    && OptionalsAgree(rs) && IsExpected(SumUsage(Usages(rs)), spec)
  }

  /** Each optional counter is reported by all the requests or by none. */
  predicate OptionalsAgree(rs: seq<Request>) {
    AllOrNoneReport(rs, CachedOf) && AllOrNoneReport(rs, CreationOf) && AllOrNoneReport(rs, ReasoningOf)
  }

  /** The total is the expected one, and so is the number of prompt tokens in it. */
  predicate IsExpected(total: Usage, spec: Spec) {
    && total == spec.total && total.input.Some?
    && spec.prompt == total.input.value + (if total.cached.Some? then total.cached.value else 0)
                      + (if total.creation.Some? then total.creation.value else 0)
  }

  /** A ledger passes the audit exactly when its records are admissible and meet what is expected. */
  lemma AuditedIff(records: seq<Record>, spec: Spec)
    ensures Repair(records, spec.session).Some? <==> forall k :: 0 <= k < |records| ==> Admissible(records, spec.session, k)
    ensures Repair(records, spec.session).Some? ==>
      var s := Repair(records, spec.session).value;
      Passes(s, spec) <==> MeetsSpec(records, s.requests, spec)
  {
    RepairsIff(records, spec.session);
    if Repair(records, spec.session).Some? {
      var s := Repair(records, spec.session).value;
      RepairHolds(records, spec.session);
      GenerationsAreRises(records, spec.session);
      PassesIff(records, s, spec);
    }
  }

  lemma PassesIff(records: seq<Record>, s: State, spec: Spec)
    requires HoldsRequests(records, s.requests) && HoldsTyping(records, s)
    ensures Passes(s, spec) <==> MeetsSpec(records, s.requests, spec)
  {
    OptionalsIff(s.requests);
    ExpectedIff(SumUsage(Usages(s.requests)), spec);
  }

  lemma ExpectedIff(total: Usage, spec: Spec)
    ensures total == spec.total && Prompt(total) == Some(spec.prompt) <==> IsExpected(total, spec)
  {
  }

  lemma OptionalsIff(rs: seq<Request>)
    ensures AllOrNone(Usages(rs), CachedOf) && AllOrNone(Usages(rs), CreationOf) && AllOrNone(Usages(rs), ReasoningOf) <==>
            OptionalsAgree(rs)
  {
    AllOrNoneIff(rs, CachedOf);
    AllOrNoneIff(rs, CreationOf);
    AllOrNoneIff(rs, ReasoningOf);
  }

  // ------------------------------------------------------------- never smaller

  predicate AtMost(a: Count, b: Count) {
    a.None? || (b.Some? && a.value <= b.value)
  }

  predicate UsageAtMost(u: Usage, v: Usage) {
    && AtMost(u.input, v.input) && AtMost(u.output, v.output) && AtMost(u.total, v.total)
    && AtMost(u.cached, v.cached) && AtMost(u.creation, v.creation) && AtMost(u.reasoning, v.reasoning)
  }

  predicate Natural(u: Usage) {
    Reported(Known(u))
  }

  lemma AddIsAtLeast(u: Usage, v: Usage)
    requires Natural(v)
    ensures UsageAtMost(u, Add(u, v))
  {
  }

  lemma UsageAtMostTransitive(u: Usage, v: Usage, w: Usage)
    requires UsageAtMost(u, v) && UsageAtMost(v, w)
    ensures UsageAtMost(u, w)
  {
  }

  lemma OneStepGrows(s: State, r: Record, session: string)
    requires StepRecord(s, r, session).Some?
    ensures UsageAtMost(SumUsage(Usages(s.requests)), SumUsage(Usages(StepRecord(s, r, session).value.requests)))
  {
    StepShape(s, r, session);
    var t := StepRecord(s, r, session).value;
    if t.requests != s.requests {
      var q := RequestOf(r);
      assert Usages(s.requests + [q]) == Usages(s.requests) + [q.usage];
      SumOneMore(Usages(s.requests), q.usage);
      AddIsAtLeast(SumUsage(Usages(s.requests)), q.usage);
    }
  }

  lemma RepairsBefore(records: seq<Record>, session: string, n: nat)
    requires 0 < n <= |records| && Repair(records[..n], session).Some?
    ensures Repair(records[..n - 1], session).Some?
    ensures StepRecord(Repair(records[..n - 1], session).value, records[n - 1], session) == Repair(records[..n], session)
  {
    assert records[..n][..n - 1] == records[..n - 1];
  }

  /** The totals never go down along the ledger. */
  lemma {:induction false} TotalAtGrows(records: seq<Record>, session: string, m: nat, n: nat)
    requires m <= n <= |records| && Repair(records[..n], session).Some?
    ensures Repair(records[..m], session).Some? && UsageAtMost(TotalAt(records, session, m), TotalAt(records, session, n))
    decreases n - m
  {
    if m < n {
      RepairsBefore(records, session, n);
      TotalAtGrows(records, session, m, n - 1);
      OneStepGrows(Repair(records[..n - 1], session).value, records[n - 1], session);
      UsageAtMostTransitive(TotalAt(records, session, m), TotalAt(records, session, n - 1), TotalAt(records, session, n));
    }
  }

  /** The repaired counters never go down along the ledger. */
  lemma RepairedCountersGrow(records: seq<Record>, session: string, j: nat, k: nat)
    requires Repair(records, session).Some? && j <= k < |records| && Writes(records[j]) && Writes(records[k])
    ensures var out := Repair(records, session).value.repaired;
      |out| == |records| && Writes(out[j]) && Writes(out[k]) && UsageAtMost(CumulativeOf(out[j]), CumulativeOf(out[k]))
  {
    RepairWrites(records, session, j);
    RepairWrites(records, session, k);
    TotalAtGrows(records, session, j + 1, k + 1);
  }

  // ---------------------------------------------------------------- idempotent

  /** The same state but for the copy made so far. */
  predicate SameAudit(s: Option<State>, t: Option<State>) {
    if s.None? then t.None? else t.Some? && s.value == t.value.(repaired := s.value.repaired)
  }

  /** A step reads nothing from the copy made so far. */
  lemma StepIgnoresCopy(s: State, t: State, r: Record, session: string)
    requires SameAudit(Some(s), Some(t))
    ensures SameAudit(StepRecord(s, r, session), StepRecord(t, r, session))
  {
  }

  /** Nor from the record's cumulative counters. */
  lemma StepIgnoresCumulative(s: State, r: Record, u: Usage, session: string)
    requires Writes(r)
    ensures SameAudit(StepRecord(s, r, session), StepRecord(s, SetCumulative(r, u), session))
  {
    var q := SetCumulative(r, u);
    SetCumulativeLaws(r, u);
    AdmitIgnoresCumulative(s, r, u, session);
    if Admit(s, r, session).Some? {
      AccountIgnoresCumulative(Admit(s, r, session).value, r, u);
    }
  }

  lemma AdmitIgnoresCumulative(s: State, r: Record, u: Usage, session: string)
    requires Writes(r)
    ensures Admit(s, SetCumulative(r, u), session) == Admit(s, r, session)
  {
  }

  lemma AccountIgnoresCumulative(s: State, r: Record, u: Usage)
    requires Writes(r)
    ensures var q := SetCumulative(r, u);
      && Writes(q) && Accounted(q).value.tokenUsage.Some?
      && SameAudit(Account(s, r, Accounted(r).value, Accounted(r).value.tokenUsage.value),
                   Account(s, q, Accounted(q).value, Accounted(q).value.tokenUsage.value))
  {
  }

  lemma BlankedSteps(s: State, t: State, r: Record, q: Record, session: string)
    requires SameAudit(Some(s), Some(t)) && Blank(r) == Blank(q) && (Writes(r) <==> Writes(q))
    ensures SameAudit(StepRecord(s, r, session), StepRecord(t, q, session))
  {
    SameButCumulative(r, q);
    if Writes(r) {
      StepIgnoresCumulative(s, r, CumulativeOf(q), session);
      SetCumulativeLaws(r, CumulativeOf(q));
    }
    StepIgnoresCopy(s, t, q, session);
  }

  lemma SameButCumulative(r: Record, q: Record)
    requires Blank(r) == Blank(q) && (Writes(r) <==> Writes(q))
    ensures q == r || (Writes(r) && q == SetCumulative(r, CumulativeOf(q)))
  {
  }

  /** The audit reads nothing from the cumulative counters. */
  lemma {:induction false} RepairIgnoresCumulative(records: seq<Record>, others: seq<Record>, session: string)
    requires |records| == |others|
    requires forall k :: 0 <= k < |records| ==> Blank(records[k]) == Blank(others[k]) && (Writes(records[k]) <==> Writes(others[k]))
    ensures SameAudit(Repair(records, session), Repair(others, session))
  {
    if records != [] {
      var n := |records| - 1;
      RepairIgnoresCumulative(records[..n], others[..n], session);
      if Repair(records[..n], session).Some? {
        BlankedSteps(Repair(records[..n], session).value, Repair(others[..n], session).value, records[n], others[n], session);
      }
    }
  }

  /** Repairing a repaired ledger changes nothing. */
  lemma RepairIsIdempotent(records: seq<Record>, session: string)
    requires Repair(records, session).Some?
    ensures var out := Repair(records, session).value.repaired;
      Repair(out, session).Some? && Repair(out, session).value == Repair(records, session).value
  {
    var out := Repair(records, session).value.repaired;
    RepairedLength(records, session);
    forall k | 0 <= k < |records| ensures Blank(out[k]) == Blank(records[k]) && (Writes(out[k]) <==> Writes(records[k])) {
      RepairWrites(records, session, k);
    }
    RepairIgnoresCumulative(records, out, session);
    var again := Repair(out, session).value.repaired;
    RepairedLength(out, session);
    forall k | 0 <= k < |records| ensures again[k] == out[k] {
      RepairWrites(records, session, k);
      RepairWrites(out, session, k);
      RepairIgnoresCumulative(records[..k + 1], out[..k + 1], session);
      if Writes(out[k]) {
        SameButCumulative(out[k], again[k]);
        SetCumulativeLaws(out[k], CumulativeOf(out[k]));
      }
    }
    assert again == out;
  }
}
