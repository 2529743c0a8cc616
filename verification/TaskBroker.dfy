/**
  The task broker: what a call passes before its handler runs. A call is a run of the object's
  methods, one for each stretch of code between two awaits; calls interleave at those points.
 */
module TaskBroker {
  import opened Text
  import opened RateHistory
  import CompoundKeys
  import SlidingWindow
  import PeerAccess

  datatype GateKind = VerifiedContact | AccessPass | Any

  datatype AgentLevel = Telemetry | Approved | Never

  datatype RemotePolicy = RemotePolicy(gates: seq<GateKind>, scope: Option<string>, level: AgentLevel)

  // `validateRemotePolicy`
  predicate PolicyOk(p: RemotePolicy) { p.gates != [] && (AccessPass in p.gates ==> p.scope.Some?) }

  function ScopeText(p: RemotePolicy): string { if p.scope.Some? then p.scope.value else "" }

  datatype SkillRecord = SkillRecord(
    localOnly: bool, httpExposed: bool, httpBridgeOnly: bool, remote: Option<RemotePolicy>, telemetry: bool)

  datatype Registration = Registration(
    localOnly: Option<bool>, httpExposed: Option<bool>, httpBridgeOnly: bool, remote: Option<RemotePolicy>, telemetry: bool)

  datatype Gate = Local | Network | Http

  datatype Phase = Resolving | Narrowing | Proving | Approving | Counting | Admitting | Running

  // A call that is under way. The caller's id is the one the transport has verified; the rest is
  // what the call has gone through so far.
  datatype Invocation = Invocation(
    gate: Gate, peerId: Option<string>, skill: string, record: SkillRecord, phase: Phase,
    agent: Option<string>, matrix: Option<bool>, context: PeerAccess.Context, approved: bool)

  datatype Refusal =
    | UnknownSkill | LocalOnly | MatrixDenied | NotAuthorized | TelemetryLimit | PeerLimit | NotExposed | AtCapacity

  const ANONYMOUS_PEER_KEY := "<anonymous>"

  function PeerKey(peerId: Option<string>): string {
    if peerId.Some? && peerId.value != "" then peerId.value else ANONYMOUS_PEER_KEY
  }

  function PeerText(peerId: Option<string>): string { if peerId.Some? then peerId.value else "" }

  // The modes a policy's gates stand for; the public path is closed to agents.
  function ModesFor(gates: seq<GateKind>, agent: bool): seq<PeerAccess.Mode> {
    if gates == [] then []
    else
      ModesFor(gates[..|gates| - 1], agent) +
      match gates[|gates| - 1]
      case VerifiedContact => [PeerAccess.VerifiedContact]
      case AccessPass => [PeerAccess.AccessPass]
      case Any => if agent then [] else [PeerAccess.Public]
  }

  // `registerSkill`: no record when the options contradict each other.
  function RecordFor(r: Registration): Option<SkillRecord> {
    if r.remote.Some? && !PolicyOk(r.remote.value) then None
    else if r.httpBridgeOnly then
      if r.localOnly == Some(false) || r.remote.Some? then None
      else Some(SkillRecord(true, true, true, None, r.telemetry))
    else
      Some(SkillRecord(if r.localOnly.Some? then r.localOnly.value else true,
                       if r.httpExposed.Some? then r.httpExposed.value else false,
                       false, r.remote, r.telemetry))
  }

  // Bridge-only skills are local, on the bridge and without policy; every policy is well formed.
  predicate RecordOk(r: SkillRecord) {
    && (r.httpBridgeOnly ==> r.localOnly && r.httpExposed && r.remote.None?)
    && (r.remote.Some? ==> PolicyOk(r.remote.value))
  }

  // ----- What must hold before a network call is dispatched -----

  ghost predicate GatesGranted(c: Invocation) {
    c.record.remote.Some? &&
    var p := c.record.remote.value;
    var modes := ModesFor(p.gates, c.agent.Some?);
    modes != [] && PeerAccess.Granted(PeerAccess.Options(modes, ScopeText(p), false), c.context, PeerText(c.peerId))
  }

  // What the lookups answer when a gate of a policy proves the caller; `Any` is closed to agents.
  ghost predicate GateProves(c: Invocation, g: GateKind) {
    var peer := if c.peerId.Some? then c.peerId.value else "";
    var scope := if c.record.remote.Some? && c.record.remote.value.scope.Some? then c.record.remote.value.scope.value else "";
    match g
    case VerifiedContact => c.context.contacts.Some? && c.context.contacts.value.isVerified(peer) == Some(true)
    case AccessPass =>
      && c.context.passes.Some? && scope != ""
      && if c.context.passes.value.inspect.Some? then c.context.passes.value.inspect.value(peer, scope) == Some(PeerAccess.Valid)
         else c.context.passes.value.hasValid(peer, scope) == Some(true)
    case Any =>
      && c.agent.None?
      && (c.context.contacts.Some? && c.context.contacts.value.isBlocked.Some? ==>
            c.context.contacts.value.isBlocked.value(peer) != Some(true))
  }

  // Some gate proves the caller, and none before it is open to everybody.
  ghost predicate GateFirst(c: Invocation, gates: seq<GateKind>) {
    exists i :: 0 <= i < |gates| && GateProves(c, gates[i]) && forall j :: 0 <= j < i ==> gates[j] != Any || c.agent.Some?
  }

  ghost predicate ModeFirst(c: Invocation, o: PeerAccess.Options, modes: seq<PeerAccess.Mode>) {
    exists i :: 0 <= i < |modes| && PeerAccess.Proves(o, c.context, PeerText(c.peerId), modes[i]) &&
      forall j :: 0 <= j < i ==> !PeerAccess.IsPublic(modes[j])
  }

  ghost predicate NoneOpen(c: Invocation, gates: seq<GateKind>) {
    forall j :: 0 <= j < |gates| ==> gates[j] != Any || c.agent.Some?
  }

  ghost predicate NonePublic(modes: seq<PeerAccess.Mode>) { forall j :: 0 <= j < |modes| ==> !PeerAccess.IsPublic(modes[j]) }

  lemma GateFirstSnoc(c: Invocation, init: seq<GateKind>, last: GateKind)
    ensures GateFirst(c, init + [last]) <==> GateFirst(c, init) || (GateProves(c, last) && NoneOpen(c, init))
    ensures NoneOpen(c, init + [last]) <==> NoneOpen(c, init) && (last != Any || c.agent.Some?)
  {
    hide GateProves;
    var all := init + [last];
    assert forall i :: 0 <= i < |init| ==> all[i] == init[i];
    assert all[|init|] == last;
    if GateProves(c, last) && NoneOpen(c, init) {
      assert GateProves(c, all[|init|]);
    }
  }

  lemma ModeFirstSnoc(c: Invocation, o: PeerAccess.Options, init: seq<PeerAccess.Mode>, last: PeerAccess.Mode)
    ensures ModeFirst(c, o, init + [last]) <==>
            ModeFirst(c, o, init) || (PeerAccess.Proves(o, c.context, PeerText(c.peerId), last) && NonePublic(init))
    ensures NonePublic(init + [last]) <==> NonePublic(init) && !PeerAccess.IsPublic(last)
  {
    hide PeerAccess.Proves, PeerAccess.IsPublic, PeerText;
    var all := init + [last];
    assert forall i :: 0 <= i < |init| ==> all[i] == init[i];
    assert all[|init|] == last;
    if PeerAccess.Proves(o, c.context, PeerText(c.peerId), last) && NonePublic(init) {
      assert PeerAccess.Proves(o, c.context, PeerText(c.peerId), all[|init|]);
    }
  }

  lemma {:induction false} GatesAgree(c: Invocation, o: PeerAccess.Options, gates: seq<GateKind>)
    requires c.record.remote.Some? && o.scope == ScopeText(c.record.remote.value)
    ensures GateFirst(c, gates) <==> ModeFirst(c, o, ModesFor(gates, c.agent.Some?))
    ensures NoneOpen(c, gates) <==> NonePublic(ModesFor(gates, c.agent.Some?))
  {
    if gates != [] {
      var init, last := gates[..|gates| - 1], gates[|gates| - 1];
      var modes := ModesFor(init, c.agent.Some?);
      GatesAgree(c, o, init);
      assert gates == init + [last] && modes + [] == modes;
      hide GateFirst, ModeFirst, NoneOpen, NonePublic;
      GateFirstSnoc(c, init, last);
      ModeFirstSnoc(c, o, modes, PeerAccess.VerifiedContact);
      ModeFirstSnoc(c, o, modes, PeerAccess.AccessPass);
      ModeFirstSnoc(c, o, modes, PeerAccess.Public);
    }
  }

  // The gates of a policy let a caller pass exactly when it has a peer id and some gate proves it, with
  // no gate before that one that is open to everybody.
  lemma GatesGrantedIff(c: Invocation)
    requires c.record.remote.Some?
    ensures GatesGranted(c) <==> c.peerId.Some? && c.peerId.value != "" && GateFirst(c, c.record.remote.value.gates)
  {
    var p := c.record.remote.value;
    var modes := ModesFor(p.gates, c.agent.Some?);
    var o := PeerAccess.Options(modes, ScopeText(p), false);
    GatesAgree(c, o, p.gates);
    hide GateFirst, ModesFor, GateProves, PeerAccess.Proves;
    assert ModeFirst(c, o, modes) <==> PeerAccess.ProvedInOrder(o, c.context, PeerText(c.peerId));
  }

  ghost predicate AgentAllowed(c: Invocation) {
    c.agent.Some? ==>
      && c.record.remote.Some? && c.record.remote.value.level != Never
      && (c.record.remote.value.level == Approved ==> c.approved)
  }

  ghost predicate Reachable(c: Invocation) { !c.record.localOnly && !c.record.httpBridgeOnly }

  // Exposure, the permission matrix, the gates and the agent level.
  ghost predicate Authorized(c: Invocation) {
    Reachable(c) && c.matrix != Some(false) && GatesGranted(c) && AgentAllowed(c)
  }

  // What a call has passed when it is at this phase.
  ghost predicate PhaseOk(c: Invocation) {
    if c.gate == Network then
      match c.phase
      case Resolving => Reachable(c)
      case Narrowing => Reachable(c)
      case Proving => Reachable(c) && c.matrix != Some(false)
      case Approving => Reachable(c) && c.matrix != Some(false) && GatesGranted(c) && c.record.remote.value.level == Approved
      case _ => Authorized(c)
    else c.phase == Admitting || (c.phase == Running && (c.gate == Http ==> c.record.httpExposed))
  }

  ghost function RunningIds(calls: map<nat, Invocation>): set<nat> {
    set id | id in calls && calls[id].phase == Running
  }

  // A dispatched call and when it was dispatched.
  datatype Dispatch = Dispatch(call: Invocation, at: int)

  // The network dispatches, as calls of their peers' budgets.
  function NetworkCalls(log: seq<Dispatch>): seq<Call> {
    if log == [] then []
    else
      var last := log[|log| - 1];
      NetworkCalls(log[..|log| - 1]) +
      if last.call.gate == Network then [Call(PeerKey(last.call.peerId), last.at)] else []
  }

  lemma NetworkCallsSnoc(log: seq<Dispatch>, d: Dispatch)
    ensures NetworkCalls(log + [d]) ==
            NetworkCalls(log) + if d.call.gate == Network then [Call(PeerKey(d.call.peerId), d.at)] else []
  {
    assert (log + [d])[..|log|] == log;
  }

  // The dispatches in any window are among the calls the limiter has allowed in it.
  ghost predicate Covered(dispatched: seq<Call>, history: seq<Call>) {
    forall key: string, after: int, until: int ::
      CountWithin(dispatched, key, after, until) <= CountWithin(history, key, after, until)
  }

  lemma WithinSnoc(history: seq<Call>, call: Call, key: string, after: int, until: int)
    ensures CountWithin(history + [call], key, after, until) ==
            CountWithin(history, key, after, until) + if call.key == key && after < call.at <= until then 1 else 0
  {
    assert (history + [call])[..|history|] == history;
  }

  lemma CoveredGrows(dispatched: seq<Call>, history: seq<Call>, call: Call)
    requires Covered(dispatched, history)
    ensures Covered(dispatched, history + [call]) && Covered(dispatched + [call], history + [call])
  {
    forall key: string, after: int, until: int
      ensures CountWithin(dispatched, key, after, until) <= CountWithin(history + [call], key, after, until)
      ensures CountWithin(dispatched + [call], key, after, until) <= CountWithin(history + [call], key, after, until)
    {
      WithinSnoc(history, call, key, after, until);
      WithinSnoc(dispatched, call, key, after, until);
    }
  }

  // ----- A whole call -----

  // What a call finds: the skills, both budgets with the calls they have allowed, the load.
  datatype Situation = Situation(
    skills: map<string, SkillRecord>, peerCalls: seq<Call>, peerWindowMs: int, maxTasks: int,
    telemetryCalls: seq<Call>, telemetryWindowMs: int, maxCalls: int, active: int, capacity: int)

  datatype Request = Request(skill: string, gate: Gate, peerId: Option<string>, context: PeerAccess.Context)

  // What the lookups it awaits answer, and when it takes from the two budgets.
  datatype Answers = Answers(agent: Option<string>, matrix: Option<bool>, approval: Option<bool>, countedAt: int, admittedAt: int)

  function PeerOf(c: Invocation): (Gate, Option<string>, SkillRecord) { (c.gate, c.peerId, c.record) }

  function AgentOf(r: Request, ans: Answers): Option<string> { if PeerText(r.peerId) != "" then ans.agent else None }

  // The matrix, if installed, is asked about verified callers.
  predicate MatrixRefuses(installed: bool, r: Request, ans: Answers) {
    installed && r.gate == Network && PeerText(r.peerId) != "" && ans.matrix != Some(true)
  }

  // A policy's gates and its agent level, for a call that is being proved.
  ghost predicate Judged(c: Invocation, approval: Option<bool>) {
    && GatesGranted(c)
    && (c.agent.Some? ==>
          && c.record.remote.value.level != Never
          && (c.record.remote.value.level == Approved ==> approval == Some(true)))
  }

  ghost predicate PolicyRefuses(r: Request, record: SkillRecord, ans: Answers) {
    r.gate == Network &&
    !Judged(Invocation(r.gate, r.peerId, r.skill, record, Proving, AgentOf(r, ans), None, r.context, false), ans.approval)
  }

  lemma JudgedAlike(c: Invocation, d: Invocation, approval: Option<bool>)
    requires c.agent == d.agent && c.record == d.record && c.context == d.context && c.peerId == d.peerId
    ensures Judged(c, approval) <==> Judged(d, approval)
  {
  }

  predicate TelemetryFull(x: Situation, r: Request, record: SkillRecord, ans: Answers) {
    r.gate == Network && record.telemetry &&
    Count(x.telemetryCalls, CompoundKeys.KeyFor(PeerKey(r.peerId), r.skill), ans.countedAt - x.telemetryWindowMs) >= x.maxCalls
  }

  predicate BudgetSpent(x: Situation, r: Request, ans: Answers) {
    r.gate == Network && Count(x.peerCalls, PeerKey(r.peerId), ans.admittedAt - x.peerWindowMs) >= x.maxTasks
  }

  // What is left for a call that has come to the budget of its peer.
  function AdmissionRefusal(x: Situation, r: Request, record: SkillRecord, ans: Answers): Option<Refusal> {
    if BudgetSpent(x, r, ans) then Some(PeerLimit)
    else if r.gate == Http && !record.httpExposed then Some(NotExposed)
    else if x.active >= x.capacity then Some(AtCapacity)
    else None
  }

  // How a call ends that nothing interrupts; no refusal means that it is dispatched.
  ghost function RefusalOf(x: Situation, installed: bool, r: Request, ans: Answers): Option<Refusal> {
    if r.skill !in x.skills then Some(UnknownSkill)
    else
      var record := x.skills[r.skill];
      if r.gate == Network && (record.localOnly || record.httpBridgeOnly) then Some(LocalOnly)
      else if MatrixRefuses(installed, r, ans) then Some(MatrixDenied)
      else if PolicyRefuses(r, record, ans) then Some(NotAuthorized)
      else if TelemetryFull(x, r, record, ans) then Some(TelemetryLimit)
      else AdmissionRefusal(x, r, record, ans)
  }

  lemma OthersAreAdmitted(x: Situation, installed: bool, r: Request, ans: Answers)
    requires r.skill in x.skills && r.gate != Network
    ensures RefusalOf(x, installed, r, ans) == AdmissionRefusal(x, r, x.skills[r.skill], ans)
  {
    hide AdmissionRefusal, Judged;
  }

  // Refusals that come before the budgets, or from the first of them.
  predicate Early(refusal: Option<Refusal>) {
    refusal in {Some(UnknownSkill), Some(LocalOnly), Some(MatrixDenied), Some(NotAuthorized), Some(TelemetryLimit)}
  }

  function TelemetryAfter(x: Situation, r: Request, record: SkillRecord, ans: Answers): seq<Call> {
    if r.gate == Network && record.telemetry && !TelemetryFull(x, r, record, ans)
    then x.telemetryCalls + [Call(CompoundKeys.KeyFor(PeerKey(r.peerId), r.skill), ans.countedAt)]
    else x.telemetryCalls
  }

  function PeerAfter(x: Situation, r: Request, ans: Answers): seq<Call> {
    if r.gate == Network && !BudgetSpent(x, r, ans) then x.peerCalls + [Call(PeerKey(r.peerId), ans.admittedAt)]
    else x.peerCalls
  }

  // What a call that nothing interrupts leaves behind: calls that are refused late have taken from
  // the budgets.
  ghost function After(x: Situation, installed: bool, r: Request, ans: Answers): Situation {
    var refusal := RefusalOf(x, installed, r, ans);
    if Early(refusal) || r.skill !in x.skills then x
    else x.(telemetryCalls := TelemetryAfter(x, r, x.skills[r.skill], ans), peerCalls := PeerAfter(x, r, ans),
            active := if refusal.None? then x.active + 1 else x.active)
  }

  // A whole call that nothing interrupts, or the end of one that was dispatched.
  datatype Event = Attempt(request: Request, answers: Answers) | Settle

  ghost function Next(x: Situation, installed: bool, e: Event): Situation {
    match e
    case Attempt(r, ans) => After(x, installed, r, ans)
    case Settle => x.(active := if x.active > 0 then x.active - 1 else x.active)
  }

  ghost predicate Dispatches(x: Situation, installed: bool, e: Event) {
    e.Attempt? && RefusalOf(x, installed, e.request, e.answers).None?
  }

  // The situation after one event after another, and the calls that were dispatched.
  ghost function Final(x: Situation, installed: bool, events: seq<Event>): Situation {
    if events == [] then x
    else Next(Final(x, installed, events[..|events| - 1]), installed, events[|events| - 1])
  }

  ghost function Served(x: Situation, installed: bool, events: seq<Event>): seq<Event> {
    if events == [] then []
    else
      var init, last := events[..|events| - 1], events[|events| - 1];
      Served(x, installed, init) + if Dispatches(Final(x, installed, init), installed, last) then [last] else []
  }

  predicate IsRefused(e: Event) { e.Attempt? && MatrixRefuses(true, e.request, e.answers) }

  // All but the calls that an installed matrix refuses.
  function LetPass(events: seq<Event>): seq<Event> {
    if events == [] then []
    else
      var last := events[|events| - 1];
      LetPass(events[..|events| - 1]) + if IsRefused(last) then [] else [last]
  }

  // From equal brokers, a call is dispatched with the matrix installed exactly when it is dispatched
  // without it and the matrix does not refuse it. A call that the matrix refuses leaves both budgets
  // and the load as they were; any other call is answered, and leaves them, as without a matrix.
  lemma MatrixOnlyDenies(x: Situation, r: Request, ans: Answers)
    ensures RefusalOf(x, true, r, ans).None? <==> RefusalOf(x, false, r, ans).None? && !MatrixRefuses(true, r, ans)
    ensures if MatrixRefuses(true, r, ans) then After(x, true, r, ans) == x
            else RefusalOf(x, true, r, ans) == RefusalOf(x, false, r, ans) && After(x, true, r, ans) == After(x, false, r, ans)
  {
    hide PolicyRefuses, TelemetryFull, AdmissionRefusal, TelemetryAfter, PeerAfter;
  }

  lemma ServedSnoc(x: Situation, installed: bool, init: seq<Event>, last: Event)
    ensures Final(x, installed, init + [last]) == Next(Final(x, installed, init), installed, last)
    ensures Served(x, installed, init + [last]) ==
            Served(x, installed, init) + if Dispatches(Final(x, installed, init), installed, last) then [last] else []
  {
    hide Next, Dispatches;
    assert (init + [last])[..|init|] == init;
  }

  lemma MatrixOnEvent(x: Situation, e: Event)
    ensures if IsRefused(e) then Next(x, true, e) == x && !Dispatches(x, true, e)
            else Next(x, true, e) == Next(x, false, e) && (Dispatches(x, true, e) <==> Dispatches(x, false, e))
  {
    hide After, RefusalOf, MatrixRefuses;
    if e.Attempt? {
      MatrixOnlyDenies(x, e.request, e.answers);
    }
  }

  // A whole run with the matrix is the run without it of all but the calls that the matrix refuses:
  // the same dispatches, the same budgets, the same load.
  lemma {:induction false} MatrixLeavesOut(x: Situation, events: seq<Event>)
    ensures Final(x, true, events) == Final(x, false, LetPass(events))
    ensures Served(x, true, events) == Served(x, false, LetPass(events))
  {
    hide Next, Dispatches, IsRefused;
    if events != [] {
      var init, last := events[..|events| - 1], events[|events| - 1];
      MatrixLeavesOut(x, init);
      MatrixOnEvent(Final(x, true, init), last);
      ServedSnoc(x, false, LetPass(init), last);
      assert LetPass(init) + [] == LetPass(init);
      assert Served(x, true, init) + [] == Served(x, true, init);
    }
  }

  // ----- What every state keeps -----

  // Every call has passed what its phase requires, and the counter counts the running ones.
  ghost predicate CallsOk(calls: map<nat, Invocation>, active: int, capacity: nat) {
    active == |RunningIds(calls)| <= capacity && forall id :: id in calls ==> PhaseOk(calls[id])
  }

  // Every network dispatch was authorized and within the budget of its peer.
  ghost predicate LogOk(log: seq<Dispatch>, history: seq<Call>) {
    && (forall i :: 0 <= i < |log| && log[i].call.gate == Network ==> Authorized(log[i].call))
    && Covered(NetworkCalls(log), history)
  }

  ghost predicate SkillsOk(skills: map<string, SkillRecord>) {
    forall s :: s in skills ==> RecordOk(skills[s])
  }

  lemma CallMoves(calls: map<nat, Invocation>, active: int, capacity: nat, id: nat, c: Invocation)
    requires CallsOk(calls, active, capacity) && PhaseOk(c) && c.phase != Running
    requires id in calls ==> calls[id].phase != Running
    ensures CallsOk(calls[id := c], active, capacity)
  {
    hide PhaseOk;
    assert RunningIds(calls[id := c]) == RunningIds(calls);
  }

  lemma CallEnds(calls: map<nat, Invocation>, active: int, capacity: nat, id: nat)
    requires CallsOk(calls, active, capacity) && id in calls && calls[id].phase != Running
    ensures CallsOk(calls - {id}, active, capacity)
  {
    hide PhaseOk;
    assert RunningIds(calls - {id}) == RunningIds(calls);
  }

  lemma CallStarts(calls: map<nat, Invocation>, active: int, capacity: nat, id: nat, c: Invocation)
    requires CallsOk(calls, active, capacity) && active < capacity
    requires id in calls && calls[id].phase != Running && PhaseOk(c) && c.phase == Running
    ensures CallsOk(calls[id := c], active + 1, capacity)
  {
    hide PhaseOk;
    assert RunningIds(calls[id := c]) == RunningIds(calls) + {id};
  }

  lemma CallSettles(calls: map<nat, Invocation>, active: int, capacity: nat, id: nat)
    requires CallsOk(calls, active, capacity) && id in calls && calls[id].phase == Running
    ensures CallsOk(calls - {id}, active - 1, capacity)
  {
    hide PhaseOk;
    assert RunningIds(calls) == RunningIds(calls - {id}) + {id};
  }

  lemma CallIsOk(calls: map<nat, Invocation>, active: int, capacity: nat, id: nat)
    requires CallsOk(calls, active, capacity) && id in calls
    ensures PhaseOk(calls[id])
  {
    hide PhaseOk;
  }

  // An allowed call of a budget covers one more dispatch, whether or not it comes to one.
  lemma BudgetTaken(log: seq<Dispatch>, history: seq<Call>, call: Call)
    requires LogOk(log, history)
    ensures LogOk(log, history + [call]) && Covered(NetworkCalls(log) + [call], history + [call])
  {
    hide Authorized, NetworkCalls, Covered;
    CoveredGrows(NetworkCalls(log), history, call);
  }

  lemma Dispatched(log: seq<Dispatch>, history: seq<Call>, d: Dispatch)
    requires LogOk(log, history)
    requires d.call.gate == Network ==>
               Authorized(d.call) && Covered(NetworkCalls(log) + [Call(PeerKey(d.call.peerId), d.at)], history)
    ensures LogOk(log + [d], history)
  {
    NetworkCallsSnoc(log, d);
    hide Authorized, Covered, NetworkCalls, PeerKey;
    assert NetworkCalls(log) + [] == NetworkCalls(log);
  }

  class TaskBroker {
    var skills: map<string, SkillRecord>
    const maxConcurrentTasks: nat
    var activeTasks: int
    // Whether a permission matrix is installed.
    var peerSkillGate: bool
    const peerRateLimiter: SlidingWindow.RateLimiter
    const telemetryRateLimiter: SlidingWindow.RateLimiter

    // The calls under way, and all dispatches so far.
    var calls: map<nat, Invocation>
    ghost var log: seq<Dispatch>

    ghost predicate Valid()
      reads this, peerRateLimiter, telemetryRateLimiter
    {
      && peerRateLimiter != telemetryRateLimiter
      && peerRateLimiter.Valid() && telemetryRateLimiter.Valid()
      && CallsOk(calls, activeTasks, maxConcurrentTasks)
      && LogOk(log, peerRateLimiter.history)
      && SkillsOk(skills)
    }

    constructor (maxConcurrentTasks: nat, peerWindowMs: int, peerTasks: int, telemetryWindowMs: int, telemetryCalls: int, start: int)
      ensures Valid() && calls == map[] && log == [] && skills == map[] && !peerSkillGate
      ensures peerRateLimiter.windowMs == peerWindowMs && peerRateLimiter.maxCalls == peerTasks
      ensures fresh(peerRateLimiter) && fresh(telemetryRateLimiter)
    {
      this.maxConcurrentTasks := maxConcurrentTasks;
      skills, activeTasks, peerSkillGate, calls, log := map[], 0, false, map[], [];
      peerRateLimiter := new SlidingWindow.RateLimiter(peerWindowMs, peerTasks, start);
      telemetryRateLimiter := new SlidingWindow.RateLimiter(telemetryWindowMs, telemetryCalls, start);
      new;
      assert RunningIds(calls) == {};
    }

    // `registerSkill`
    method RegisterSkill(skill: string, r: Registration) returns (ok: bool)
      requires Valid()
      modifies `skills
      ensures Valid()
      ensures ok <==>
              && (r.remote.Some? ==> r.remote.value.gates != [] && (AccessPass in r.remote.value.gates ==> r.remote.value.scope.Some?))
              && (r.httpBridgeOnly ==> r.localOnly != Some(false) && r.remote.None?)
      ensures !ok ==> skills == old(skills)
      ensures ok ==>
                && skill in skills && skills == old(skills)[skill := skills[skill]]
                && (skills[skill].localOnly <==> r.httpBridgeOnly || r.localOnly != Some(false))
                && (skills[skill].httpExposed <==> r.httpBridgeOnly || r.httpExposed == Some(true))
                && skills[skill].httpBridgeOnly == r.httpBridgeOnly
                && skills[skill].remote == r.remote && skills[skill].telemetry == r.telemetry
    {
      hide CallsOk, LogOk, SlidingWindow.RateLimiter.Valid;
      var record := RecordFor(r);
      if record.None? {
        return false;
      }
      skills := skills[skill := record.value];
      return true;
    }

    method SetPeerSkillGate(installed: bool)
      requires Valid()
      modifies `peerSkillGate
      ensures Valid() && peerSkillGate == installed
    {
      peerSkillGate := installed;
    }

    // The call moves on to another phase, short of running.
    method MoveOn(id: nat, c: Invocation)
      requires Valid() && PhaseOk(c) && c.phase != Running && (id in calls ==> calls[id].phase != Running)
      modifies `calls
      ensures Valid() && calls == old(calls)[id := c]
    {
      CallMoves(calls, activeTasks, maxConcurrentTasks, id, c);
      hide CallsOk, LogOk, SkillsOk, PhaseOk, SlidingWindow.RateLimiter.Valid;
      calls := calls[id := c];
    }

    // The call is refused.
    method End(id: nat)
      requires Valid() && id in calls && calls[id].phase != Running
      modifies `calls
      ensures Valid() && calls == old(calls) - {id}
    {
      CallEnds(calls, activeTasks, maxConcurrentTasks, id);
      hide CallsOk, LogOk, SkillsOk, SlidingWindow.RateLimiter.Valid;
      calls := calls - {id};
    }

    lemma Passed(id: nat)
      requires Valid() && id in calls
      ensures PhaseOk(calls[id])
    {
      CallIsOk(calls, activeTasks, maxConcurrentTasks, id);
    }

    lemma TwoLimiters()
      requires Valid()
      ensures peerRateLimiter != telemetryRateLimiter
    {
    }

    // `execute` up to its first await.
    method Begin(id: nat, skill: string, gate: Gate, peerId: Option<string>, context: PeerAccess.Context) returns (refusal: Option<Refusal>)
      requires Valid() && id !in calls
      modifies `calls
      ensures Valid()
      ensures refusal == if skill !in skills then Some(UnknownSkill)
                         else if gate == Network && (skills[skill].localOnly || skills[skill].httpBridgeOnly) then Some(LocalOnly)
                         else None
      ensures refusal.Some? ==> calls == old(calls)
      ensures refusal.None? ==>
                var phase := if gate == Network then Resolving else Admitting;
                calls == old(calls)[id := Invocation(gate, peerId, skill, skills[skill], phase, None, None, context, false)]
    {
      hide Valid;
      if skill !in skills {
        return Some(UnknownSkill);
      }
      var record := skills[skill];
      if gate == Network && (record.localOnly || record.httpBridgeOnly) {
        return Some(LocalOnly);
      }
      var phase := if gate == Network then Resolving else Admitting;
      MoveOn(id, Invocation(gate, peerId, skill, record, phase, None, None, context, false));
      return None;
    }

    // The agent lookup has answered; only a verified caller can be an agent.
    method ResolveAgent(id: nat, answer: Option<string>)
      requires Valid() && id in calls && calls[id].phase == Resolving && calls[id].gate == Network
      modifies `calls
      ensures Valid()
      ensures calls == old(calls)[id := old(calls)[id].(phase := Narrowing, agent := if PeerText(old(calls)[id].peerId) != "" then answer else None)]
    {
      Passed(id);
      hide Valid, PeerText;
      var c := calls[id];
      MoveOn(id, c.(phase := Narrowing, agent := if PeerText(c.peerId) != "" then answer else None));
    }

    // The permission matrix has answered; a lookup that throws denies.
    method Narrow(id: nat, answer: Option<bool>) returns (refusal: Option<Refusal>)
      requires Valid() && id in calls && calls[id].phase == Narrowing && calls[id].gate == Network
      modifies `calls
      ensures Valid()
      ensures refusal == if peerSkillGate && PeerText(old(calls)[id].peerId) != "" && answer != Some(true) then Some(MatrixDenied) else None
      ensures calls == if refusal.Some? then old(calls) - {id}
                       else old(calls)[id := old(calls)[id].(phase := Proving, matrix := if peerSkillGate && PeerText(old(calls)[id].peerId) != "" then Some(true) else None)]
    {
      Passed(id);
      NarrowedOk(calls[id]);
      hide Valid, PhaseOk, PeerText;
      var c := calls[id];
      if peerSkillGate && PeerText(c.peerId) != "" {
        if answer != Some(true) {
          End(id);
          return Some(MatrixDenied);
        }
        MoveOn(id, c.(phase := Proving, matrix := Some(true)));
      } else {
        MoveOn(id, c.(phase := Proving, matrix := None));
      }
      return None;
    }

    // `normalizeRemoteGates` and `evaluateGates`: the modes of a policy, in order.
    method Modes(gates: seq<GateKind>, agent: bool) returns (modes: seq<PeerAccess.Mode>)
      ensures modes == ModesFor(gates, agent)
    {
      modes := [];
      for i := 0 to |gates|
        invariant modes == ModesFor(gates[..i], agent)
      {
        assert gates[..i + 1][..i] == gates[..i];
        match gates[i] {
          case VerifiedContact => modes := modes + [PeerAccess.VerifiedContact];
          case AccessPass => modes := modes + [PeerAccess.AccessPass];
          case Any =>
            if !agent {
              modes := modes + [PeerAccess.Public];
            }
        }
      }
      assert gates[..|gates|] == gates;
    }

    // `evaluateGates`
    method EvaluateGates(c: Invocation) returns (granted: bool)
      ensures granted <==> GatesGranted(c)
    {
      hide PeerAccess.Granted;
      if c.record.remote.None? {
        return false;
      }
      var policy := c.record.remote.value;
      var modes := Modes(policy.gates, c.agent.Some?);
      if modes == [] {
        return false;
      }
      var d := PeerAccess.CheckPeerAccess(PeerText(c.peerId), PeerAccess.Options(modes, ScopeText(policy), false), c.context);
      return d.granted;
    }

    // `evaluateRemotePolicy` up to the approval or the telemetry budget.
    method Prove(id: nat) returns (refusal: Option<Refusal>)
      requires Valid() && id in calls && calls[id].phase == Proving && calls[id].gate == Network
      modifies `calls
      ensures Valid()
      ensures var c := old(calls)[id];
              refusal.None? <==> (GatesGranted(c) && (c.agent.Some? ==> c.record.remote.value.level != Never))
      ensures refusal.Some? ==> refusal == Some(NotAuthorized)
      ensures calls == if refusal.Some? then old(calls) - {id}
                       else old(calls)[id := old(calls)[id].(phase :=
                              if old(calls)[id].agent.Some? && old(calls)[id].record.remote.value.level == Approved
                              then Approving else Counting)]
    {
      Passed(id);
      var c := calls[id];
      GrantedHasPolicy(c);
      hide Valid, PhaseOk, GatesGranted;
      var granted := EvaluateGates(c);
      if !granted || (c.agent.Some? && c.record.remote.value.level == Never) {
        End(id);
        return Some(NotAuthorized);
      }
      var next := if c.agent.Some? && c.record.remote.value.level == Approved then Approving else Counting;
      ProvedOk(c, next);
      MoveOn(id, c.(phase := next));
      return None;
    }

    // The operator has answered; a confirmer that is absent or throws refuses.
    method Approve(id: nat, answer: Option<bool>) returns (refusal: Option<Refusal>)
      requires Valid() && id in calls && calls[id].phase == Approving && calls[id].gate == Network
      modifies `calls
      ensures Valid()
      ensures refusal == if answer == Some(true) then None else Some(NotAuthorized)
      ensures calls == if refusal.Some? then old(calls) - {id}
                       else old(calls)[id := old(calls)[id].(phase := Counting, approved := true)]
    {
      Passed(id);
      ApprovedOk(calls[id]);
      hide Valid, PhaseOk;
      if answer != Some(true) {
        End(id);
        return Some(NotAuthorized);
      }
      MoveOn(id, calls[id].(phase := Counting, approved := true));
      return None;
    }

    // `enforceTelemetryRateLimit`
    method CountTelemetry(id: nat, now: int) returns (refusal: Option<Refusal>)
      requires Valid() && id in calls && calls[id].phase == Counting && calls[id].gate == Network
      requires now >= telemetryRateLimiter.clock
      modifies `calls, telemetryRateLimiter
      ensures Valid()
      ensures var c := old(calls)[id];
              refusal == if c.record.telemetry &&
                            Count(old(telemetryRateLimiter.history), CompoundKeys.KeyFor(PeerKey(c.peerId), c.skill), now - telemetryRateLimiter.windowMs)
                            >= telemetryRateLimiter.maxCalls
                         then Some(TelemetryLimit) else None
      ensures calls == if refusal.Some? then old(calls) - {id} else old(calls)[id := old(calls)[id].(phase := Admitting)]
      ensures var c := old(calls)[id];
              telemetryRateLimiter.history == old(telemetryRateLimiter.history) +
                if c.record.telemetry && refusal.None? then [RateHistory.Call(CompoundKeys.KeyFor(PeerKey(c.peerId), c.skill), now)] else []
    {
      Passed(id);
      CountedOk(calls[id]);
      hide Count, PhaseOk, CompoundKeys.KeyFor, PeerKey;
      var c := calls[id];
      if c.record.telemetry {
        var ok := TakeTelemetry(CompoundKeys.KeyFor(PeerKey(c.peerId), c.skill), now);
        hide Valid;
        if !ok {
          End(id);
          return Some(TelemetryLimit);
        }
      }
      MoveOn(id, c.(phase := Admitting));
      return None;
    }

    method TakeTelemetry(key: string, now: int) returns (ok: bool)
      requires Valid() && now >= telemetryRateLimiter.clock
      modifies telemetryRateLimiter
      ensures Valid()
      ensures ok <==> Count(old(telemetryRateLimiter.history), key, now - telemetryRateLimiter.windowMs) < telemetryRateLimiter.maxCalls
      ensures telemetryRateLimiter.history == old(telemetryRateLimiter.history) + if ok then [RateHistory.Call(key, now)] else []
    {
      hide Count, CallsOk, LogOk, SkillsOk, SlidingWindow.RateLimiter.Valid;
      ok := telemetryRateLimiter.Allow(key, now);
    }

    // The rest of `execute` up to the handler: the peer's budget, the bridge, the capacity.
    method Admit(id: nat, now: int) returns (refusal: Option<Refusal>)
      requires Valid() && id in calls && calls[id].phase == Admitting && now >= peerRateLimiter.clock
      modifies `calls, `activeTasks, `log, peerRateLimiter
      ensures Valid()
      ensures var c := old(calls)[id];
              refusal ==
              if c.gate == Network &&
                 Count(old(peerRateLimiter.history), PeerKey(c.peerId), now - peerRateLimiter.windowMs) >= peerRateLimiter.maxCalls
              then Some(PeerLimit)
              else if c.gate == Http && !c.record.httpExposed then Some(NotExposed)
              else if old(activeTasks) >= maxConcurrentTasks then Some(AtCapacity)
              else None
      ensures if refusal.Some? then calls == old(calls) - {id} && activeTasks == old(activeTasks) && log == old(log)
              else && calls == old(calls)[id := old(calls)[id].(phase := Running)]
                   && activeTasks == old(activeTasks) + 1
                   && log == old(log) + [Dispatch(old(calls)[id], now)]
      ensures var c := old(calls)[id];
              peerRateLimiter.history == old(peerRateLimiter.history) +
                if c.gate == Network && refusal != Some(PeerLimit) then [RateHistory.Call(PeerKey(c.peerId), now)] else []
    {
      hide Valid, Count, Covered, PeerKey, NetworkCalls;
      var c := calls[id];
      if c.gate == Network {
        var ok := TakeBudget(PeerKey(c.peerId), now);
        if !ok {
          End(id);
          return Some(PeerLimit);
        }
      }
      if c.gate == Http && !c.record.httpExposed {
        End(id);
        return Some(NotExposed);
      }
      if activeTasks >= maxConcurrentTasks {
        End(id);
        return Some(AtCapacity);
      }
      Launch(id, now);
      return None;
    }

    // One call of the peer's budget; what was dispatched and this call are still covered.
    method TakeBudget(key: string, now: int) returns (ok: bool)
      requires Valid() && now >= peerRateLimiter.clock
      modifies peerRateLimiter
      ensures Valid()
      ensures ok <==> Count(old(peerRateLimiter.history), key, now - peerRateLimiter.windowMs) < peerRateLimiter.maxCalls
      ensures ok ==> Covered(NetworkCalls(log) + [RateHistory.Call(key, now)], peerRateLimiter.history)
      ensures peerRateLimiter.history == old(peerRateLimiter.history) + if ok then [RateHistory.Call(key, now)] else []
    {
      hide Count, CallsOk, LogOk, SkillsOk, Covered, NetworkCalls, RecordOk, PhaseOk, SlidingWindow.RateLimiter.Valid;
      BudgetTaken(log, peerRateLimiter.history, RateHistory.Call(key, now));
      ok := peerRateLimiter.Allow(key, now);
    }

    method Launch(id: nat, now: int)
      requires Valid() && id in calls && calls[id].phase == Admitting && activeTasks < maxConcurrentTasks
      requires var c := calls[id];
               && (c.gate == Http ==> c.record.httpExposed)
               && (c.gate == Network ==> Covered(NetworkCalls(log) + [RateHistory.Call(PeerKey(c.peerId), now)], peerRateLimiter.history))
      modifies `calls, `activeTasks, `log
      ensures Valid()
      ensures calls == old(calls)[id := old(calls)[id].(phase := Running)]
      ensures activeTasks == old(activeTasks) + 1 && log == old(log) + [Dispatch(old(calls)[id], now)]
    {
      Passed(id);
      var c := calls[id];
      LaunchedOk(c);
      CallStarts(calls, activeTasks, maxConcurrentTasks, id, c.(phase := Running));
      Dispatched(log, peerRateLimiter.history, Dispatch(c, now));
      hide CallsOk, LogOk, SkillsOk, Covered, NetworkCalls, PhaseOk, Authorized, SlidingWindow.RateLimiter.Valid;
      activeTasks := activeTasks + 1;
      calls := calls[id := c.(phase := Running)];
      log := log + [Dispatch(c, now)];
    }

    ghost function Now(): Situation
      reads this, peerRateLimiter, telemetryRateLimiter
    {
      Situation(skills, peerRateLimiter.history, peerRateLimiter.windowMs, peerRateLimiter.maxCalls,
                telemetryRateLimiter.history, telemetryRateLimiter.windowMs, telemetryRateLimiter.maxCalls,
                activeTasks, maxConcurrentTasks)
    }

    // The policy of a call, the approval of the operator included.
    method Judge(id: nat, approval: Option<bool>) returns (refusal: Option<Refusal>)
      requires Valid() && id in calls && calls[id].phase == Proving && calls[id].gate == Network
      modifies `calls
      ensures Valid()
      ensures refusal == if Judged(old(calls)[id], approval) then None else Some(NotAuthorized)
      ensures if refusal.Some? then calls == old(calls) - {id}
              else && id in calls && calls == old(calls)[id := calls[id]]
                   && calls[id].(approved := false) == old(calls)[id].(phase := Counting, approved := false)
    {
      hide Valid, GatesGranted;
      refusal := Prove(id);
      if refusal.None? && calls[id].phase == Approving {
        refusal := Approve(id, approval);
      }
    }

    // What a network call passes between its first await and the budget of its peer.
    method Authorize(id: nat, r: Request, ans: Answers) returns (refusal: Option<Refusal>)
      requires Valid() && id in calls && r.skill in skills && ans.countedAt >= telemetryRateLimiter.clock
      requires r.gate == Network
      requires calls[id] == Invocation(r.gate, r.peerId, r.skill, skills[r.skill], Resolving, None, None, r.context, false)
      modifies `calls, telemetryRateLimiter
      ensures Valid()
      ensures refusal == if MatrixRefuses(peerSkillGate, r, ans) then Some(MatrixDenied)
                         else if PolicyRefuses(r, skills[r.skill], ans) then Some(NotAuthorized)
                         else if TelemetryFull(old(Now()), r, skills[r.skill], ans) then Some(TelemetryLimit)
                         else None
      ensures if refusal.Some? then calls == old(calls) - {id}
              else && id in calls && calls == old(calls)[id := calls[id]]
                   && PeerOf(calls[id]) == PeerOf(old(calls)[id]) && calls[id].phase == Admitting
      ensures telemetryRateLimiter.history ==
              if refusal.Some? then old(telemetryRateLimiter.history) else TelemetryAfter(old(Now()), r, skills[r.skill], ans)
    {
      hide Valid, Count, Judged, PeerText, CompoundKeys.KeyFor, PeerKey;
      ResolveAgent(id, ans.agent);
      refusal := Narrow(id, ans.matrix);
      if refusal.Some? {
        return;
      }
      JudgedAlike(calls[id], Invocation(r.gate, r.peerId, r.skill, skills[r.skill], Proving, AgentOf(r, ans), None, r.context, false), ans.approval);
      refusal := Judge(id, ans.approval);
      if refusal.Some? {
        return;
      }
      refusal := CountTelemetry(id, ans.countedAt);
    }

    // A call up to the budget of its peer.
    method Enter(id: nat, r: Request, ans: Answers) returns (refusal: Option<Refusal>)
      requires Valid() && id !in calls && ans.countedAt >= telemetryRateLimiter.clock
      modifies `calls, telemetryRateLimiter
      ensures Valid()
      ensures if refusal.Some? then calls == old(calls) && refusal == RefusalOf(old(Now()), peerSkillGate, r, ans)
              else && r.skill in skills && id in calls && calls == old(calls)[id := calls[id]]
                   && calls[id].phase == Admitting && PeerOf(calls[id]) == (r.gate, r.peerId, skills[r.skill])
                   && RefusalOf(old(Now()), peerSkillGate, r, ans) == AdmissionRefusal(old(Now()), r, skills[r.skill], ans)
      ensures refusal.Some? ==> Early(refusal) && telemetryRateLimiter.history == old(telemetryRateLimiter.history)
      ensures refusal.None? ==> telemetryRateLimiter.history == TelemetryAfter(old(Now()), r, skills[r.skill], ans)
    {
      hide Valid, Count, MatrixRefuses, PolicyRefuses, TelemetryFull, AdmissionRefusal;
      ghost var now := Now();
      refusal := Begin(id, r.skill, r.gate, r.peerId, r.context);
      if refusal.Some? {
        return;
      }
      if r.gate == Network {
        refusal := Authorize(id, r, ans);
      } else {
        OthersAreAdmitted(now, peerSkillGate, r, ans);
      }
    }

    // `execute` of a call that nothing interrupts.
    method Execute(id: nat, r: Request, ans: Answers) returns (refusal: Option<Refusal>)
      requires Valid() && id !in calls
      requires ans.countedAt >= telemetryRateLimiter.clock && ans.admittedAt >= peerRateLimiter.clock
      modifies `calls, `activeTasks, `log, peerRateLimiter, telemetryRateLimiter
      ensures Valid()
      ensures refusal == RefusalOf(old(Now()), peerSkillGate, r, ans)
      ensures Now() == After(old(Now()), peerSkillGate, r, ans)
      ensures if refusal.Some? then calls == old(calls) && log == old(log)
              else id in calls && calls == old(calls)[id := calls[id]] && calls[id].phase == Running && |log| == |old(log)| + 1
    {
      hide Valid, Count, RefusalOf, PeerKey;
      TwoLimiters();
      refusal := Enter(id, r, ans);
      if refusal.None? {
        refusal := Admit(id, ans.admittedAt);
      }
    }

    // The handler has settled, one way or the other.
    method Finish(id: nat)
      requires Valid() && id in calls && calls[id].phase == Running
      modifies `calls, `activeTasks
      ensures Valid() && calls == old(calls) - {id} && activeTasks == old(activeTasks) - 1
      ensures Now() == Next(old(Now()), peerSkillGate, Settle)
    {
      CallSettles(calls, activeTasks, maxConcurrentTasks, id);
      hide CallsOk, LogOk, SkillsOk, SlidingWindow.RateLimiter.Valid;
      calls := calls - {id};
      activeTasks := activeTasks - 1;
    }
  }

  // Two callers take from one budget exactly when they have the same id or neither has an id of its own;
  // a peer that calls itself "<anonymous>" takes from the budget of the callers without id.
  lemma BudgetSharedIff(a: Option<string>, b: Option<string>)
    ensures PeerKey(a) == PeerKey(b) <==>
            a == b || (a in {None, Some(""), Some("<anonymous>")} && b in {None, Some(""), Some("<anonymous>")})
    ensures a.Some? && a.value != "" ==> PeerKey(a) == a.value
  {
  }

  // What a call has passed when it moves on.
  lemma NarrowedOk(c: Invocation)
    requires PhaseOk(c) && c.gate == Network && c.phase == Narrowing
    ensures PhaseOk(c.(phase := Proving, matrix := Some(true))) && PhaseOk(c.(phase := Proving, matrix := None))
  {
    hide Authorized, GatesGranted;
  }

  lemma ProvedOk(c: Invocation, next: Phase)
    requires PhaseOk(c) && c.gate == Network && c.phase == Proving && GatesGranted(c)
    requires c.agent.Some? ==> c.record.remote.value.level != Never
    requires next == if c.agent.Some? && c.record.remote.value.level == Approved then Approving else Counting
    ensures PhaseOk(c.(phase := next))
  {
  }

  lemma CountedOk(c: Invocation)
    requires PhaseOk(c) && c.gate == Network && c.phase == Counting
    ensures PhaseOk(c.(phase := Admitting))
  {
  }

  lemma LaunchedOk(c: Invocation)
    requires PhaseOk(c) && c.phase == Admitting
    ensures (c.gate == Http ==> c.record.httpExposed) ==> PhaseOk(c.(phase := Running))
    ensures c.gate == Network ==> Authorized(c)
  {
  }

  lemma ApprovedOk(c: Invocation)
    requires PhaseOk(c) && c.gate == Network && c.phase == Approving
    ensures PhaseOk(c.(phase := Counting, approved := true))
  {
    assert GatesGranted(c) <==> GatesGranted(c.(phase := Counting, approved := true));
  }

  lemma GrantedHasPolicy(c: Invocation)
    ensures GatesGranted(c) ==> c.record.remote.Some?
  {
  }

  // In any window at most the peer's budget of its network calls is dispatched.
  lemma DispatchesWithinBudget(log: seq<Dispatch>, history: seq<Call>, windowMs: int, maxTasks: int, key: string, until: int)
    requires Covered(NetworkCalls(log), history) && Ordered(history) && Admitted(history, windowMs, maxTasks) && maxTasks >= 0
    ensures CountWithin(NetworkCalls(log), key, until - windowMs, until) <= maxTasks
  {
    hide Ordered, Admitted, NetworkCalls;
    WindowBound(history, windowMs, maxTasks, key, until);
  }
}
