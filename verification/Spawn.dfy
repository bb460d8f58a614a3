/**
 Spawning sessions as a transition system: any number of concurrent `spawn_session` calls, kills,
 closes and restarts over the agent and session tables (crates/wt-daemon/src/ipc.rs and
 crates/wt-core/src/store.rs). Each store call is one atomic step, and any call may fail at any step.
 */
module Spawn {
  import opened Basics
  import opened BusTable

  datatype AgentRole = Prime | Child
  datatype Status = Idle | Starting | Running | AwaitingInput | Exited

  datatype AgentRow = AgentRow(role: AgentRole, status: Status)
  datatype SessionRow = SessionRow(prime: string, child: string, active: bool)

  /** Where a call is: before each of its store calls, before its provisioning, at `supervisor::start`, or over. */
  datatype Pc = CheckSession | CheckAgent | Provision | Register | Create | Start | Over(ok: bool)

  /** One call for `name` by `prime`, and (history) whether it registered the agent, created the session and reached start. */
  datatype Call = Call(prime: AgentId, name: string, coordinator: bool, pc: Pc, registered: bool, created: bool, started: bool)

  datatype Sys = Sys(agents: map<AgentId, AgentRow>, sessions: map<SessionId, SessionRow>, groups: set<string>, calls: seq<Call>)

  datatype Action =
    | GroupNew(group: string)
    | BeginSpawn(prime: AgentId, name: string, coordinator: bool)
    | CallStep(i: nat, ok: bool)
    | SetStatus(agent: AgentId, status: Status)
    | Kill(agent: AgentId)
    | Close(session: SessionId)
    | Restart

  /** The agent a call is to create; its session has the same name. */
  function Target(c: Call): AgentId {
    AgentId(c.prime.group, c.name)
  }

  function SessionOf(c: Call): SessionId {
    SessionId(c.prime.group, c.name)
  }

  // ----- Statements of the store -----

  /** INSERT OR IGNORE: an existing agent keeps its row. */
  function AgentRegister(agents: map<AgentId, AgentRow>, a: AgentId, row: AgentRow): map<AgentId, AgentRow> {
    if a in agents then agents else agents[a := row]
  }

  function SessionCreate(sessions: map<SessionId, SessionRow>, s: SessionId, row: SessionRow): map<SessionId, SessionRow> {
    if s in sessions then sessions else sessions[s := row]
  }

  function AgentSetStatus(agents: map<AgentId, AgentRow>, a: AgentId, status: Status): map<AgentId, AgentRow> {
    if a in agents then agents[a := agents[a].(status := status)] else agents
  }

  function SessionClose(sessions: map<SessionId, SessionRow>, s: SessionId): map<SessionId, SessionRow> {
    if s in sessions then sessions[s := sessions[s].(active := false)] else sessions
  }

  /** At startup no child of an earlier process lives: its agents have exited and its sessions are closed. */
  function ReconciledAgents(agents: map<AgentId, AgentRow>): map<AgentId, AgentRow> {
    map a | a in agents :: if agents[a].status.Idle? then agents[a] else agents[a].(status := Exited)
  }

  function ReconciledSessions(sessions: map<SessionId, SessionRow>): map<SessionId, SessionRow> {
    map s | s in sessions :: sessions[s].(active := false)
  }

  // ----- Steps -----

  predicate Can(s: Sys, a: Action) {
    match a
    case GroupNew(group) => group !in s.groups
    // the token of the request names a registered agent with role prime
    case BeginSpawn(prime, name, coordinator) => prime in s.agents && s.agents[prime].role.Prime?
    case CallStep(i, ok) => i < |s.calls| && !s.calls[i].pc.Over?
    case SetStatus(agent, status) => true
    case Kill(agent) => agent in s.agents
    case Close(session) => session in s.sessions
    case Restart => true
  }

  /** Where a call goes when its step succeeds and what it creates is still free. */
  function Next(c: Call): Call
    requires !c.pc.Over?
  {
    match c.pc
    case CheckSession => c.(pc := CheckAgent)
    case CheckAgent => c.(pc := Provision)
    case Provision => c.(pc := Register)
    case Register => c.(pc := Create, registered := true)
    case Create => c.(pc := Start, created := true, started := true)
    case Start => c.(pc := Over(true))
  }

  /** The step finds the agent or the session already there. */
  predicate Refused(s: Sys, c: Call) {
    match c.pc
    case CheckSession => SessionOf(c) in s.sessions
    case CheckAgent => Target(c) in s.agents
    case Register => Target(c) in s.agents
    case Create => SessionOf(c) in s.sessions
    case _ => false
  }

  function CallAfter(s: Sys, c: Call, ok: bool): Call
    requires !c.pc.Over?
  {
    if !ok || Refused(s, c) then c.(pc := Over(false)) else Next(c)
  }

  function AgentsAfter(s: Sys, c: Call, ok: bool): map<AgentId, AgentRow> {
    match c.pc
    case Register => if ok then AgentRegister(s.agents, Target(c), AgentRow(if c.coordinator then Prime else Child, Starting)) else s.agents
    case Create => if ok && Refused(s, c) then AgentSetStatus(s.agents, Target(c), Exited) else s.agents
    case Start => AgentSetStatus(s.agents, Target(c), if ok then Running else Exited)
    case _ => s.agents
  }

  function SessionsAfter(s: Sys, c: Call, ok: bool): map<SessionId, SessionRow> {
    if c.pc.Create? && ok then SessionCreate(s.sessions, SessionOf(c), SessionRow(c.prime.name, c.name, true)) else s.sessions
  }

  function DoCall(s: Sys, i: nat, ok: bool): Sys
    requires i < |s.calls| && !s.calls[i].pc.Over?
  {
    var c := s.calls[i];
    Sys(AgentsAfter(s, c, ok), SessionsAfter(s, c, ok), s.groups, s.calls[i := CallAfter(s, c, ok)])
  }

  function Do(s: Sys, a: Action): Sys
    requires Can(s, a)
  {
    match a
    case GroupNew(group) =>
      s.(groups := s.groups + {group}, agents := AgentRegister(s.agents, AgentId(group, "prime"), AgentRow(Prime, Idle)))
    case BeginSpawn(prime, name, coordinator) =>
      s.(calls := s.calls + [Call(prime, name, coordinator, CheckSession, false, false, false)])
    case CallStep(i, ok) => DoCall(s, i, ok)
    case SetStatus(agent, status) => s.(agents := AgentSetStatus(s.agents, agent, status))
    case Kill(agent) =>
      s.(agents := AgentSetStatus(s.agents, agent, Exited), sessions := SessionClose(s.sessions, SessionId(agent.group, agent.name)))
    case Close(session) =>
      s.(agents := AgentSetStatus(s.agents, AgentId(session.group, s.sessions[session].child), Exited),
         sessions := SessionClose(s.sessions, session))
    case Restart =>
      Sys(ReconciledAgents(s.agents), ReconciledSessions(s.sessions), s.groups,
          seq(|s.calls|, i requires 0 <= i < |s.calls| => s.calls[i].(pc := Over(false))))
  }

  predicate Init(s: Sys) {
    s == Sys(map[], map[], {}, [])
  }

  predicate IsRun(s: Sys, acts: seq<Action>)
    decreases |acts|
  {
    acts == [] || (Can(s, acts[0]) && IsRun(Do(s, acts[0]), acts[1..]))
  }

  function Run(s: Sys, acts: seq<Action>): Sys
    requires IsRun(s, acts)
    decreases |acts|
  {
    if acts == [] then s else Run(Do(s, acts[0]), acts[1..])
  }

  // ----- Invariant -----

  predicate Known(agents: map<AgentId, AgentRow>, a: AgentId, role: AgentRole) {
    a in agents && agents[a].role == role
  }

  /** A call's progress, and what it implies about the tables. */
  predicate CallOk(agents: map<AgentId, AgentRow>, c: Call) {
    && Known(agents, c.prime, Prime)
    && (c.created ==> c.registered) && (c.started ==> c.created)
    && (c.registered ==> Target(c) in agents && Target(c) != c.prime)
    && (c.pc.Create? || c.pc.Start? ==> c.registered) && (c.pc.Create? ==> !c.created)
    && (c.pc.Start? || c.pc == Over(true) ==> c.started)
    && (c.pc.CheckSession? || c.pc.CheckAgent? || c.pc.Provision? || c.pc.Register? ==> !c.registered)
  }

  predicate CallsOk(s: Sys) {
    && (forall i :: 0 <= i < |s.calls| ==> CallOk(s.agents, s.calls[i]))
    && (forall i, j :: 0 <= i < j < |s.calls| && s.calls[i].registered && s.calls[j].registered ==> Target(s.calls[i]) != Target(s.calls[j]))
  }

  predicate CreatedBy(calls: seq<Call>, id: SessionId, row: SessionRow) {
    exists i :: 0 <= i < |calls| && calls[i].created && SessionOf(calls[i]) == id
                && row.prime == calls[i].prime.name && row.child == calls[i].name
  }

  ghost predicate SessionsOk(s: Sys) {
    forall id :: id in s.sessions ==> CreatedBy(s.calls, id, s.sessions[id])
  }

  ghost predicate Inv(s: Sys) {
    CallsOk(s) && SessionsOk(s)
  }

  /** Agents are never removed and never change role. */
  ghost predicate AgentsStay(agents: map<AgentId, AgentRow>, agents': map<AgentId, AgentRow>) {
    forall a :: a in agents ==> a in agents' && agents'[a].role == agents[a].role
  }

  lemma StepAgents(s: Sys, a: Action)
    requires Can(s, a)
    ensures AgentsStay(s.agents, Do(s, a).agents)
  {
  }

  lemma CallStays(agents: map<AgentId, AgentRow>, agents': map<AgentId, AgentRow>, c: Call)
    requires CallOk(agents, c) && AgentsStay(agents, agents')
    ensures CallOk(agents', c) && CallOk(agents', c.(pc := Over(false)))
  {
  }

  lemma CallAfterOk(s: Sys, c: Call, ok: bool)
    requires CallOk(s.agents, c) && !c.pc.Over?
    ensures CallOk(AgentsAfter(s, c, ok), CallAfter(s, c, ok))
  {
  }

  /** Only a call that finds its agent's name free registers it. */
  lemma NewlyRegistered(s: Sys, c: Call, ok: bool, other: Call)
    requires CallOk(s.agents, c) && CallOk(s.agents, other) && !c.pc.Over?
    requires other.registered && CallAfter(s, c, ok).registered && (c.registered ==> Target(c) != Target(other))
    ensures Target(CallAfter(s, c, ok)) != Target(other)
  {
  }

  lemma CallStepOk(s: Sys, i: nat, ok: bool)
    requires CallsOk(s) && i < |s.calls| && !s.calls[i].pc.Over?
    ensures CallsOk(DoCall(s, i, ok))
  {
    var c, s' := s.calls[i], DoCall(s, i, ok);
    CallAfterOk(s, c, ok);
    forall j | 0 <= j < |s.calls| && j != i
      ensures CallOk(s'.agents, s.calls[j])
      ensures s.calls[j].registered && s'.calls[i].registered ==> Target(s'.calls[i]) != Target(s.calls[j])
    {
      assert AgentsStay(s.agents, s'.agents);
      CallStays(s.agents, s'.agents, s.calls[j]);
      if s.calls[j].registered && s'.calls[i].registered {
        NewlyRegistered(s, c, ok, s.calls[j]);
      }
    }
  }

  lemma StepCalls(s: Sys, a: Action)
    requires CallsOk(s) && Can(s, a)
    ensures CallsOk(Do(s, a))
  {
    StepAgents(s, a);
    if a.CallStep? {
      CallStepOk(s, a.i, a.ok);
    } else {
      forall j | 0 <= j < |s.calls| ensures CallOk(Do(s, a).agents, Do(s, a).calls[j]) {
        CallStays(s.agents, Do(s, a).agents, s.calls[j]);
      }
    }
  }

  predicate Continues(c: Call, c': Call) {
    c'.prime == c.prime && c'.name == c.name && (c.registered ==> c'.registered) && (c.created ==> c'.created)
  }

  /** A call never changes its target and never takes back what it did. */
  ghost predicate CallsContinue(calls: seq<Call>, calls': seq<Call>) {
    |calls| <= |calls'| && forall i :: 0 <= i < |calls| ==> Continues(calls[i], calls'[i])
  }

  lemma CreatedStays(calls: seq<Call>, calls': seq<Call>, id: SessionId, row: SessionRow, active: bool)
    requires CreatedBy(calls, id, row) && CallsContinue(calls, calls')
    ensures CreatedBy(calls', id, row.(active := active))
  {
    var i :| 0 <= i < |calls| && calls[i].created && SessionOf(calls[i]) == id
             && row.prime == calls[i].prime.name && row.child == calls[i].name;
    assert Continues(calls[i], calls'[i]);
  }

  lemma StepContinues(s: Sys, a: Action)
    requires Can(s, a)
    ensures CallsContinue(s.calls, Do(s, a).calls)
  {
  }

  /** A session row a step adds is the acting call's. */
  lemma NewSession(s: Sys, a: Action, id: SessionId)
    requires Can(s, a) && id !in s.sessions && id in Do(s, a).sessions
    ensures CreatedBy(Do(s, a).calls, id, Do(s, a).sessions[id])
  {
    assert Do(s, a).calls[a.i].created;
  }

  lemma OldSession(s: Sys, a: Action, id: SessionId)
    requires Can(s, a) && id in s.sessions
    ensures id in Do(s, a).sessions && Do(s, a).sessions[id] == s.sessions[id].(active := Do(s, a).sessions[id].active)
  {
  }

  lemma StepSessions(s: Sys, a: Action)
    requires Inv(s) && Can(s, a)
    ensures SessionsOk(Do(s, a))
  {
    StepContinues(s, a);
    var s' := Do(s, a);
    forall id | id in s'.sessions ensures CreatedBy(s'.calls, id, s'.sessions[id]) {
      if id in s.sessions {
        OldSession(s, a, id);
        CreatedStays(s.calls, s'.calls, id, s.sessions[id], s'.sessions[id].active);
      } else {
        NewSession(s, a, id);
      }
    }
  }

  lemma {:induction false} InvRun(s: Sys, acts: seq<Action>)
    requires Inv(s) && IsRun(s, acts)
    ensures Inv(Run(s, acts))
    decreases |acts|
  {
    if acts != [] {
      StepCalls(s, acts[0]);
      StepSessions(s, acts[0]);
      InvRun(Do(s, acts[0]), acts[1..]);
    }
  }

  // ----- Main results -----

  /** The call has reached `supervisor::start`, is there, or has succeeded. */
  predicate HasStarted(c: Call) {
    c.started || c.pc.Start? || c.pc == Over(true)
  }

  /**
   Unique supervisor: over every interleaving of calls, kills, closes and restarts, at most one
   call for a given group and session name ever reaches `supervisor::start`, or succeeds.
   */
  lemma StartedOnce(s: Sys, acts: seq<Action>, i: nat, j: nat)
    requires Init(s) && IsRun(s, acts) && i < |Run(s, acts).calls| && j < |Run(s, acts).calls|
    requires HasStarted(Run(s, acts).calls[i]) && HasStarted(Run(s, acts).calls[j])
    requires Run(s, acts).calls[i].prime.group == Run(s, acts).calls[j].prime.group && Run(s, acts).calls[i].name == Run(s, acts).calls[j].name
    ensures i == j
  {
    InvRun(s, acts);
    var calls := Run(s, acts).calls;
    assert CallOk(Run(s, acts).agents, calls[i]) && CallOk(Run(s, acts).agents, calls[j]);
  }

  /** A session is between two different agents, the prime being a registered prime of the group and the child bearing the session's name. */
  lemma PrimeIsNotChild(s: Sys, acts: seq<Action>, id: SessionId)
    requires Init(s) && IsRun(s, acts) && id in Run(s, acts).sessions
    ensures var e := Run(s, acts);
            && e.sessions[id].prime != e.sessions[id].child && e.sessions[id].child == id.name
            && Known(e.agents, AgentId(id.group, e.sessions[id].prime), Prime)
            && AgentId(id.group, e.sessions[id].child) in e.agents
  {
    InvRun(s, acts);
    var e := Run(s, acts);
    var i :| 0 <= i < |e.calls| && e.calls[i].created && SessionOf(e.calls[i]) == id
             && e.sessions[id].prime == e.calls[i].prime.name && e.sessions[id].child == e.calls[i].name;
    assert CallOk(e.agents, e.calls[i]);
  }

  /** The rollback after a refused `session_create` is never taken: whoever registers the agent finds the session's name free. */
  lemma CreateNeverRefused(s: Sys, acts: seq<Action>, i: nat)
    requires Init(s) && IsRun(s, acts) && i < |Run(s, acts).calls| && Run(s, acts).calls[i].pc.Create?
    ensures SessionOf(Run(s, acts).calls[i]) !in Run(s, acts).sessions
  {
    InvRun(s, acts);
    var e := Run(s, acts);
    var id := SessionOf(e.calls[i]);
    assert CallOk(e.agents, e.calls[i]);
    forall j | 0 <= j < |e.calls| && e.calls[j].created ensures SessionOf(e.calls[j]) != id {
      assert CallOk(e.agents, e.calls[j]);
    }
  }

  /**
   A name is taken for good by the first call that registers it, even if that call fails later,
   its session is closed or the daemon restarts: no call still ahead of its registration ever
   gets past it.
   */
  lemma NameStaysTaken(s: Sys, acts: seq<Action>, more: seq<Action>, i: nat, j: nat)
    requires Init(s) && IsRun(s, acts) && i < |Run(s, acts).calls| && Run(s, acts).calls[i].registered
    requires IsRun(Run(s, acts), more) && j < |Run(Run(s, acts), more).calls| && j != i
    requires i < |Run(Run(s, acts), more).calls| && Target(Run(Run(s, acts), more).calls[j]) == Target(Run(s, acts).calls[i])
    ensures !Run(Run(s, acts), more).calls[j].registered && !Run(Run(s, acts), more).calls[j].started
  {
    InvRun(s, acts);
    InvRun(Run(s, acts), more);
    RegisteredStays(Run(s, acts), more, i);
    var e := Run(Run(s, acts), more);
    assert CallOk(e.agents, e.calls[j]);
  }

  lemma {:induction false} RegisteredStays(s: Sys, more: seq<Action>, i: nat)
    requires IsRun(s, more) && i < |s.calls| && s.calls[i].registered
    ensures i < |Run(s, more).calls| && Run(s, more).calls[i].registered && Target(Run(s, more).calls[i]) == Target(s.calls[i])
    decreases |more|
  {
    if more != [] {
      StepContinues(s, more[0]);
      assert Continues(s.calls[i], Do(s, more[0]).calls[i]);
      RegisteredStays(Do(s, more[0]), more[1..], i);
    }
  }

  /** Killing an agent and closing its session come to the same: the agent has exited, the session is closed, nothing else changes. */
  lemma KillIsClose(s: Sys, acts: seq<Action>, id: SessionId)
    requires Init(s) && IsRun(s, acts) && id in Run(s, acts).sessions
    ensures var e, a := Run(s, acts), AgentId(id.group, id.name);
            && a in e.agents && Do(e, Kill(a)) == Do(e, Close(id))
            && Do(e, Close(id)) == e.(agents := e.agents[a := e.agents[a].(status := Exited)], sessions := e.sessions[id := e.sessions[id].(active := false)])
  {
    PrimeIsNotChild(s, acts, id);
  }

  /** After a restart no child counts as alive, no session as active, and no call goes on. */
  lemma RestartEndsAll(s: Sys)
    ensures var e := Do(s, Restart);
            && e.agents.Keys == s.agents.Keys && e.sessions.Keys == s.sessions.Keys
            && (forall a :: a in e.agents ==> e.agents[a].role == s.agents[a].role && (e.agents[a].status.Exited? || e.agents[a].status.Idle?))
            && (forall id :: id in e.sessions ==> !e.sessions[id].active)
            && (forall i :: 0 <= i < |e.calls| ==> e.calls[i].pc.Over?)
  {
  }

  // ----- Routing -----

  /** Where `agent send` routes a message of `me`: to the other end of the session. */
  function Route(sess: SessionRow, me: string): Option<string> {
    if me == sess.prime then Some(sess.child)
    else if me == sess.child then Some(sess.prime)
    else None
  }

  /** A message always goes to the other participant, a registered agent, and a reply comes back; strangers are refused. */
  lemma RoutedToTheOther(s: Sys, acts: seq<Action>, id: SessionId, me: string)
    requires Init(s) && IsRun(s, acts) && id in Run(s, acts).sessions
    ensures var e := Run(s, acts);
            var r := Route(e.sessions[id], me);
            && (r.Some? <==> me == e.sessions[id].prime || me == e.sessions[id].child)
            && (r.Some? ==> r.value != me && Route(e.sessions[id], r.value) == Some(me) && AgentId(id.group, r.value) in e.agents)
  {
    PrimeIsNotChild(s, acts, id);
  }
}
