/** One `spawn_session` call in code, store call by store call (crates/wt-daemon/src/ipc.rs), tied to the steps of `Spawn`. */
module SpawnSession {
  import opened Basics
  import opened BusTable
  import opened Spawn

  /** One step of the only call of `s`. */
  ghost predicate IsStep(s: Sys, s': Sys) {
    |s.calls| == 1 && !s.calls[0].pc.Over? && (s' == DoCall(s, 0, true) || s' == DoCall(s, 0, false))
  }

  /** `trail` is a run of the call from `s` to `s'`. */
  ghost predicate Traced(s: Sys, trail: seq<Sys>, s': Sys) {
    && trail != [] && trail[0] == s && trail[|trail| - 1] == s'
    && forall i :: 0 <= i < |trail| - 1 ==> IsStep(trail[i], trail[i + 1])
  }

  lemma TraceOn(s0: Sys, trail: seq<Sys>, s: Sys, s': Sys, c: Call, ok: bool)
    requires Traced(s0, trail, s) && s.calls == [c] && !c.pc.Over?
    requires s' == Sys(AgentsAfter(s, c, ok), SessionsAfter(s, c, ok), s.groups, [CallAfter(s, c, ok)])
    ensures Traced(s0, trail + [s'], s')
  {
    assert s.calls[0 := CallAfter(s, c, ok)] == [CallAfter(s, c, ok)];
    assert IsStep(s, s');
  }

  class Registry {
    /** Neither the store, nor provisioning, nor starting a child fails. */
    const reliable: bool
    var agents: map<AgentId, AgentRow>
    var sessions: map<SessionId, SessionRow>
    /** The call under way, and its run so far. */
    ghost var call: Call
    ghost var trail: seq<Sys>

    ghost function View(): Sys
      reads this
    {
      Sys(agents, sessions, {}, [call])
    }

    constructor (reliable: bool, agents: map<AgentId, AgentRow>, sessions: map<SessionId, SessionRow>, ghost call: Call)
      ensures this.reliable == reliable && View() == Sys(agents, sessions, {}, [call]) && trail == [View()]
    {
      this.reliable, this.agents, this.sessions, this.call := reliable, agents, sessions, call;
      trail := [Sys(agents, sessions, {}, [call])];
    }

    /** A lookup, which may fail; the caller goes on if it succeeds and finds nothing. */
    method LookUp(taken: bool, ghost s0: Sys) returns (free: bool)
      requires Traced(s0, trail, View()) && (call.pc.CheckSession? || call.pc.CheckAgent?) && (taken <==> Refused(View(), call))
      modifies this`call, this`trail
      ensures Traced(s0, trail, View()) && (free ==> !taken) && (reliable && !taken ==> free)
      ensures call == if free then Next(old(call)) else old(call).(pc := Over(false))
    {
      var up: bool := *;
      up := up || reliable;
      free := up && !taken;
      ghost var s := View();
      call := CallAfter(s, call, up);
      TraceOn(s0, trail, s, View(), s.calls[0], up);
      trail := trail + [View()];
    }

    method ProvisionWorkspace(ghost s0: Sys) returns (ok: bool)
      requires Traced(s0, trail, View()) && call.pc.Provision?
      modifies this`call, this`trail
      ensures Traced(s0, trail, View()) && (reliable ==> ok)
      ensures call == if ok then Next(old(call)) else old(call).(pc := Over(false))
    {
      ok := *;
      ok := ok || reliable;
      ghost var s := View();
      call := CallAfter(s, call, ok);
      TraceOn(s0, trail, s, View(), s.calls[0], ok);
      trail := trail + [View()];
    }

    /** Checks both names and provisions the workspace. */
    method Prepare(a: AgentId, id: SessionId, ghost s0: Sys) returns (ok: bool)
      requires Traced(s0, trail, View()) && call.pc.CheckSession? && a == Target(call) && id == SessionOf(call)
      modifies this`call, this`trail
      ensures Traced(s0, trail, View()) && call == old(call).(pc := if ok then Pc.Register else Over(false))
      ensures ok ==> a !in agents && id !in sessions
      ensures reliable && a !in agents && id !in sessions ==> ok
    {
      ok := LookUp(id in sessions, s0);
      if !ok {
        return;
      }
      ok := LookUp(a in agents, s0);
      if !ok {
        return;
      }
      ok := ProvisionWorkspace(s0);
    }

    /** Undisturbed, the name is still free. */
    method AgentRegister(a: AgentId, row: AgentRow, ghost s0: Sys) returns (ok: bool)
      requires Traced(s0, trail, View()) && call.pc.Register? && a == Target(call) && a !in agents
      requires row == AgentRow(if call.coordinator then Prime else Child, Starting)
      modifies this`agents, this`call, this`trail
      ensures Traced(s0, trail, View()) && (reliable ==> ok)
      ensures call == if ok then Next(old(call)) else old(call).(pc := Over(false))
      ensures agents == if ok then old(agents)[a := row] else old(agents)
    {
      ok := *;
      ok := ok || reliable;
      ghost var s := View();
      if ok {
        agents := agents[a := row];
      }
      call := CallAfter(s, call, ok);
      TraceOn(s0, trail, s, View(), s.calls[0], ok);
      trail := trail + [View()];
    }

    method SessionCreate(id: SessionId, row: SessionRow, ghost s0: Sys) returns (ok: bool)
      requires Traced(s0, trail, View()) && call.pc.Create? && id == SessionOf(call) && id !in sessions
      requires row == SessionRow(call.prime.name, call.name, true)
      modifies this`sessions, this`call, this`trail
      ensures Traced(s0, trail, View()) && (reliable ==> ok)
      ensures call == if ok then Next(old(call)) else old(call).(pc := Over(false))
      ensures sessions == if ok then old(sessions)[id := row] else old(sessions)
    {
      ok := *;
      ok := ok || reliable;
      ghost var s := View();
      if ok {
        sessions := sessions[id := row];
      }
      call := CallAfter(s, call, ok);
      TraceOn(s0, trail, s, View(), s.calls[0], ok);
      trail := trail + [View()];
    }

    /** `supervisor::start`, and the agent's status after it. */
    method StartChild(a: AgentId, ghost s0: Sys) returns (ok: bool)
      requires Traced(s0, trail, View()) && call.pc.Start? && a == Target(call) && a in agents
      modifies this`agents, this`call, this`trail
      ensures Traced(s0, trail, View()) && (reliable ==> ok) && call == old(call).(pc := Over(ok))
      ensures agents == old(agents)[a := old(agents)[a].(status := if ok then Running else Exited)]
    {
      ok := *;
      ok := ok || reliable;
      ghost var s := View();
      agents := agents[a := agents[a].(status := if ok then Running else Exited)];
      call := CallAfter(s, call, ok);
      TraceOn(s0, trail, s, View(), s.calls[0], ok);
      trail := trail + [View()];
    }

    /**
     The call, undisturbed. The child runs afterwards iff the result is true, and then both names
     were free before; a call that finds either name taken changes nothing; no other agent or
     session is ever touched.
     */
    method Spawn(prime: AgentId, name: string, coordinator: bool) returns (ok: bool)
      requires call == Call(prime, name, coordinator, CheckSession, false, false, false) && trail == [View()]
      modifies this
      ensures Traced(old(View()), trail, View()) && call.pc == Over(ok)
      ensures reliable ==> (ok <==> AgentId(prime.group, name) !in old(agents) && SessionId(prime.group, name) !in old(sessions))
      ensures SpawnEffect(old(View()), View(), AgentId(prime.group, name), SessionId(prime.group, name),
                          AgentRow(if coordinator then Prime else Child, Running), SessionRow(prime.name, name, true), ok)
    {
      ghost var s0 := View();
      var a, id := AgentId(prime.group, name), SessionId(prime.group, name);
      ok := Prepare(a, id, s0);
      if !ok {
        return;
      }
      ok := AgentRegister(a, AgentRow(if coordinator then Prime else Child, Starting), s0);
      if !ok {
        return;
      }
      ok := SessionCreate(id, SessionRow(prime.name, name, true), s0);
      if !ok {
        return;
      }
      ok := StartChild(a, s0);
    }
  }

  ghost predicate SpawnEffect(s: Sys, s': Sys, a: AgentId, id: SessionId, row: AgentRow, sess: SessionRow, ok: bool) {
    && (ok ==> a !in s.agents && id !in s.sessions)
    && (ok ==> s'.agents == s.agents[a := row] && s'.sessions == s.sessions[id := sess])
    && (!ok && a in s'.agents && s'.agents[a].status.Running? ==> a in s.agents)
    && (a in s.agents || id in s.sessions ==> s'.agents == s.agents && s'.sessions == s.sessions)
    && (forall b :: b != a ==> (b in s'.agents <==> b in s.agents) && (b in s.agents ==> s'.agents[b] == s.agents[b]))
    && (forall x :: x != id ==> (x in s'.sessions <==> x in s.sessions) && (x in s.sessions ==> s'.sessions[x] == s.sessions[x]))
  }
}
