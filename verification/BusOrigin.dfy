/**
 What the log is made of: the log of a session is exactly what was posted to it, in order, by
 `bus_enqueue` or as the prompt of its supervisor (crates/wt-daemon/src/state.rs,
 crates/wt-daemon/src/supervisor.rs).
 */
module BusOrigin {
  import opened Basics
  import opened BusTable
  import opened BusMachine
  import opened BusFacts

  /** What one action posts to a session. */
  function PostedBy(s: Sys, a: Action, session: SessionId): seq<Msg> {
    match a
    case Post(to, msg) => if to == session then [msg] else []
    case Step(i, PostPrompt(msg)) =>
      if i < |s.actors| && s.actors[i].me.group == session.group && s.actors[i].me.name == session.name then [msg] else []
    case _ => []
  }

  /** What was posted to a session along a run, in order. */
  ghost function PostsOf(s: Sys, acts: seq<Action>, session: SessionId): seq<Msg>
    requires IsRun(s, acts)
    decreases |acts|
  {
    if acts == [] then [] else PostedBy(s, acts[0], session) + PostsOf(Do(s, acts[0]), acts[1..], session)
  }

  lemma StepLogs(s: Sys, a: Action, session: SessionId)
    requires Can(s, a)
    ensures Of(Do(s, a).bus.log, session) == Of(s.bus.log, session) + PostedBy(s, a, session)
  {
    assert Of(s.bus.log, session) + [] == Of(s.bus.log, session);
  }

  lemma {:induction false} RunLogs(s: Sys, acts: seq<Action>, session: SessionId)
    requires IsRun(s, acts)
    ensures Of(Run(s, acts).bus.log, session) == Of(s.bus.log, session) + PostsOf(s, acts, session)
    decreases |acts|
  {
    hide Can, Do, PostedBy, Of;
    if acts == [] {
      assert Of(s.bus.log, session) + [] == Of(s.bus.log, session);
    } else {
      StepLogs(s, acts[0], session);
      RunLogs(Do(s, acts[0]), acts[1..], session);
      ConcatAssoc(Of(s.bus.log, session), PostedBy(s, acts[0], session), PostsOf(Do(s, acts[0]), acts[1..], session));
    }
  }

  // ----- Main results -----

  /** The log of a session is what was posted to it, message for message and in order. */
  lemma LogIsWhatWasPosted(s: Sys, acts: seq<Action>, session: SessionId)
    requires Init(s) && IsRun(s, acts)
    ensures Of(Run(s, acts).bus.log, session) == PostsOf(s, acts, session)
  {
    RunLogs(s, acts, session);
    assert [] + PostsOf(s, acts, session) == PostsOf(s, acts, session);
  }

  /** Whatever anybody is handed is the message posted under that number, addressed to it. */
  lemma HandedIsPosted(s: Sys, acts: seq<Action>, i: nat, j: nat)
    requires Init(s) && IsRun(s, acts) && i < |Run(s, acts).actors| && j < |Run(s, acts).actors[i].out|
    ensures var x := Run(s, acts).actors[i];
            var posted := PostsOf(s, acts, x.out[j].key.session);
            && 1 <= x.out[j].key.num <= |posted| && x.out[j].msg == posted[x.out[j].key.num - 1]
            && x.out[j].msg.to == x.me.name && x.out[j].key.session.group == x.me.group
  {
    HandedAsPosted(s, acts, i, j);
    LogIsWhatWasPosted(s, acts, Run(s, acts).actors[i].out[j].key.session);
  }

  /** And so is every broadcast. */
  lemma BroadcastIsPosted(s: Sys, acts: seq<Action>, j: nat)
    requires Init(s) && IsRun(s, acts) && j < |Run(s, acts).bus.bcast|
    ensures var x := Run(s, acts).bus.bcast[j];
            var posted := PostsOf(s, acts, x.key.session);
            1 <= x.key.num <= |posted| && x.msg == posted[x.key.num - 1]
  {
    BaseRun(s, acts);
    LogIsWhatWasPosted(s, acts, Run(s, acts).bus.bcast[j].key.session);
  }
}
