/**
 What goes on around one actor's code on the bus: between its steps others take theirs, so that its
 code, with everything done meanwhile, is a run of `BusMachine`.
 */
module Surroundings {
  import opened Basics
  import opened BusTable
  import opened BusMachine
  import opened BusFacts
  import opened LocalBus

  // ----- What others do -----

  /** What a step of others does to the store. */
  datatype Effect = Posting(to: SessionId, msg: Msg) | Marking(key: Key, now: nat) | Broadcasting(key: Key) | Missing(key: Key) | Quiet

  /** A step of others, by its effect and as the transition system knows it. */
  datatype Outside = Did(effect: Effect, action: Action)

  ghost function Affect(b: Bus, e: Effect): Bus {
    match e
    case Posting(to, msg) => Commit(b, to, msg)
    case Marking(key, now) => Consumes(b, key, now)
    case Broadcasting(key) => PublishIf(b, key)
    case Missing(key) => Skips(b, key)
    case Quiet => b
  }

  /** Others than actor `i` can take the step in state `s`, and it has this effect. */
  ghost predicate CanDo(s: Sys, i: nat, o: Outside) {
    && Can(s, o.action) && !o.action.Crash? && !(o.action.Step? && o.action.i == i)
    && Do(s, o.action).bus == Affect(s.bus, o.effect)
  }

  /** What a step of actor `x` does to the store. */
  function EventEffect(x: Actor, ev: Event): Effect {
    match ev
    case PostPrompt(msg) => Posting(OwnSession(x.me), msg)
    case MarkPrompt(now) => if x.pc.PromptMark? then Marking(x.pc.key, now) else Quiet
    case PromptUnmarked => if x.pc.PromptMark? then Missing(x.pc.key) else Quiet
    case Mark(now) => if x.pc.Handed? && x.pc.rows != [] then Marking(x.pc.rows[0].key, now) else Quiet
    case NoMark => if x.pc.Handed? && x.pc.rows != [] && x.role.Supervisor? then Missing(x.pc.rows[0].key) else Quiet
    case _ => Quiet
  }

  /** What an action does to the store: a post commits, a broadcast publishes, a mark consumes, a failed one is noted, the rest leave it alone. */
  function EffectOf(s: Sys, a: Action): Effect {
    match a
    case Post(to, msg) => Posting(to, msg)
    case Publish(key) => Broadcasting(key)
    case Step(i, ev) => if i < |s.actors| then EventEffect(s.actors[i], ev) else Quiet
    case _ => Quiet
  }

  /** Others can do, at any time, whatever the system allows anybody but actor `i`. */
  lemma OthersAreFree(s: Sys, i: nat, a: Action)
    requires Can(s, a) && !a.Crash? && !(a.Step? && a.i == i)
    ensures CanDo(s, i, Did(EffectOf(s, a), a))
  {
  }

  lemma AffectGrows(b: Bus, e: Effect)
    requires Window(b.table, b.log)
    ensures Grows(b, Affect(b, e))
  {
    match e
    case Posting(to, msg) => CommitGrows(b, to, msg);
    case Marking(key, now) => ConsumesGrows(b, key, now);
    case _ =>
  }

  /** The messages others post, with their sessions. */
  function PostedBy(script: seq<Outside>): seq<(SessionId, Msg)> {
    if script == [] then [] else
      var e := script[|script| - 1].effect;
      PostedBy(script[..|script| - 1]) + (if e.Posting? then [(e.to, e.msg)] else [])
  }

  function Stamps(items: seq<Item>): (r: seq<(SessionId, Msg)>)
    ensures |r| == |items|
  {
    seq(|items|, i requires 0 <= i < |items| => (items[i].key.session, items[i].msg))
  }

  /** The keys others failed to mark. */
  function MissedBy(script: seq<Outside>): set<Key> {
    set i | 0 <= i < |script| && script[i].effect.Missing? :: script[i].effect.key
  }

  /** Of `script`, all but `coming` has been done, and `outside` is what was posted by it. */
  ghost predicate Outsiders(script: seq<Outside>, coming: seq<Outside>, outside: seq<Item>) {
    && |coming| <= |script| && coming == script[|script| - |coming|..]
    && Stamps(outside) == PostedBy(script[..|script| - |coming|])
  }

  lemma OutsidersOn(script: seq<Outside>, coming: seq<Outside>, outside: seq<Item>, outside': seq<Item>)
    requires Outsiders(script, coming, outside) && coming != []
    requires var e := coming[0].effect;
             if e.Posting? then exists k: Key :: k.session == e.to && outside' == outside + [Item(k, e.msg)] else outside' == outside
    ensures Outsiders(script, coming[1..], outside')
  {
    var c := |script| - |coming|;
    assert coming[0] == script[c] && coming[1..] == script[c + 1..] && script[..c + 1][..c] == script[..c];
    if coming[0].effect.Posting? {
      assert Stamps(outside') == Stamps(outside) + [(coming[0].effect.to, coming[0].effect.msg)];
    } else {
      assert Stamps(outside) + [] == Stamps(outside);
    }
  }

  // ----- Where the system is -----

  lemma {:induction false} RunThrough(s: Sys, acts: seq<Action>, more: seq<Action>)
    requires IsRun(s, acts) && IsRun(Run(s, acts), more)
    ensures IsRun(s, acts + more) && Run(s, acts + more) == Run(Run(s, acts), more)
    decreases |acts|
  {
    hide Can, Do;
    if acts == [] {
      assert acts + more == more;
    } else {
      assert (acts + more)[1..] == acts[1..] + more;
      RunThrough(Do(s, acts[0]), acts[1..], more);
    }
  }

  /** `acts` lead the system from `start` to bus `b` and `actors`, among which actor `i` is `x`. */
  ghost predicate Tied(start: Sys, acts: seq<Action>, i: nat, b: Bus, actors: seq<Actor>, x: Actor) {
    IsRun(start, acts) && Run(start, acts) == Sys(b, actors) && i < |actors| && actors[i] == x
  }

  lemma TiedOwn(start: Sys, acts: seq<Action>, i: nat, b: Bus, actors: seq<Actor>, x: Actor, evs: seq<Event>, b': Bus, x': Actor)
    requires Tied(start, acts, i, b, actors, x) && Leads(b, x, evs, b', x')
    ensures Tied(start, acts + StepsOf(i, evs), i, b', actors[i := x'], x')
  {
    hide IsRun, Run, Leads;
    LeadsIsARun(Sys(b, actors), i, evs, b', x');
    RunThrough(start, acts, StepsOf(i, evs));
  }

  lemma OneStep(s: Sys, a: Action)
    requires Can(s, a)
    ensures IsRun(s, [a]) && Run(s, [a]) == Do(s, a)
  {
    hide Can, Do;
    assert [a][1..] == [];
    assert IsRun(Do(s, a), []) && Run(Do(s, a), []) == Do(s, a);
  }

  lemma OthersKeepActor(s: Sys, i: nat, o: Outside)
    requires i < |s.actors| && CanDo(s, i, o)
    ensures i < |Do(s, o.action).actors| && Do(s, o.action).actors[i] == s.actors[i]
  {
  }

  lemma TiedOther(start: Sys, acts: seq<Action>, i: nat, b: Bus, actors: seq<Actor>, x: Actor, o: Outside)
    requires Tied(start, acts, i, b, actors, x) && CanDo(Sys(b, actors), i, o)
    ensures Tied(start, acts + [o.action], i, Affect(b, o.effect), Do(Sys(b, actors), o.action).actors, x)
  {
    OthersKeepActor(Sys(b, actors), i, o);
    hide IsRun, Run, Can, Do, Affect;
    OneStep(Sys(b, actors), o.action);
    RunThrough(start, acts, [o.action]);
  }

  /** Committing and broadcasting one message. */
  function Utter(to: SessionId, msg: Msg, k: Key): seq<Action> {
    [Action.Post(to, msg), Publish(k)]
  }

  lemma UtterIsARun(s: Sys, to: SessionId, msg: Msg)
    requires Window(s.bus.table, s.bus.log)
    ensures var acts := Utter(to, msg, Key(to, |Of(s.bus.log, to)| + 1));
            IsRun(s, acts) && Run(s, acts) == Sys(Enqueued(s.bus, to, msg), s.actors)
  {
    var k := Key(to, |Of(s.bus.log, to)| + 1);
    EnqueuedIs(s.bus, to, msg);
    OneStep(Do(s, Action.Post(to, msg)), Publish(k));
    RunCons(s, Action.Post(to, msg), [Publish(k)]);
    assert [Action.Post(to, msg)] + [Publish(k)] == Utter(to, msg, k);
  }

  lemma TiedUtter(start: Sys, acts: seq<Action>, i: nat, b: Bus, actors: seq<Actor>, x: Actor, to: SessionId, msg: Msg)
    requires Tied(start, acts, i, b, actors, x) && Window(b.table, b.log)
    ensures Tied(start, acts + Utter(to, msg, Key(to, |Of(b.log, to)| + 1)), i, Enqueued(b, to, msg), actors, x)
  {
    hide IsRun, Run, Enqueued, Utter;
    UtterIsARun(Sys(b, actors), to, msg);
    RunThrough(start, acts, Utter(to, msg, Key(to, |Of(b.log, to)| + 1)));
  }

  // ----- One actor's code in the system -----

  /** The steps taken so far and the actors they led to; `strayed` once others did something no system can do. */
  datatype World = World(acts: seq<Action>, actors: seq<Actor>, strayed: bool)

  /** Among the first `done` things others did, one was impossible in the state it was done in. */
  ghost predicate Impossible(start: Sys, i: nat, script: seq<Outside>, done: nat, acts: seq<Action>) {
    IsRun(start, acts) && exists c :: 0 <= c < done && c < |script| && !CanDo(Run(start, acts), i, script[c])
  }

  /**
   The code of actor `i` and all that others have done of `script`, of which `left` things are still to
   come, is a run of the system, unless one of these was impossible when it was done.
   */
  ghost predicate InSystem(start: Sys, i: nat, script: seq<Outside>, left: nat, w: World, b: Bus, x: Actor) {
    && left <= |script|
    && if w.strayed then Impossible(start, i, script, |script| - left, w.acts) else Tied(start, w.acts, i, b, w.actors, x)
  }

  function ByOwn(w: World, i: nat, evs: seq<Event>, x: Actor): World {
    if w.strayed || i >= |w.actors| then w else w.(acts := w.acts + StepsOf(i, evs), actors := w.actors[i := x])
  }

  function ByUtter(w: World, to: SessionId, msg: Msg, k: Key): World {
    if w.strayed then w else w.(acts := w.acts + Utter(to, msg, k))
  }

  ghost function ByOther(w: World, i: nat, b: Bus, o: Outside): World {
    if w.strayed then w
    else if CanDo(Sys(b, w.actors), i, o) then w.(acts := w.acts + [o.action], actors := Do(Sys(b, w.actors), o.action).actors)
    else w.(strayed := true)
  }

  lemma OwnInSystem(start: Sys, i: nat, script: seq<Outside>, left: nat, w: World, b: Bus, x: Actor, evs: seq<Event>, b': Bus, x': Actor)
    requires InSystem(start, i, script, left, w, b, x) && Leads(b, x, evs, b', x')
    ensures InSystem(start, i, script, left, ByOwn(w, i, evs, x'), b', x')
  {
    if !w.strayed {
      TiedOwn(start, w.acts, i, b, w.actors, x, evs, b', x');
    }
  }

  lemma UtterInSystem(start: Sys, i: nat, script: seq<Outside>, left: nat, w: World, b: Bus, x: Actor, to: SessionId, msg: Msg)
    requires InSystem(start, i, script, left, w, b, x) && Window(b.table, b.log)
    ensures InSystem(start, i, script, left, ByUtter(w, to, msg, Key(to, |Of(b.log, to)| + 1)), Enqueued(b, to, msg), x)
  {
    if !w.strayed {
      TiedUtter(start, w.acts, i, b, w.actors, x, to, msg);
    }
  }

  lemma OtherInSystem(start: Sys, i: nat, script: seq<Outside>, left: nat, w: World, b: Bus, x: Actor)
    requires InSystem(start, i, script, left, w, b, x) && left > 0
    ensures InSystem(start, i, script, left - 1, ByOther(w, i, b, script[|script| - left]), Affect(b, script[|script| - left].effect), x)
  {
    hide CanDo, IsRun, Run, Affect;
    var o := script[|script| - left];
    if !w.strayed && CanDo(Sys(b, w.actors), i, o) {
      TiedOther(start, w.acts, i, b, w.actors, x, o);
    }
  }
}
