/**
 The initial prompt among the turns: it is written to the child first, and gets its number only
 afterwards (`start`, crates/wt-daemon/src/supervisor.rs). Exactly when the numbers written to
 the child's stdin, the prompt's included, come in order.
 */
module BusPrompt {
  import opened Basics
  import opened BusTable
  import opened BusMachine
  import opened BusFacts
  import opened BusTurns
  import opened BusIndependence

  function KeysOf(xs: seq<Item>): (r: seq<Key>)
    ensures |r| == |xs|
  {
    seq(|xs|, i requires 0 <= i < |xs| => xs[i].key)
  }

  /** The keys of everything written to the child's stdin, in the order it was written: the prompt, then what the drains fed. */
  function StdinKeys(x: Actor): seq<Key>
    requires x.role.Supervisor?
  {
    (if x.role.prompt.Some? then [x.role.prompt.value] else []) + KeysOf(x.out)
  }

  ghost predicate InOrder(skipped: set<Key>, keys: seq<Key>) {
    forall i, j :: 0 <= i < j < |keys| && keys[i].session == keys[j].session ==>
      keys[i].num < keys[j].num || keys[j] in skipped
  }

  /** A turn input for `me` waits in its own session. */
  ghost predicate Waiting(b: Bus, me: AgentId) {
    exists k: Key :: k.session == OwnSession(me) && PendingFor(b.table, me, TurnInput, k)
  }

  // ----- Nothing waiting: everything comes after the prompt -----

  ghost predicate NotBefore(p: Key, xs: seq<Item>) {
    forall i :: 0 <= i < |xs| && xs[i].key.session == p.session ==> xs[i].key.num >= p.num
  }

  ghost predicate NonePendingBefore(b: Bus, me: AgentId, p: Key) {
    forall k :: PendingFor(b.table, me, TurnInput, k) && k.session == p.session ==> k.num >= p.num
  }

  /** Once prompt `p` is posted with nothing waiting before it, nothing in hand, fed or pending precedes it. */
  ghost predicate PromptLeads(b: Bus, x: Actor, p: Key) {
    && x.role.Supervisor? && x.role.prompt == Some(p) && InLog(b.log, p)
    && NotBefore(p, x.out) && NotBefore(p, InHand(x.pc)) && NonePendingBefore(b, x.me, p)
  }

  lemma NewComesAfter(b: Bus, b': Bus, me: AgentId, p: Key)
    requires Window(b'.table, b'.log) && Grows(b, b') && InLog(b.log, p) && NonePendingBefore(b, me, p)
    ensures NonePendingBefore(b', me, p)
  {
    forall k | PendingFor(b'.table, me, TurnInput, k) && k.session == p.session ensures k.num >= p.num {
      assert Kept(b'.log, k);
      if InLog(b.log, k) {
        StillPending(b, b', me, k);
      }
    }
  }

  lemma LeadsStay(b: Bus, b': Bus, x: Actor, p: Key)
    requires Window(b'.table, b'.log) && Grows(b, b') && PromptLeads(b, x, p)
    ensures PromptLeads(b', x, p)
  {
    NewComesAfter(b, b', x.me, p);
  }

  lemma NotBeforeTail(p: Key, xs: seq<Item>)
    requires NotBefore(p, xs) && xs != []
    ensures NotBefore(p, xs[1..]) && NotBefore(p, [xs[0]])
  {
  }

  lemma NotBeforeConcat(p: Key, xs: seq<Item>, ys: seq<Item>)
    requires NotBefore(p, xs) && NotBefore(p, ys)
    ensures NotBefore(p, xs + ys)
  {
  }

  lemma OwnStepLeads(b: Bus, x: Actor, e: Event, p: Key)
    requires PcOk(x) && PromptLeads(b, x, p) && CanStep(b, x, e)
    ensures PromptLeads(b, ActorAfter(b, x, e), p)
  {
    match e
    case Fetch(rows) => RowsOf(b, x.me, rows);
    case Write =>
      NotBeforeTail(p, x.pc.rows);
      NotBeforeConcat(p, x.out, [x.pc.rows[0]]);
    case Mark(now) => NotBeforeTail(p, x.pc.rows);
    case NoMark => NotBeforeTail(p, x.pc.rows);
    case _ =>
  }

  lemma StepLeads(s: Sys, a: Action, i: nat, p: Key)
    requires Base(s) && Can(s, a) && i < |s.actors| && PromptLeads(s.bus, s.actors[i], p)
    ensures i < |Do(s, a).actors| && PromptLeads(Do(s, a).bus, Do(s, a).actors[i], p)
  {
    StepGrows(s, a);
    assert Sound(s.bus.log, s.actors[i]);
    if a.Step? && a.i == i {
      OwnStepLeads(s.bus, s.actors[i], a.ev, p);
    }
    LeadsStay(s.bus, Do(s, a).bus, Do(s, a).actors[i], p);
  }

  lemma {:induction false} RunLeads(s: Sys, acts: seq<Action>, i: nat, p: Key)
    requires Base(s) && IsRun(s, acts) && i < |s.actors| && PromptLeads(s.bus, s.actors[i], p)
    ensures i < |Run(s, acts).actors| && PromptLeads(Run(s, acts).bus, Run(s, acts).actors[i], p)
    decreases |acts|
  {
    if acts != [] {
      StepLeads(s, acts[0], i, p);
      BaseStep(s, acts[0]);
      RunLeads(Do(s, acts[0]), acts[1..], i, p);
    }
  }

  lemma PostedLeads(s: Sys, i: nat, msg: Msg)
    requires Base(s) && Can(s, Step(i, PostPrompt(msg))) && !Waiting(s.bus, s.actors[i].me)
    ensures var s1, p := Do(s, Step(i, PostPrompt(msg))), NextKey(s.bus.table, OwnSession(s.actors[i].me));
            PromptLeads(s1.bus, s1.actors[i], p)
  {
    var me := s.actors[i].me;
    var s1, p := Do(s, Step(i, PostPrompt(msg))), NextKey(s.bus.table, OwnSession(me));
    CommitGrows(s.bus, OwnSession(me), msg);
    assert PcOk(s.actors[i]) by {
      assert Sound(s.bus.log, s.actors[i]);
    }
    NonePendingCommitted(s.bus, me, msg);
    hide NonePendingBefore;
  }

  /** With nothing waiting, nothing precedes the prompt once it is committed. */
  lemma NonePendingCommitted(b: Bus, me: AgentId, msg: Msg)
    requires Window(b.table, b.log) && !Waiting(b, me)
    ensures NonePendingBefore(Commit(b, OwnSession(me), msg), me, NextKey(b.table, OwnSession(me)))
  {
    var b', p := Commit(b, OwnSession(me), msg), NextKey(b.table, OwnSession(me));
    CommitGrows(b, OwnSession(me), msg);
    forall k | PendingFor(b'.table, me, TurnInput, k) && k.session == p.session ensures k.num >= p.num {
      assert Kept(b'.log, k);
      if InLog(b.log, k) {
        StillPending(b, b', me, k);
      }
    }
  }

  // ----- The prompt keeps its key -----

  lemma {:induction false} PromptKept(s: Sys, acts: seq<Action>, i: nat, p: Key)
    requires Base(s) && IsRun(s, acts) && IsSupervisor(s, i) && s.actors[i].role.prompt == Some(p)
    ensures IsSupervisor(Run(s, acts), i) && Run(s, acts).actors[i].role.prompt == Some(p) && Run(s, acts).actors[i].me == s.actors[i].me
    ensures LogGrows(s.bus.log, Run(s, acts).bus.log)
    decreases |acts|
  {
    if acts != [] {
      assert Sound(s.bus.log, s.actors[i]);
      StepGrows(s, acts[0]);
      BaseStep(s, acts[0]);
      PromptKept(Do(s, acts[0]), acts[1..], i, p);
    }
  }

  // ----- Main results -----

  lemma LeadingIsInOrder(skipped: set<Key>, x: Actor, p: Key)
    requires x.role.Supervisor? && x.role.prompt == Some(p) && NotBefore(p, x.out) && Ascending(skipped, x.out)
    requires Holds(x.out, p) ==> p in skipped
    ensures InOrder(skipped, StdinKeys(x))
  {
    forall n | 0 <= n < |x.out| && x.out[n].key.session == p.session ensures p.num < x.out[n].key.num || x.out[n].key in skipped {
      assert x.out[n].key == p ==> Holds(x.out, p);
    }
  }

  lemma LeadingMeansInOrder(s: Sys, i: nat, p: Key)
    requires Base(s) && AllTurns(s) && i < |s.actors| && PromptLeads(s.bus, s.actors[i], p)
    ensures InOrder(s.bus.skipped, StdinKeys(s.actors[i]))
  {
    hide InOrder, NoneLeft, SeenInputs, AllAfter, Ascending, NotBefore;
    assert TurnsOk(s.bus, s.actors[i]);
    LeadingIsInOrder(s.bus.skipped, s.actors[i], p);
  }

  /**
   If no turn input waits in the session when the prompt is posted, then in every run, whatever
   readers consume, everything written to the child, the prompt included, comes in order of its
   numbers, except for rows whose mark failed.
   */
  lemma PromptInOrder(s: Sys, before: seq<Action>, i: nat, msg: Msg, more: seq<Action>)
    requires Init(s) && IsRun(s, before) && Can(Run(s, before), Step(i, PostPrompt(msg)))
    requires IsRun(Do(Run(s, before), Step(i, PostPrompt(msg))), more)
    requires !Waiting(Run(s, before).bus, Run(s, before).actors[i].me)
    ensures var e := Run(Do(Run(s, before), Step(i, PostPrompt(msg))), more);
            IsSupervisor(e, i) && InOrder(e.bus.skipped, StdinKeys(e.actors[i]))
  {
    var s0 := Run(s, before);
    var p := NextKey(s0.bus.table, OwnSession(s0.actors[i].me));
    InitTurns(s, before);
    PostedLeads(s0, i, msg);
    BaseStep(s0, Step(i, PostPrompt(msg)));
    TurnsStep(s0, Step(i, PostPrompt(msg)));
    var s1 := Do(s0, Step(i, PostPrompt(msg)));
    RunLeads(s1, more, i, p);
    TurnsRun(s1, more);
    LeadingMeansInOrder(Run(s1, more), i, p);
  }

  lemma LateSpoilsOrder(x: Actor, p: Key, n: nat)
    requires x.role.Supervisor? && x.role.prompt == Some(p) && n < |x.out|
    requires x.out[n].key.session == p.session && x.out[n].key.num < p.num
    ensures !InOrder({}, StdinKeys(x))
  {
    assert StdinKeys(x)[0] == p && StdinKeys(x)[n + 1] == x.out[n].key;
  }

  /** What was waiting is an input known to the last query, as soon as that query knows the prompt. */
  lemma WaitingIsSeen(b: Bus, log: Log, seen: Log, me: AgentId, p: Key, k: Key)
    requires Window(b.table, b.log) && LogGrows(b.log, log) && LogGrows(seen, log) && InLog(seen, p)
    requires PendingFor(b.table, me, TurnInput, k) && k.session == p.session && k.num < p.num
    ensures IsInput(seen, me, k)
  {
    assert Kept(b.log, k);
    assert InLog(b.log, k) && InLog(seen, k);
  }

  /** A waiting input is fed by the first undisturbed drain, after the prompt and with a smaller number. */
  lemma WaitingComesLate(b: Bus, e: Sys, i: nat, p: Key, k: Key)
    requires Whole(e) && IsSupervisor(e, i) && e.actors[i].pc.Free? && Undisturbed(e, i)
    requires e.actors[i].role.prompt == Some(p) && InLog(e.actors[i].role.seen, p)
    requires Window(b.table, b.log) && LogGrows(b.log, e.bus.log)
    requires PendingFor(b.table, e.actors[i].me, TurnInput, k) && k.session == p.session && k.num < p.num
    ensures !InOrder({}, StdinKeys(e.actors[i]))
  {
    hide InOrder, Base, OneEach, AllComplete, Undisturbed, NoneLeft, SeenInputs, AllAfter, Ascending, PromptOnce, LogGrows, Window;
    var x := e.actors[i];
    assert TurnsOk(e.bus, x);
    WaitingIsSeen(b, e.bus.log, x.role.seen, x.me, p, k);
    var item := Item(k, At(x.role.seen, k));
    FedIffLogged(e, i, item);
    var n :| 0 <= n < |x.out| && x.out[n] == item;
    LateSpoilsOrder(x, p, n);
  }

  lemma NoneWaiting(s: Sys, before: seq<Action>, i: nat, msg: Msg, more: seq<Action>)
    requires Init(s) && IsRun(s, before) && Can(Run(s, before), Step(i, PostPrompt(msg)))
    requires IsRun(Do(Run(s, before), Step(i, PostPrompt(msg))), more)
    requires var e := Run(Do(Run(s, before), Step(i, PostPrompt(msg))), more); IsSupervisor(e, i) && Undisturbed(e, i)
    requires !Waiting(Run(s, before).bus, Run(s, before).actors[i].me)
    ensures InOrder({}, StdinKeys(Run(Do(Run(s, before), Step(i, PostPrompt(msg))), more).actors[i]))
  {
    PromptInOrder(s, before, i, msg, more);
  }

  lemma PromptPosted(s: Sys, i: nat, msg: Msg)
    requires Base(s) && Can(s, Step(i, PostPrompt(msg)))
    ensures var s1, me := Do(s, Step(i, PostPrompt(msg))), s.actors[i].me;
            && IsSupervisor(s1, i) && s1.actors[i].role.prompt == Some(NextKey(s.bus.table, OwnSession(me))) && s1.actors[i].me == me
            && LogGrows(s.bus.log, s1.bus.log)
  {
    CommitGrows(s.bus, OwnSession(s.actors[i].me), msg);
  }

  lemma WaitingIsBelow(b: Bus, session: SessionId, me: AgentId, k: Key)
    requires Window(b.table, b.log) && k.session == session && PendingFor(b.table, me, TurnInput, k)
    ensures k.num < NextKey(b.table, session).num
  {
    assert IsTopAmong(b.table.Keys, session, Top(b.table, session));
  }

  lemma LateAfter(b: Bus, s: Sys, i: nat, more: seq<Action>, p: Key, k: Key)
    requires Whole(s) && IsRun(s, more) && IsSupervisor(s, i) && s.actors[i].role.prompt == Some(p)
    requires Window(b.table, b.log) && LogGrows(b.log, s.bus.log)
    requires PendingFor(b.table, s.actors[i].me, TurnInput, k) && k.session == p.session && k.num < p.num
    requires var e := Run(s, more); IsSupervisor(e, i) && e.actors[i].pc.Free? && Undisturbed(e, i) && InLog(e.actors[i].role.seen, p)
    ensures !InOrder({}, StdinKeys(Run(s, more).actors[i]))
  {
    hide InOrder, Undisturbed, AllComplete, AllTurns, OneEach, IsRun, Run, Window, PendingFor, InLog;
    WholeRun(s, more);
    PromptKept(s, more, i, p);
    WaitingComesLate(b, Run(s, more), i, p, k);
  }

  lemma SomeWaiting(s: Sys, i: nat, msg: Msg, more: seq<Action>)
    requires Whole(s) && Can(s, Step(i, PostPrompt(msg))) && IsRun(Do(s, Step(i, PostPrompt(msg))), more) && Waiting(s.bus, s.actors[i].me)
    requires var e := Run(Do(s, Step(i, PostPrompt(msg))), more);
             IsSupervisor(e, i) && e.actors[i].pc.Free? && Undisturbed(e, i)
             && e.actors[i].role.prompt.Some? && InLog(e.actors[i].role.seen, e.actors[i].role.prompt.value)
    ensures !InOrder({}, StdinKeys(Run(Do(s, Step(i, PostPrompt(msg))), more).actors[i]))
  {
    var s1, me := Do(s, Step(i, PostPrompt(msg))), s.actors[i].me;
    hide InOrder, Undisturbed, AllComplete, AllTurns, OneEach, IsRun, Run, Do, Can, Window, PendingFor, InLog;
    var p := NextKey(s.bus.table, OwnSession(me));
    WholeStep(s, Step(i, PostPrompt(msg)));
    PromptPosted(s, i, msg);
    PromptKept(s1, more, i, p);
    var k: Key :| k.session == OwnSession(me) && PendingFor(s.bus.table, me, TurnInput, k);
    WaitingIsBelow(s.bus, OwnSession(me), me, k);
    LateAfter(s.bus, s1, i, more, p, k);
  }

  /**
   Exactly when the prompt spoils the order: in an undisturbed run, once the supervisor has drained
   since posting the prompt, everything written to the child came in order of its numbers iff no
   turn input waited in the session when the prompt was posted.
   */
  lemma InOrderIffNoneWaiting(s: Sys, before: seq<Action>, i: nat, msg: Msg, more: seq<Action>)
    requires Init(s) && IsRun(s, before) && Can(Run(s, before), Step(i, PostPrompt(msg)))
    requires IsRun(Do(Run(s, before), Step(i, PostPrompt(msg))), more)
    requires var e := Run(Do(Run(s, before), Step(i, PostPrompt(msg))), more);
             IsSupervisor(e, i) && e.actors[i].pc.Free? && Undisturbed(e, i)
             && e.actors[i].role.prompt.Some? && InLog(e.actors[i].role.seen, e.actors[i].role.prompt.value)
    ensures var e := Run(Do(Run(s, before), Step(i, PostPrompt(msg))), more);
            InOrder({}, StdinKeys(e.actors[i])) <==> !Waiting(Run(s, before).bus, Run(s, before).actors[i].me)
  {
    hide InOrder, Whole, Waiting, Undisturbed;
    if !Waiting(Run(s, before).bus, Run(s, before).actors[i].me) {
      NoneWaiting(s, before, i, msg, more);
    } else {
      InitWhole(s, before);
      SomeWaiting(Run(s, before), i, msg, more);
    }
  }

  // ----- The failing run -----

  /** A turn input posted while `start` is still on its way to post the prompt. */
  function LatePrompt(me: AgentId, early: Msg, prompt: Msg, now: nat): seq<Action> {
    [Start(me, true)] + ([Action.Post(OwnSession(me), early)] + ([Step(0, PostPrompt(prompt))] + ([Step(0, MarkPrompt(now))]
    + ([Step(0, Fetch([Item(Key(OwnSession(me), 1), early)]))] + ([Step(0, Write)] + [])))))
  }

  /** The bus after the early input, and after the prompt. */
  function EarlyBus(me: AgentId, early: Msg): Bus {
    var k := Key(OwnSession(me), 1);
    Bus(map[k := Row(early, None)], map[OwnSession(me) := [early]], {k}, [], {})
  }

  function PromptBus(me: AgentId, early: Msg, prompt: Msg, consumed: Option<nat>): Bus {
    var k, p := Key(OwnSession(me), 1), Key(OwnSession(me), 2);
    Bus(map[k := Row(early, None), p := Row(prompt, consumed)], map[OwnSession(me) := [early, prompt]], {k, p}, [], {})
  }

  lemma EarlyCommit(me: AgentId, early: Msg)
    ensures Commit(Bus(map[], map[], {}, [], {}), OwnSession(me), early) == EarlyBus(me, early)
  {
    TopIsCount(map[], map[], OwnSession(me));
    assert Enqueue(map[], OwnSession(me), early) == EarlyBus(me, early).table;
    assert [] + [early] == [early];
  }

  lemma PromptCommit(me: AgentId, early: Msg, prompt: Msg)
    ensures NextKey(EarlyBus(me, early).table, OwnSession(me)) == Key(OwnSession(me), 2)
    ensures Commit(EarlyBus(me, early), OwnSession(me), prompt) == PromptBus(me, early, prompt, None)
  {
    var b := EarlyBus(me, early);
    TopIsCount(b.table, b.log, OwnSession(me));
    assert Enqueue(b.table, OwnSession(me), prompt) == PromptBus(me, early, prompt, None).table;
    assert [early] + [prompt] == [early, prompt];
    assert b.unsent + {Key(OwnSession(me), 2)} == PromptBus(me, early, prompt, None).unsent;
  }

  lemma EarlyIsPending(me: AgentId, early: Msg, prompt: Msg, now: nat)
    requires early.to == me.name && early.kind == TurnInput
    ensures var t := PromptBus(me, early, prompt, Some(now)).table;
            IsSelection(t, PendingKeys(t, me, TurnInput), false, None, [Item(Key(OwnSession(me), 1), early)])
  {
    var t, rows := PromptBus(me, early, prompt, Some(now)).table, [Item(Key(OwnSession(me), 1), early)];
    assert PendingKeys(t, me, TurnInput) == {Key(OwnSession(me), 1)};
    assert Holds(rows, rows[0].key);
  }

  /** The states of the failing run. */
  function Started(me: AgentId): Sys {
    Sys(Bus(map[], map[], {}, [], {}), [NewSupervisor(me, true)])
  }

  function Drained(me: AgentId, early: Msg, prompt: Msg, now: nat, pc: Pc, out: seq<Item>, seen: Log): Sys {
    Sys(PromptBus(me, early, prompt, Some(now)), [Actor(me, Supervisor(Some(Key(OwnSession(me), 2)), seen), pc, out)])
  }

  lemma LatePromptDrains(me: AgentId, early: Msg, prompt: Msg, now: nat)
    requires early.to == me.name && early.kind == TurnInput
    ensures var rows, seen := [Item(Key(OwnSession(me), 1), early)], PromptBus(me, early, prompt, Some(now)).log;
            var s, acts := Drained(me, early, prompt, now, Free, [], map[]), [Step(0, Fetch(rows))] + ([Step(0, Write)] + []);
            IsRun(s, acts) && Run(s, acts) == Drained(me, early, prompt, now, Handed(rows), rows, seen)
  {
    var rows, seen := [Item(Key(OwnSession(me), 1), early)], PromptBus(me, early, prompt, Some(now)).log;
    var s := Drained(me, early, prompt, now, Free, [], map[]);
    var s1 := Drained(me, early, prompt, now, Working(rows), [], seen);
    EarlyIsPending(me, early, prompt, now);
    assert Do(s, Step(0, Fetch(rows))) == s1;
    assert [] + [rows[0]] == rows;
    assert Do(s1, Step(0, Write)) == Drained(me, early, prompt, now, Handed(rows), rows, seen);
    RunCons(s1, Step(0, Write), []);
    RunCons(s, Step(0, Fetch(rows)), [Step(0, Write)] + []);
  }

  lemma LatePromptStarts(me: AgentId, early: Msg, prompt: Msg, now: nat, rest: seq<Action>)
    requires prompt.to == me.name && prompt.kind == TurnInput && IsRun(Drained(me, early, prompt, now, Free, [], map[]), rest)
    ensures var s, acts := Sys(EarlyBus(me, early), [NewSupervisor(me, true)]), [Step(0, PostPrompt(prompt))] + ([Step(0, MarkPrompt(now))] + rest);
            IsRun(s, acts) && Run(s, acts) == Run(Drained(me, early, prompt, now, Free, [], map[]), rest)
  {
    var p := Key(OwnSession(me), 2);
    var s := Sys(EarlyBus(me, early), [NewSupervisor(me, true)]);
    var s1 := Sys(PromptBus(me, early, prompt, None), [Actor(me, Supervisor(Some(p), map[]), PromptMark(p), [])]);
    PromptCommit(me, early, prompt);
    assert Do(s, Step(0, PostPrompt(prompt))) == s1;
    assert Do(s1, Step(0, MarkPrompt(now))) == Drained(me, early, prompt, now, Free, [], map[]);
    RunCons(s1, Step(0, MarkPrompt(now)), rest);
    RunCons(s, Step(0, PostPrompt(prompt)), [Step(0, MarkPrompt(now))] + rest);
  }

  /**
   The order does fail: a turn input posted before the prompt gets number 1, the prompt number 2,
   and the child is written the prompt first.
   */
  lemma PromptCanComeLate(me: AgentId, early: Msg, prompt: Msg, now: nat)
    requires early.to == me.name && early.kind == TurnInput && prompt.to == me.name && prompt.kind == TurnInput
    ensures var s := Sys(Bus(map[], map[], {}, [], {}), []);
            && Init(s) && IsRun(s, LatePrompt(me, early, prompt, now))
            && var e := Run(s, LatePrompt(me, early, prompt, now));
               && IsSupervisor(e, 0) && e.bus.skipped == {}
               && StdinKeys(e.actors[0]) == [Key(OwnSession(me), 2), Key(OwnSession(me), 1)]
  {
    var k, p := Key(OwnSession(me), 1), Key(OwnSession(me), 2);
    var drain := [Step(0, Fetch([Item(k, early)]))] + ([Step(0, Write)] + []);
    var start := [Step(0, PostPrompt(prompt))] + ([Step(0, MarkPrompt(now))] + drain);
    var s := Sys(Bus(map[], map[], {}, [], {}), []);
    LatePromptDrains(me, early, prompt, now);
    LatePromptStarts(me, early, prompt, now, drain);
    EarlyCommit(me, early);
    assert Do(Started(me), Action.Post(OwnSession(me), early)) == Sys(EarlyBus(me, early), [NewSupervisor(me, true)]);
    RunCons(Started(me), Action.Post(OwnSession(me), early), start);
    assert Do(s, Start(me, true)) == Started(me);
    RunCons(s, Start(me, true), [Action.Post(OwnSession(me), early)] + start);
    assert StdinKeys(Run(s, LatePrompt(me, early, prompt, now)).actors[0]) == [p, k];
  }
}
