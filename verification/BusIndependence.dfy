/**
 Broadcasts are only wakeups: whenever the queries happen, a supervisor that has finished a drain
 has fed exactly the turn inputs of the log, in order.
 */
module BusIndependence {
  import opened Basics
  import opened BusTable
  import opened BusMachine
  import opened BusFacts
  import opened BusTurns

  /** The key holds a turn input for `me`. */
  predicate IsInput(log: Log, me: AgentId, k: Key) {
    InLog(log, k) && k.session.group == me.group && At(log, k).to == me.name && At(log, k).kind == TurnInput
  }

  predicate TakenByReader(actors: seq<Actor>, me: AgentId, k: Key) {
    exists j :: 0 <= j < |actors| && actors[j].me == me && actors[j].role.Reader? && GaveOut(actors[j], k)
  }

  predicate Excused(t: Table, actors: seq<Actor>, x: Actor, k: Key)
    requires x.role.Supervisor?
  {
    x.role.prompt == Some(k) || k !in t || TakenByReader(actors, x.me, k)
  }

  /** Every turn input known to the last query was fed or is about to be, unless trimmed, the prompt, or taken by a reader. */
  ghost predicate Complete(t: Table, actors: seq<Actor>, x: Actor)
    requires x.role.Supervisor?
  {
    forall k :: IsInput(x.role.seen, x.me, k) ==> Holds(x.out, k) || Holds(Todo(x.pc), k) || Excused(t, actors, x, k)
  }

  ghost predicate AllComplete(s: Sys) {
    forall i :: 0 <= i < |s.actors| && s.actors[i].role.Supervisor? && !s.actors[i].pc.Gone? ==>
      Complete(s.bus.table, s.actors, s.actors[i])
  }

  lemma ActorsStay(s: Sys, a: Action)
    requires Can(s, a)
    ensures |Do(s, a).actors| >= |s.actors|
    ensures forall j :: 0 <= j < |s.actors| ==>
      Do(s, a).actors[j].me == s.actors[j].me && (s.actors[j].role.Reader? ==> Do(s, a).actors[j].role.Reader?)
  {
  }

  lemma TakenStays(s: Sys, a: Action, me: AgentId, k: Key)
    requires Base(s) && Can(s, a) && TakenByReader(s.actors, me, k)
    ensures TakenByReader(Do(s, a).actors, me, k)
  {
    hide Base, Can, Do, GaveOut;
    StepKeepsGiving(s, a);
    ActorsStay(s, a);
    var j: nat :| 0 <= j < |s.actors| && s.actors[j].me == me && s.actors[j].role.Reader? && GaveOut(s.actors[j], k);
    assert GaveOut(Do(s, a).actors[j], k) && Do(s, a).actors[j].role.Reader?;
  }

  lemma ExcuseStays(s: Sys, a: Action, x: Actor, k: Key)
    requires Base(s) && Can(s, a) && x.role.Supervisor? && InLog(s.bus.log, k) && Excused(s.bus.table, s.actors, x, k)
    ensures Excused(Do(s, a).bus.table, Do(s, a).actors, x, k)
  {
    StepGrows(s, a);
    if TakenByReader(s.actors, x.me, k) {
      TakenStays(s, a, x.me, k);
    }
  }

  lemma CompleteStays(s: Sys, a: Action, x: Actor)
    requires Base(s) && Can(s, a) && x.role.Supervisor? && LogGrows(x.role.seen, s.bus.log)
    requires Complete(s.bus.table, s.actors, x)
    ensures Complete(Do(s, a).bus.table, Do(s, a).actors, x)
  {
    forall k | IsInput(x.role.seen, x.me, k) && !Holds(x.out, k) && !Holds(Todo(x.pc), k)
      ensures Excused(Do(s, a).bus.table, Do(s, a).actors, x, k)
    {
      assert InLog(s.bus.log, k);
      ExcuseStays(s, a, x, k);
    }
  }

  /** A consumed turn input was this supervisor's own doing or a reader's. */
  lemma ConsumedIsExplained(s: Sys, i: nat, k: Key)
    requires Base(s) && OneEach(s.actors) && IsSupervisor(s, i)
    requires k in s.bus.table && s.bus.table[k].consumed.Some? && Addressee(k, s.bus.table[k].msg) == s.actors[i].me
    ensures Holds(s.actors[i].out, k) || Excused(s.bus.table, s.actors, s.actors[i], k)
  {
    var me := s.actors[i].me;
    assert HandedOut(s.actors, me, k);
    var j :| 0 <= j < |s.actors| && s.actors[j].me == me && GaveOut(s.actors[j], k);
    if s.actors[j].role.Supervisor? {
      assert j == i;
    } else {
      assert TakenByReader(s.actors, me, k);
    }
  }

  lemma FetchIsComplete(s: Sys, i: nat, rows: seq<Item>)
    requires Base(s) && OneEach(s.actors) && Can(s, Step(i, Fetch(rows)))
    ensures var x := ActorAfter(s.bus, s.actors[i], Fetch(rows)); Complete(s.bus.table, s.actors, x)
  {
    var x := ActorAfter(s.bus, s.actors[i], Fetch(rows));
    RowsOf(s.bus, x.me, rows);
    forall k | IsInput(s.bus.log, x.me, k) && k in s.bus.table && !Holds(rows, k)
      ensures Holds(x.out, k) || Excused(s.bus.table, s.actors, x, k)
    {
      assert Kept(s.bus.log, k);
      ConsumedIsExplained(s, i, k);
    }
  }

  /** No other step of the supervisor forgets a row: a written one moves to what was fed. */
  lemma OwnStepForgetsNothing(b: Bus, x: Actor, e: Event, k: Key)
    requires PcOk(x) && x.role.Supervisor? && CanStep(b, x, e) && !e.Fetch? && !e.Leave?
    requires Holds(x.out, k) || Holds(Todo(x.pc), k)
    ensures var x' := ActorAfter(b, x, e); Holds(x'.out, k) || Holds(Todo(x'.pc), k)
  {
    if e.Write? {
      HoldsSnoc(x.out, x.pc.rows[0], k);
      HoldsCons(x.pc.rows, k);
    }
  }

  lemma OwnStepComplete(s: Sys, i: nat, e: Event)
    requires Base(s) && AllTurns(s) && OneEach(s.actors) && IsSupervisor(s, i) && Can(s, Step(i, e)) && !e.Leave?
    requires Complete(s.bus.table, s.actors, s.actors[i])
    ensures Complete(s.bus.table, s.actors, ActorAfter(s.bus, s.actors[i], e))
  {
    var x := s.actors[i];
    assert TurnsOk(s.bus, x) && Sound(s.bus.log, x);
    if e.Fetch? {
      FetchIsComplete(s, i, e.rows);
    } else {
      forall k | Holds(x.out, k) || Holds(Todo(x.pc), k)
        ensures Holds(ActorAfter(s.bus, x, e).out, k) || Holds(Todo(ActorAfter(s.bus, x, e).pc), k)
      {
        OwnStepForgetsNothing(s.bus, x, e, k);
      }
    }
  }

  lemma StepComplete(s: Sys, a: Action, i: nat)
    requires Base(s) && AllTurns(s) && OneEach(s.actors) && AllComplete(s) && Can(s, a) && IsSupervisor(Do(s, a), i)
    requires !Do(s, a).actors[i].pc.Gone?
    ensures Complete(Do(s, a).bus.table, Do(s, a).actors, Do(s, a).actors[i])
  {
    if i < |s.actors| && !s.actors[i].pc.Gone? {
      var x := Do(s, a).actors[i];
      assert TurnsOk(s.bus, s.actors[i]) && Sound(s.bus.log, s.actors[i]);
      if a.Step? && a.i == i {
        OwnStepComplete(s, i, a.ev);
      }
      CompleteStays(s, a, x);
    }
  }

  ghost predicate Whole(s: Sys) {
    Base(s) && AllTurns(s) && OneEach(s.actors) && AllComplete(s)
  }

  lemma CompleteStep(s: Sys, a: Action)
    requires Whole(s) && Can(s, a)
    ensures AllComplete(Do(s, a))
  {
    var s' := Do(s, a);
    forall i: nat | IsSupervisor(s', i) && !s'.actors[i].pc.Gone? ensures Complete(s'.bus.table, s'.actors, s'.actors[i]) {
      StepComplete(s, a, i);
    }
  }

  lemma OneEachStep(s: Sys, a: Action)
    requires OneEach(s.actors) && Can(s, a)
    ensures OneEach(Do(s, a).actors)
  {
  }

  lemma WholeStep(s: Sys, a: Action)
    requires Whole(s) && Can(s, a)
    ensures Whole(Do(s, a))
  {
    BaseStep(s, a);
    TurnsStep(s, a);
    CompleteStep(s, a);
    OneEachStep(s, a);
  }

  lemma {:induction false} WholeRun(s: Sys, acts: seq<Action>)
    requires Whole(s) && IsRun(s, acts)
    ensures Whole(Run(s, acts))
    decreases |acts|
  {
    if acts != [] {
      WholeStep(s, acts[0]);
      WholeRun(Do(s, acts[0]), acts[1..]);
    }
  }

  lemma InitWhole(s: Sys, acts: seq<Action>)
    requires Init(s) && IsRun(s, acts)
    ensures Whole(Run(s, acts))
  {
    WholeRun(s, acts);
  }

  // ----- The fed sequence is the logged sequence -----

  /** What was fed of one session, in the order it was fed. */
  function InSession(xs: seq<Item>, session: SessionId): seq<Item> {
    if xs == [] then [] else
      var m := |xs| - 1;
      InSession(xs[..m], session) + (if xs[m].key.session == session then [xs[m]] else [])
  }

  /** The turn inputs for `to` among the first messages of a session, in order, without the prompt. */
  function Inputs(session: SessionId, msgs: seq<Msg>, to: string, prompt: Option<Key>): seq<Item> {
    if msgs == [] then [] else
      var m := |msgs| - 1;
      var k := Key(session, |msgs|);
      Inputs(session, msgs[..m], to, prompt)
      + (if msgs[m].to == to && msgs[m].kind == TurnInput && prompt != Some(k) then [Item(k, msgs[m])] else [])
  }

  ghost predicate ByNumber(xs: seq<Item>) {
    forall i, j :: 0 <= i < j < |xs| ==> xs[i].key.num < xs[j].key.num
  }

  lemma SameLast(xs: seq<Item>, ys: seq<Item>)
    requires ByNumber(xs) && ByNumber(ys) && xs != [] && ys != [] && forall x :: x in xs <==> x in ys
    ensures xs[|xs| - 1] == ys[|ys| - 1]
  {
    var x, y := xs[|xs| - 1], ys[|ys| - 1];
    assert x in ys && y in xs;
  }

  lemma AllButLast(xs: seq<Item>, z: Item)
    requires ByNumber(xs) && xs != []
    ensures z in xs[..|xs| - 1] <==> z in xs && z != xs[|xs| - 1]
  {
    assert xs == xs[..|xs| - 1] + [xs[|xs| - 1]];
  }

  lemma SomeMember(ys: seq<Item>)
    ensures ys != [] ==> exists y :: y in ys
  {
    if ys != [] {
      assert ys[0] in ys;
    }
  }

  lemma {:induction false} SameItemsSameOrder(xs: seq<Item>, ys: seq<Item>)
    requires ByNumber(xs) && ByNumber(ys) && forall x :: x in xs <==> x in ys
    ensures xs == ys
    decreases |xs|
  {
    if xs != [] {
      assert xs[0] in ys;
      SameLast(xs, ys);
      var xs', ys' := xs[..|xs| - 1], ys[..|ys| - 1];
      forall z ensures z in xs' <==> z in ys' {
        AllButLast(xs, z);
        AllButLast(ys, z);
      }
      SameItemsSameOrder(xs', ys');
      assert xs == xs' + [xs[|xs| - 1]] && ys == ys' + [ys[|ys| - 1]];
    } else {
      SomeMember(ys);
    }
  }

  lemma {:induction false} InSessionHas(xs: seq<Item>, session: SessionId, x: Item)
    ensures x in InSession(xs, session) <==> x in xs && x.key.session == session
    decreases |xs|
  {
    if xs != [] {
      var m := |xs| - 1;
      assert xs == xs[..m] + [xs[m]];
      InSessionHas(xs[..m], session, x);
    }
  }

  lemma {:induction false} InSessionByNumber(xs: seq<Item>, session: SessionId)
    requires Ascending({}, xs)
    ensures ByNumber(InSession(xs, session))
    decreases |xs|
  {
    if xs != [] {
      var m := |xs| - 1;
      InSessionByNumber(xs[..m], session);
      var before := InSession(xs[..m], session);
      forall i | 0 <= i < |before| && xs[m].key.session == session ensures before[i].key.num < xs[m].key.num {
        InSessionHas(xs[..m], session, before[i]);
      }
    }
  }

  lemma {:induction false} InputsHas(session: SessionId, msgs: seq<Msg>, to: string, prompt: Option<Key>, x: Item)
    ensures x in Inputs(session, msgs, to, prompt) <==>
              && x.key.session == session && 1 <= x.key.num <= |msgs| && x.msg == msgs[x.key.num - 1]
              && x.msg.to == to && x.msg.kind == TurnInput && prompt != Some(x.key)
    decreases |msgs|
  {
    if msgs != [] {
      InputsHas(session, msgs[..|msgs| - 1], to, prompt, x);
    }
  }

  lemma {:induction false} InputsByNumber(session: SessionId, msgs: seq<Msg>, to: string, prompt: Option<Key>)
    ensures ByNumber(Inputs(session, msgs, to, prompt))
    decreases |msgs|
  {
    if msgs != [] {
      var before := msgs[..|msgs| - 1];
      InputsByNumber(session, before, to, prompt);
      forall i | 0 <= i < |Inputs(session, before, to, prompt)| ensures Inputs(session, before, to, prompt)[i].key.num < |msgs| {
        InputsHas(session, before, to, prompt, Inputs(session, before, to, prompt)[i]);
      }
    }
  }

  /** No consuming reader ever was this supervisor's agent, nothing for it was trimmed, and every mark succeeded. */
  ghost predicate Undisturbed(s: Sys, i: nat)
    requires IsSupervisor(s, i)
  {
    && (forall j :: 0 <= j < |s.actors| && s.actors[j].role.Reader? && s.actors[j].role.consume ==> s.actors[j].me != s.actors[i].me)
    && (forall k :: IsInput(s.bus.log, s.actors[i].me, k) ==> k in s.bus.table)
    && s.bus.skipped == {}
  }

  lemma FedIffLogged(s: Sys, i: nat, x: Item)
    requires Whole(s) && IsSupervisor(s, i) && s.actors[i].pc.Free? && Undisturbed(s, i)
    ensures var a := s.actors[i];
            x in a.out <==> IsInput(a.role.seen, a.me, x.key) && x.msg == At(a.role.seen, x.key) && a.role.prompt != Some(x.key)
  {
    var a := s.actors[i];
    hide Whole, Undisturbed, IsInput, InLog, At;
    if x in a.out {
      FedIsLogged(s, i, x);
    }
    if IsInput(a.role.seen, a.me, x.key) && x.msg == At(a.role.seen, x.key) && a.role.prompt != Some(x.key) {
      LoggedIsFed(s, i, x);
    }
  }

  lemma FedIsLogged(s: Sys, i: nat, x: Item)
    requires Whole(s) && IsSupervisor(s, i) && Undisturbed(s, i) && x in s.actors[i].out
    ensures var a := s.actors[i];
            IsInput(a.role.seen, a.me, x.key) && x.msg == At(a.role.seen, x.key) && a.role.prompt != Some(x.key)
  {
    var a := s.actors[i];
    assert TurnsOk(s.bus, a) && Sound(s.bus.log, a);
    hide AllComplete, OneEach, AllTurns, NoneLeft, Ascending, AllAfter;
    var n :| 0 <= n < |a.out| && a.out[n] == x;
    assert Mine(s.bus.log, a.me, a.out[n]) && InLog(a.role.seen, x.key);
    assert Holds(a.out, x.key);
  }

  lemma LoggedIsFed(s: Sys, i: nat, x: Item)
    requires Whole(s) && IsSupervisor(s, i) && s.actors[i].pc.Free? && Undisturbed(s, i)
    requires var a := s.actors[i];
             IsInput(a.role.seen, a.me, x.key) && x.msg == At(a.role.seen, x.key) && a.role.prompt != Some(x.key)
    ensures x in s.actors[i].out
  {
    var a := s.actors[i];
    assert TurnsOk(s.bus, a) && Sound(s.bus.log, a);
    hide OneEach, AllTurns, NoneLeft, Ascending, AllAfter, PromptOnce;
    assert Complete(s.bus.table, s.actors, a) && Todo(a.pc) == [];
    assert IsInput(s.bus.log, a.me, x.key);
    var n :| 0 <= n < |a.out| && a.out[n].key == x.key;
    assert Mine(s.bus.log, a.me, a.out[n]) && a.out[n] == x;
  }

  lemma FedHas(s: Sys, i: nat, session: SessionId, x: Item)
    requires Whole(s) && IsSupervisor(s, i) && s.actors[i].pc.Free? && Undisturbed(s, i) && session.group == s.actors[i].me.group
    ensures var a := s.actors[i];
            x in InSession(a.out, session) <==> x in Inputs(session, Of(a.role.seen, session), a.me.name, a.role.prompt)
  {
    hide Whole, Undisturbed, InSession, Inputs;
    var a := s.actors[i];
    FedIffLogged(s, i, x);
    InSessionHas(a.out, session, x);
    InputsHas(session, Of(a.role.seen, session), a.me.name, a.role.prompt, x);
  }

  lemma FedByNumber(s: Sys, i: nat, session: SessionId)
    requires Whole(s) && IsSupervisor(s, i) && Undisturbed(s, i)
    ensures ByNumber(InSession(s.actors[i].out, session))
  {
    assert TurnsOk(s.bus, s.actors[i]);
    hide InSession, ByNumber;
    InSessionByNumber(s.actors[i].out, session);
  }

  lemma FedEqualsLogged(s: Sys, i: nat, session: SessionId)
    requires Whole(s) && IsSupervisor(s, i) && s.actors[i].pc.Free? && Undisturbed(s, i) && session.group == s.actors[i].me.group
    ensures var a := s.actors[i];
            InSession(a.out, session) == Inputs(session, Of(a.role.seen, session), a.me.name, a.role.prompt)
  {
    hide Whole, Undisturbed, InSession, Inputs, ByNumber;
    var a := s.actors[i];
    var fed, logged := InSession(a.out, session), Inputs(session, Of(a.role.seen, session), a.me.name, a.role.prompt);
    FedByNumber(s, i, session);
    InputsByNumber(session, Of(a.role.seen, session), a.me.name, a.role.prompt);
    forall x ensures x in fed <==> x in logged {
      FedHas(s, i, session, x);
    }
    SameItemsSameOrder(fed, logged);
  }

  // ----- Main result -----

  /**
   Broadcast independence, in every session of the child's group: with no consuming reader of its
   own, nothing trimmed and every mark made, a supervisor between drains has fed exactly the turn
   inputs logged up to its last query, in order, without the prompt, whatever happened to the
   broadcasts and whenever the queries were.
   */
  lemma BroadcastIndependence(s: Sys, acts: seq<Action>, i: nat, session: SessionId)
    requires Init(s) && IsRun(s, acts) && IsSupervisor(Run(s, acts), i)
    requires Run(s, acts).actors[i].pc.Free? && Undisturbed(Run(s, acts), i) && session.group == Run(s, acts).actors[i].me.group
    ensures var a := Run(s, acts).actors[i];
            InSession(a.out, session) == Inputs(session, Of(a.role.seen, session), a.me.name, a.role.prompt)
  {
    InitWhole(s, acts);
    FedEqualsLogged(Run(s, acts), i, session);
  }
}
