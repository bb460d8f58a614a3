/**
 What a supervisor feeds its child: turn inputs in order, once, and all of them, whatever
 happens to the broadcasts (`drain_turn_inputs`, crates/wt-daemon/src/supervisor.rs).
 */
module BusTurns {
  import opened Basics
  import opened BusTable
  import opened BusMachine
  import opened BusFacts

  /** The rows still to be handed out. */
  function Todo(pc: Pc): seq<Item> {
    if pc.Working? then pc.rows else if pc.Handed? && pc.rows != [] then pc.rows[1..] else []
  }

  /** Per session, each comes after all earlier ones, unless a mark of it failed. */
  ghost predicate Ascending(skipped: set<Key>, xs: seq<Item>) {
    forall i, j :: 0 <= i < j < |xs| && xs[i].key.session == xs[j].key.session ==>
      xs[i].key.num < xs[j].key.num || xs[j].key in skipped
  }

  ghost predicate AllAfter(skipped: set<Key>, xs: seq<Item>, ys: seq<Item>) {
    forall i, j :: 0 <= i < |xs| && 0 <= j < |ys| && xs[i].key.session == ys[j].key.session ==>
      xs[i].key.num < ys[j].key.num || ys[j].key in skipped
  }

  ghost predicate SeenInputs(seen: Log, xs: seq<Item>) {
    forall i :: 0 <= i < |xs| ==> InLog(seen, xs[i].key) && xs[i].msg.kind == TurnInput
  }

  /** Every turn input known to the last query is in hand, no longer pending, or failed to be marked. */
  ghost predicate NoneLeft(b: Bus, me: AgentId, seen: Log, rows: seq<Item>) {
    forall k :: InLog(seen, k) && PendingFor(b.table, me, TurnInput, k) ==> Holds(rows, k) || k in b.skipped
  }

  ghost predicate PromptDone(b: Bus, me: AgentId, p: Key) {
    !PendingFor(b.table, me, TurnInput, p) || p in b.skipped
  }

  ghost predicate PromptOnce(b: Bus, x: Actor)
    requires x.role.Supervisor?
  {
    x.role.prompt.Some? ==>
      && (!x.pc.PromptMark? && !x.pc.Gone? ==> PromptDone(b, x.me, x.role.prompt.value))
      && (Holds(x.out, x.role.prompt.value) || Holds(InHand(x.pc), x.role.prompt.value) ==> x.role.prompt.value in b.skipped)
  }

  ghost predicate Turns(b: Bus, x: Actor)
    requires x.role.Supervisor?
  {
    var seen, rows := x.role.seen, InHand(x.pc);
    && LogGrows(seen, b.log) && SeenInputs(seen, x.out) && SeenInputs(seen, rows)
    && Ascending(b.skipped, x.out) && Ascending({}, rows) && AllAfter(b.skipped, x.out, Todo(x.pc))
    && (!x.pc.Gone? ==> NoneLeft(b, x.me, seen, rows))
    && (x.pc.PromptDue? || x.pc.PromptMark? ==> seen == map[])
    && PromptOnce(b, x)
  }

  ghost predicate TurnsOk(b: Bus, x: Actor) {
    x.role.Supervisor? ==> Turns(b, x)
  }

  // ----- The steps of others -----

  lemma StillPending(b: Bus, b': Bus, me: AgentId, k: Key)
    requires Grows(b, b') && InLog(b.log, k) && PendingFor(b'.table, me, TurnInput, k)
    ensures PendingFor(b.table, me, TurnInput, k)
  {
  }

  lemma NoneLeftStays(b: Bus, b': Bus, me: AgentId, seen: Log, rows: seq<Item>)
    requires Grows(b, b') && LogGrows(seen, b.log) && NoneLeft(b, me, seen, rows)
    ensures NoneLeft(b', me, seen, rows)
  {
    forall k | InLog(seen, k) && PendingFor(b'.table, me, TurnInput, k) ensures Holds(rows, k) || k in b'.skipped {
      StillPending(b, b', me, k);
    }
  }

  lemma PromptStays(b: Bus, b': Bus, x: Actor)
    requires Grows(b, b') && Sound(b.log, x) && x.role.Supervisor? && PromptOnce(b, x)
    ensures PromptOnce(b', x)
  {
    if x.role.prompt.Some? && PendingFor(b'.table, x.me, TurnInput, x.role.prompt.value) {
      StillPending(b, b', x.me, x.role.prompt.value);
    }
  }

  lemma TurnsStay(b: Bus, b': Bus, x: Actor)
    requires Grows(b, b') && Sound(b.log, x) && x.role.Supervisor? && Turns(b, x)
    ensures Turns(b', x)
  {
    PromptStays(b, b', x);
    if !x.pc.Gone? {
      NoneLeftStays(b, b', x.me, x.role.seen, InHand(x.pc));
    }
  }

  // ----- The supervisor's own steps -----

  lemma RowsOf(b: Bus, me: AgentId, rows: seq<Item>)
    requires IsSelection(b.table, PendingKeys(b.table, me, TurnInput), false, None, rows)
    ensures forall i :: 0 <= i < |rows| ==> PendingFor(b.table, me, TurnInput, rows[i].key) && rows[i].msg.kind == TurnInput
    ensures forall k :: PendingFor(b.table, me, TurnInput, k) <==> Holds(rows, k)
    ensures Ascending({}, rows)
  {
    forall k | PendingFor(b.table, me, TurnInput, k) ensures Holds(rows, k) {
      assert k in PendingKeys(b.table, me, TurnInput);
    }
    forall i, j | 0 <= i < j < |rows| && rows[i].key.session == rows[j].key.session ensures rows[i].key.num < rows[j].key.num {
      assert Before(false, rows[i], rows[j]) && rows[i].key != rows[j].key;
    }
  }

  /** What a query finds comes after everything fed before: it is new since the last query, or a mark failed. */
  lemma FetchedComesAfter(b: Bus, x: Actor, rows: seq<Item>)
    requires Window(b.table, b.log) && x.role.Supervisor? && Turns(b, x) && CanStep(b, x, Fetch(rows))
    ensures AllAfter(b.skipped, x.out, rows)
  {
    RowsOf(b, x.me, rows);
    forall i, j | 0 <= i < |x.out| && 0 <= j < |rows| && x.out[i].key.session == rows[j].key.session
      ensures x.out[i].key.num < rows[j].key.num || rows[j].key in b.skipped
    {
      assert InLog(x.role.seen, x.out[i].key);
      if !InLog(x.role.seen, rows[j].key) {
        assert Kept(b.log, rows[j].key);
      } else {
        assert PendingFor(b.table, x.me, TurnInput, rows[j].key) && !Holds([], rows[j].key);
      }
    }
  }

  lemma FetchPrompt(b: Bus, x: Actor, rows: seq<Item>)
    requires x.role.Supervisor? && PromptOnce(b, x) && CanStep(b, x, Fetch(rows))
    ensures PromptOnce(b, ActorAfter(b, x, Fetch(rows)))
  {
    RowsOf(b, x.me, rows);
    if x.role.prompt.Some? && Holds(rows, x.role.prompt.value) {
      assert PendingFor(b.table, x.me, TurnInput, x.role.prompt.value);
    }
  }

  lemma FetchTurns(b: Bus, x: Actor, rows: seq<Item>)
    requires Window(b.table, b.log) && x.role.Supervisor? && Turns(b, x) && CanStep(b, x, Fetch(rows))
    ensures Turns(b, ActorAfter(b, x, Fetch(rows)))
  {
    RowsOf(b, x.me, rows);
    FetchedComesAfter(b, x, rows);
    forall i | 0 <= i < |rows| ensures InLog(b.log, rows[i].key) {
      assert Kept(b.log, rows[i].key);
    }
    FetchPrompt(b, x, rows);
  }

  lemma HoldsSnoc(xs: seq<Item>, y: Item, k: Key)
    ensures Holds(xs + [y], k) <==> Holds(xs, k) || y.key == k
  {
    if Holds(xs, k) {
      var i :| 0 <= i < |xs| && xs[i].key == k;
      assert (xs + [y])[i].key == k;
    }
    assert (xs + [y])[|xs|] == y;
  }

  lemma HoldsCons(xs: seq<Item>, k: Key)
    requires xs != []
    ensures Holds(xs, k) <==> xs[0].key == k || Holds(xs[1..], k)
  {
    if Holds(xs, k) && xs[0].key != k {
      var i :| 0 <= i < |xs| && xs[i].key == k;
      assert xs[1..][i - 1].key == k;
    }
    if Holds(xs[1..], k) {
      var i :| 0 <= i < |xs[1..]| && xs[1..][i].key == k;
      assert xs[i + 1].key == k;
    }
  }

  /** The first row that is still to be fed comes after what was fed and before the rest. */
  lemma FeedFirst(skipped: set<Key>, seen: Log, out: seq<Item>, rows: seq<Item>)
    requires rows != [] && SeenInputs(seen, out) && SeenInputs(seen, rows)
    requires Ascending(skipped, out) && Ascending({}, rows) && AllAfter(skipped, out, rows)
    ensures SeenInputs(seen, out + [rows[0]]) && Ascending(skipped, out + [rows[0]]) && AllAfter(skipped, out + [rows[0]], rows[1..])
  {
  }

  lemma RestOf(seen: Log, rows: seq<Item>)
    requires rows != [] && SeenInputs(seen, rows) && Ascending({}, rows)
    ensures SeenInputs(seen, rows[1..]) && Ascending({}, rows[1..])
  {
  }

  lemma WritePromptOnce(b: Bus, x: Actor)
    requires x.role.Supervisor? && PromptOnce(b, x) && CanStep(b, x, Write)
    ensures PromptOnce(b, ActorAfter(b, x, Write))
  {
    hide Holds, PromptDone;
    if x.role.prompt.Some? {
      HoldsSnoc(x.out, x.pc.rows[0], x.role.prompt.value);
      HoldsCons(x.pc.rows, x.role.prompt.value);
    }
  }

  lemma WriteTurns(b: Bus, x: Actor)
    requires x.role.Supervisor? && Turns(b, x) && CanStep(b, x, Write)
    ensures Turns(b, ActorAfter(b, x, Write))
  {
    FeedFirst(b.skipped, x.role.seen, x.out, x.pc.rows);
    WritePromptOnce(b, x);
    hide SeenInputs, Ascending, AllAfter, NoneLeft, LogGrows, PromptOnce;
  }

  lemma NextNoneLeft(b: Bus, me: AgentId, seen: Log, rows: seq<Item>)
    requires rows != [] && NoneLeft(b, me, seen, rows)
    requires !PendingFor(b.table, me, TurnInput, rows[0].key) || rows[0].key in b.skipped
    ensures NoneLeft(b, me, seen, rows[1..])
  {
    forall k | InLog(seen, k) && PendingFor(b.table, me, TurnInput, k) ensures Holds(rows[1..], k) || k in b.skipped {
      HoldsCons(rows, k);
    }
  }

  /** Moving on to the next row, the first being consumed, trimmed or skipped. */
  lemma NextTurns(b: Bus, b': Bus, x: Actor)
    requires Grows(b, b') && Sound(b.log, x) && x.role.Supervisor? && x.pc.Handed? && x.pc.rows != [] && Turns(b, x)
    requires !PendingFor(b'.table, x.me, TurnInput, x.pc.rows[0].key) || x.pc.rows[0].key in b'.skipped
    ensures Turns(b', x.(pc := Carry(x.pc.rows[1..])))
  {
    TurnsStay(b, b', x);
    NextNoneLeft(b', x.me, x.role.seen, x.pc.rows);
    RestOf(x.role.seen, x.pc.rows);
    hide Grows, Sound, SeenInputs, Ascending, AllAfter, NoneLeft, PendingFor, LogGrows;
    if x.role.prompt.Some? {
      HoldsCons(x.pc.rows, x.role.prompt.value);
    }
  }

  lemma PromptTurns(b: Bus, b': Bus, x: Actor)
    requires Grows(b, b') && Sound(b.log, x) && x.role.Supervisor? && Turns(b, x) && (x.pc.PromptDue? || x.pc.PromptMark?)
    requires x.pc.PromptMark? ==> PromptDone(b', x.me, x.pc.key)
    ensures Turns(b', x.(pc := Free))
  {
    TurnsStay(b, b', x);
  }

  lemma PostPromptTurns(b: Bus, x: Actor, msg: Msg)
    requires Window(b.table, b.log) && Sound(b.log, x) && x.role.Supervisor? && Turns(b, x) && CanStep(b, x, PostPrompt(msg))
    ensures Turns(BusAfter(b, x, PostPrompt(msg)), ActorAfter(b, x, PostPrompt(msg)))
  {
    CommitGrows(b, OwnSession(x.me), msg);
    TurnsStay(b, BusAfter(b, x, PostPrompt(msg)), x);
  }

  lemma EventTurns(b: Bus, x: Actor, e: Event)
    requires Window(b.table, b.log) && Sound(b.log, x) && x.role.Supervisor? && Turns(b, x) && CanStep(b, x, e)
    ensures Turns(BusAfter(b, x, e), ActorAfter(b, x, e))
  {
    BusStepGrows(b, x, e);
    var b' := BusAfter(b, x, e);
    match e
    case PostPrompt(msg) => PostPromptTurns(b, x, msg);
    case PromptLost => PromptTurns(b, b', x);
    case MarkPrompt(now) => PromptTurns(b, b', x);
    case PromptUnmarked => PromptTurns(b, b', x);
    case Fetch(rows) => FetchTurns(b, x, rows);
    case Write => WriteTurns(b, x);
    case Mark(now) => NextTurns(b, b', x);
    case NoMark => NextTurns(b, b', x);
    case Leave =>
    case _ =>
  }

  ghost predicate AllTurns(s: Sys) {
    forall i :: 0 <= i < |s.actors| ==> TurnsOk(s.bus, s.actors[i])
  }

  lemma LeaveTurns(b: Bus, x: Actor)
    requires x.role.Supervisor? && Turns(b, x)
    ensures Turns(b, x.(pc := Gone))
  {
  }

  lemma StepTurns(s: Sys, a: Action, j: nat)
    requires Base(s) && AllTurns(s) && Can(s, a) && j < |Do(s, a).actors|
    ensures TurnsOk(Do(s, a).bus, Do(s, a).actors[j])
  {
    StepGrows(s, a);
    hide Turns, Sound, Grows, Window;
    if j < |s.actors| && s.actors[j].role.Supervisor? {
      assert TurnsOk(s.bus, s.actors[j]) && Sound(s.bus.log, s.actors[j]);
      if a.Step? && j == a.i {
        EventTurns(s.bus, s.actors[j], a.ev);
      } else {
        TurnsStay(s.bus, Do(s, a).bus, s.actors[j]);
        LeaveTurns(Do(s, a).bus, s.actors[j]);
      }
    }
  }

  lemma TurnsStep(s: Sys, a: Action)
    requires Base(s) && AllTurns(s) && Can(s, a)
    ensures AllTurns(Do(s, a))
  {
    forall j | 0 <= j < |Do(s, a).actors| ensures TurnsOk(Do(s, a).bus, Do(s, a).actors[j]) {
      StepTurns(s, a, j);
    }
  }

  lemma {:induction false} TurnsRun(s: Sys, acts: seq<Action>)
    requires Base(s) && AllTurns(s) && IsRun(s, acts)
    ensures Base(Run(s, acts)) && AllTurns(Run(s, acts))
    decreases |acts|
  {
    if acts != [] {
      BaseStep(s, acts[0]);
      TurnsStep(s, acts[0]);
      TurnsRun(Do(s, acts[0]), acts[1..]);
    }
  }

  lemma InitTurns(s: Sys, acts: seq<Action>)
    requires Init(s) && IsRun(s, acts)
    ensures Base(Run(s, acts)) && AllTurns(Run(s, acts))
  {
    TurnsRun(s, acts);
  }

  // ----- Main results: order and at most once -----

  /**
   In every run, whatever readers consume and however many sessions a supervisor's rows come
   from, the numbers it feeds are strictly increasing in each session, except for rows whose mark
   failed; and its prompt is fed by the drain only if marking the prompt failed.
   */
  lemma TurnsInOrder(s: Sys, acts: seq<Action>, i: nat, a: nat, b: nat)
    requires Init(s) && IsRun(s, acts) && IsSupervisor(Run(s, acts), i)
    requires var out := Run(s, acts).actors[i].out; a < b < |out| && out[a].key.session == out[b].key.session
    ensures var x := Run(s, acts).actors[i];
            && x.out[b].msg.kind == TurnInput
            && (x.out[a].key.num < x.out[b].key.num || x.out[b].key in Run(s, acts).bus.skipped)
            && (x.role.prompt == Some(x.out[b].key) ==> x.out[b].key in Run(s, acts).bus.skipped)
  {
    InitTurns(s, acts);
    assert TurnsOk(Run(s, acts).bus, Run(s, acts).actors[i]);
    assert Holds(Run(s, acts).actors[i].out, Run(s, acts).actors[i].out[b].key);
  }

  /** When every mark succeeds, no turn input is fed twice, by any supervisor, and no prompt is fed at all. */
  lemma FedAtMostOnce(s: Sys, acts: seq<Action>, i: nat, a: nat, j: nat, b: nat)
    requires Init(s) && IsRun(s, acts) && Run(s, acts).bus.skipped == {}
    requires IsSupervisor(Run(s, acts), i) && IsSupervisor(Run(s, acts), j)
    requires a < |Run(s, acts).actors[i].out| && b < |Run(s, acts).actors[j].out|
    requires Run(s, acts).actors[i].out[a].key == Run(s, acts).actors[j].out[b].key
    ensures i == j && a == b && Run(s, acts).actors[i].role.prompt != Some(Run(s, acts).actors[i].out[a].key)
  {
    var e := Run(s, acts);
    InitTurns(s, acts);
    OneSupervisorEach(s, acts);
    assert Sound(e.bus.log, e.actors[i]) && Sound(e.bus.log, e.actors[j]);
    assert Mine(e.bus.log, e.actors[i].me, e.actors[i].out[a]) && Mine(e.bus.log, e.actors[j].me, e.actors[j].out[b]);
    assert TurnsOk(e.bus, e.actors[i]);
    assert Holds(e.actors[i].out, e.actors[i].out[a].key);
  }

  /** A query hands a fed row out again exactly if its mark failed and nobody consumed or trimmed it since. */
  lemma RefedIffUnmarked(s: Sys, acts: seq<Action>, i: nat, rows: seq<Item>, k: Key)
    requires Init(s) && IsRun(s, acts) && Can(Run(s, acts), Step(i, Fetch(rows)))
    requires Holds(Run(s, acts).actors[i].out, k)
    ensures Holds(rows, k) <==> k in Run(s, acts).bus.skipped && PendingFor(Run(s, acts).bus.table, Run(s, acts).actors[i].me, TurnInput, k)
  {
    var e := Run(s, acts);
    InitTurns(s, acts);
    RowsOf(e.bus, e.actors[i].me, rows);
    assert TurnsOk(e.bus, e.actors[i]);
    var n :| 0 <= n < |e.actors[i].out| && e.actors[i].out[n].key == k;
    assert InLog(e.actors[i].role.seen, k) && !Holds(InHand(e.actors[i].pc), k);
  }

  // ----- One supervisor per agent -----

  predicate OneEach(actors: seq<Actor>) {
    forall i, j :: 0 <= i < j < |actors| && actors[i].role.Supervisor? && actors[j].role.Supervisor? ==> actors[i].me != actors[j].me
  }

  lemma {:induction false} OneEachRun(s: Sys, acts: seq<Action>)
    requires OneEach(s.actors) && IsRun(s, acts)
    ensures OneEach(Run(s, acts).actors)
    decreases |acts|
  {
    if acts != [] {
      OneEachRun(Do(s, acts[0]), acts[1..]);
    }
  }

  lemma OneSupervisorEach(s: Sys, acts: seq<Action>)
    requires Init(s) && IsRun(s, acts)
    ensures OneEach(Run(s, acts).actors)
  {
    OneEachRun(s, acts);
  }
}
