/**
 One supervised child: the loop that races its output against wakeups and a timer, feeds it the
 pending turn inputs and reports to its prime (crates/wt-daemon/src/supervisor.rs).
 */
module Supervision {
  import opened Basics
  import opened BusTable
  import opened BusMachine
  import opened BusFacts
  import BusTurns
  import opened BusIndependence
  import opened LocalBus
  import opened Surroundings
  import opened Utterances
  import LineStream
  import Child = HarnessProcess

  // ----- While others act -----

  /** Where the words are on the bus, and that nothing else of the supervisor is. */
  ghost predicate Words(log0: Log, b: Bus, v: Voice, said: seq<Say>, keys: seq<Option<Key>>, outside: seq<Item>, reliable: bool) {
    OnBus(b.log, b.bcast, v, said, keys) && Ledger(log0, b.log, keys, outside) && (reliable ==> AllPosted(keys))
  }

  /** What others have posted once they have had effect `e`. */
  function OutsideAfter(b: Bus, outside: seq<Item>, e: Effect): seq<Item> {
    if e.Posting? then outside + [Item(Key(e.to, |Of(b.log, e.to)| + 1), e.msg)] else outside
  }

  lemma WordsStay(log0: Log, b: Bus, v: Voice, said: seq<Say>, keys: seq<Option<Key>>, outside: seq<Item>, reliable: bool, e: Effect)
    requires Words(log0, b, v, said, keys, outside, reliable) && Window(b.table, b.log)
    ensures Words(log0, Affect(b, e), v, said, keys, OutsideAfter(b, outside, e), reliable)
  {
    AffectGrows(b, e);
    OnBusStays(b.log, Affect(b, e).log, b.bcast, Affect(b, e).bcast, v, said, keys);
    OwnAreLogged(b.log, b.bcast, v, said, keys);
    hide OnBus, Ledger, AllPosted;
    if e.Posting? {
      LedgerOther(log0, b.log, keys, outside, e.to, e.msg);
    }
  }

  lemma WordsStart(b: Bus, v: Voice, reliable: bool)
    ensures Words(b.log, b, v, [], [], [], reliable)
  {
  }

  lemma WordsLost(log0: Log, b: Bus, v: Voice, said: seq<Say>, keys: seq<Option<Key>>, outside: seq<Item>, reliable: bool, s: Say)
    requires Words(log0, b, v, said, keys, outside, reliable) && !reliable
    ensures Words(log0, b, v, said + [s], keys + [None], outside, reliable)
  {
    OnBusLost(b.log, b.bcast, v, said, keys, s);
    LedgerLost(log0, b.log, keys, outside);
  }

  lemma WordsOn(log0: Log, b: Bus, v: Voice, said: seq<Say>, keys: seq<Option<Key>>, outside: seq<Item>, reliable: bool, s: Say, now: nat)
    requires Words(log0, b, v, said, keys, outside, reliable)
    ensures Words(log0, Enqueued(b, OwnSession(v.me), Spoken(v, s, now)), v, said + [s], keys + [Some(NextOwn(b.log, v))], outside, reliable)
  {
    hide OnBus, Ledger, Enqueued, Logged, Spoken, Of;
    OnBusOneMore(b.log, b.bcast, v, said, keys, s, now);
    LedgerOwn(log0, b.log, keys, outside, OwnSession(v.me), Spoken(v, s, now));
    EnqueuedKeeps(b, OwnSession(v.me), Spoken(v, s, now));
  }

  /** Marks change nothing about the words. */
  lemma WordsMarked(log0: Log, b: Bus, b': Bus, v: Voice, said: seq<Say>, keys: seq<Option<Key>>, outside: seq<Item>, reliable: bool)
    requires Words(log0, b, v, said, keys, outside, reliable) && b'.log == b.log && b'.bcast == b.bcast
    ensures Words(log0, b', v, said, keys, outside, reliable)
  {
  }

  /** While the store works, only others have failed to mark anything since `skipped0`. */
  ghost predicate NoneMissed(reliable: bool, skipped0: set<Key>, skipped: set<Key>, script: seq<Outside>, left: nat) {
    left <= |script| && (reliable ==> skipped <= skipped0 + MissedBy(script[..|script| - left]))
  }

  lemma NoneMissedOn(reliable: bool, skipped0: set<Key>, b: Bus, script: seq<Outside>, left: nat)
    requires NoneMissed(reliable, skipped0, b.skipped, script, left) && left > 0
    ensures NoneMissed(reliable, skipped0, Affect(b, script[|script| - left].effect).skipped, script, left - 1)
  {
    var c := |script| - left;
    assert script[..c + 1][c] == script[c];
    forall k | k in MissedBy(script[..c]) ensures k in MissedBy(script[..c + 1]) {
      var i :| 0 <= i < c && script[..c][i].effect.Missing? && script[..c][i].effect.key == k;
      assert script[..c + 1][i] == script[..c][i];
    }
  }

  lemma ConsumedStays(b: Bus, b': Bus, items: seq<Item>)
    requires Grows(b, b') && AllLogged(b.log, items) && AllConsumed(b.table, items)
    ensures AllConsumed(b'.table, items)
  {
  }

  ghost predicate AllLogged(log: Log, items: seq<Item>) {
    forall i :: 0 <= i < |items| ==> InLog(log, items[i].key)
  }

  lemma LoggedStays(b: Bus, b': Bus, items: seq<Item>, n: nat)
    requires Grows(b, b') && AllLogged(b.log, items) && n <= |items|
    ensures AllLogged(b'.log, items) && AllLogged(b'.log, items[..n])
  {
  }

  lemma SelectedAreLogged(b: Bus, keys: set<Key>, rows: seq<Item>)
    requires Window(b.table, b.log) && keys <= b.table.Keys && IsSelection(b.table, keys, false, None, rows)
    ensures AllLogged(b.log, rows)
  {
    forall i | 0 <= i < |rows| ensures InLog(b.log, rows[i].key) {
      assert Kept(b.log, rows[i].key);
    }
  }

  lemma GrowsNot(b: Bus)
    ensures Grows(b, b)
  {
  }

  lemma GrowsOn(a: Bus, b: Bus, c: Bus)
    requires Grows(a, b) && Grows(b, c)
    ensures Grows(a, c)
  {
  }

  lemma {:induction false} LeadsGrows(b: Bus, x: Actor, evs: seq<Event>, b': Bus, x': Actor)
    requires Leads(b, x, evs, b', x') && Window(b.table, b.log)
    ensures Grows(b, b')
    decreases |evs|
  {
    hide Grows, Window, CanStep, BusAfter, ActorAfter;
    if evs == [] {
      GrowsNot(b);
    } else {
      BusStepGrows(b, x, evs[0]);
      LeadsGrows(BusAfter(b, x, evs[0]), ActorAfter(b, x, evs[0]), evs[1..], b', x');
      GrowsOn(b, BusAfter(b, x, evs[0]), b');
    }
  }

  lemma StepLeads(b: Bus, x: Actor, e: Event)
    requires CanStep(b, x, e)
    ensures Leads(b, x, [e], BusAfter(b, x, e), ActorAfter(b, x, e))
  {
    LeadsOn(b, x, [], b, x, e);
    assert [] + [e] == [e];
  }

  /** In the system, what was fed is in order. */
  lemma FedInOrder(start: Sys, acts: seq<Action>, i: nat, b: Bus, actors: seq<Actor>, x: Actor)
    requires Init(start) && Tied(start, acts, i, b, actors, x) && x.role.Supervisor?
    ensures BusTurns.Ascending(b.skipped, x.out)
  {
    forall m, n | 0 <= m < n < |x.out| && x.out[m].key.session == x.out[n].key.session
      ensures x.out[m].key.num < x.out[n].key.num || x.out[n].key in b.skipped
    {
      BusTurns.TurnsInOrder(start, acts, i, m, n);
    }
  }

  // ----- What it feeds -----

  function Texts(lossy: Bytes -> string, items: seq<Item>): (r: seq<string>)
    ensures |r| == |items|
  {
    seq(|items|, i requires 0 <= i < |items| => lossy(items[i].msg.payload))
  }

  /** The child was written, after `base`, exactly the turns of `out`. */
  ghost predicate Fed(stdin: seq<string>, base: seq<string>, lossy: Bytes -> string, out: seq<Item>) {
    stdin == base + Texts(lossy, out)
  }

  /** After `base`, the child's input holds one turn per message of `out`, its payload decoded, in order. */
  ghost predicate FedTexts(stdin: seq<string>, base: seq<string>, lossy: Bytes -> string, out: seq<Item>) {
    && |stdin| == |base| + |out| && base <= stdin
    && forall i :: 0 <= i < |out| ==> stdin[|base| + i] == lossy(out[i].msg.payload)
  }

  lemma FedMeans(stdin: seq<string>, base: seq<string>, lossy: Bytes -> string, out: seq<Item>)
    requires Fed(stdin, base, lossy, out)
    ensures FedTexts(stdin, base, lossy, out)
  {
  }

  lemma FedNothing(stdin: seq<string>, lossy: Bytes -> string)
    ensures Fed(stdin, stdin, lossy, [])
  {
    assert stdin + [] == stdin;
  }

  lemma FeedOne(stdin: seq<string>, base: seq<string>, lossy: Bytes -> string, out: seq<Item>, x: Item)
    requires Fed(stdin, base, lossy, out)
    ensures Fed(stdin + [lossy(x.msg.payload)], base, lossy, out + [x])
  {
    assert Texts(lossy, out + [x]) == Texts(lossy, out) + [lossy(x.msg.payload)];
    ConcatAssoc(base, Texts(lossy, out), [lossy(x.msg.payload)]);
  }

  /**
   The whole account of a supervisor's words: apart from idle notices it said exactly the reports
   of the events `told`, and then `extra`; idle notices are rare, and none without a timeout.
   */
  ghost predicate Accounted(said: seq<Say>, told: seq<Child.Event>, fed: nat, notified: bool, trace: bool, timeout: Option<nat>, extra: seq<Say>) {
    && NotIdle(said) == Reports(told, trace) + extra
    && Notices(said) <= |told| + fed + (if notified then 1 else 0)
    && (timeout.None? ==> Notices(said) == 0)
  }

  lemma AccountEvent(said: seq<Say>, told: seq<Child.Event>, e: Child.Event, fed: nat, notified: bool, trace: bool, timeout: Option<nat>)
    requires Accounted(said, told, fed, notified, trace, timeout, [])
    ensures Accounted(said + Report(e, trace), told + [e], fed, false, trace, timeout, [])
  {
    assert Reports(told, trace) + [] == Reports(told, trace) && Reports(told + [e], trace) + [] == Reports(told + [e], trace);
    ReportOne(said, said + Report(e, trace), told, e, trace);
  }

  lemma AccountNotice(said: seq<Say>, told: seq<Child.Event>, secs: nat, fed: nat, trace: bool, timeout: Option<nat>)
    requires Accounted(said, told, fed, false, trace, timeout, []) && timeout.Some?
    ensures Accounted(said + [SaidIdle(secs)], told, fed, true, trace, timeout, [])
  {
    assert Reports(told, trace) + [] == Reports(told, trace);
    NoticeOne(said, told, secs, trace);
  }

  lemma AccountOpens(trace: bool, timeout: Option<nat>, fed: nat, notified: bool)
    ensures Accounted([], [], fed, notified, trace, timeout, [])
  {
  }

  /** Feeding only makes room for another notice. */
  lemma AccountFed(said: seq<Say>, told: seq<Child.Event>, fed: nat, fed': nat, notified: bool, notified': bool, trace: bool, timeout: Option<nat>)
    requires Accounted(said, told, fed, notified, trace, timeout, []) && fed <= fed'
    requires notified' == notified || fed < fed'
    ensures Accounted(said, told, fed', notified', trace, timeout, [])
  {
  }

  lemma AccountEnd(said: seq<Say>, told: seq<Child.Event>, ending: Ending, fed: nat, notified: bool, trace: bool, timeout: Option<nat>)
    requires Accounted(said, told, fed, notified, trace, timeout, [])
    ensures Accounted(said + [SaidEnd(ending)], told, fed, notified, trace, timeout, [SaidEnd(ending)])
  {
    assert Reports(told, trace) + [] == Reports(told, trace);
    SayOneMore(said, SaidEnd(ending));
  }

  /** `Instant` never runs backwards. */
  ghost predicate ClockRuns(turns: seq<Turn>, start: nat) {
    && (forall i :: 0 <= i < |turns| ==> start <= turns[i].now)
    && (forall i, j :: 0 <= i < j < |turns| ==> turns[i].now <= turns[j].now)
  }

  lemma ClockRunsOn(turns: seq<Turn>, now: nat)
    requires ClockRuns(turns, now)
    ensures forall start: nat :: start <= now ==> ClockRuns(turns, start)
  {
  }

  // ----- The supervisor -----

  /** What wakes the loop when the child has nothing to say. */
  datatype Wakeup = Broadcast | Lagged | Tick | Closed

  /**
   One turn of the loop: whether the event reader was polled before another branch won and how many
   reads it was served, that branch, and the time.
   */
  datatype Turn = Turn(polled: bool, patience: nat, wakeup: Wakeup, now: nat)

  datatype Outcome = GoesOn | Ended(ending: Ending) | BusClosed

  /** Where a supervisor is between two turns of its loop; `left` counts what others will still do. */
  datatype Moment = Moment(bus: Bus, left: nat, out: seq<Item>, seen: Log, told: seq<Child.Event>, served: seq<Bytes>,
                           said: seq<Say>, turnActive: bool, lastActivity: nat, idleNotified: bool)

  /** Time only goes on. */
  ghost predicate Later(a: Moment, b: Moment) {
    Grows(a.bus, b.bus) && b.left <= a.left && a.out <= b.out && a.told <= b.told && a.served <= b.served
  }

  /**
   Between `a` and `b` the pending turn inputs were drained: the last query knew all that was logged by
   `a`; of what was pending then, nothing is, if no call of the store fails; and if others did nothing
   meanwhile, the child was fed all of it.
   */
  ghost predicate InputsDrained(me: AgentId, reliable: bool, a: Moment, b: Moment) {
    && LogGrows(a.bus.log, b.seen)
    && (reliable ==> forall k :: PendingFor(a.bus.table, me, TurnInput, k) ==> !PendingFor(b.bus.table, me, TurnInput, k))
    && (a.left == b.left ==> forall k :: PendingFor(a.bus.table, me, TurnInput, k) ==> Holds(b.out, k))
  }

  /** Feeding anything starts a turn and resets the idle state. */
  predicate FedState(a: Moment, b: Moment, now: nat) {
    if |b.out| > |a.out| then b.turnActive && b.lastActivity == now && !b.idleNotified
    else b.turnActive == a.turnActive && b.lastActivity == a.lastActivity && b.idleNotified == a.idleNotified
  }

  /** The idle check from `a` to `b`: one notice iff a turn has been silent for the timeout and none was given since. */
  predicate IdleChecked(timeout: Option<nat>, tick: bool, a: Moment, b: Moment, now: nat) {
    && b.turnActive == a.turnActive && b.lastActivity == a.lastActivity && b.out == a.out && now >= a.lastActivity
    && if tick && a.turnActive && !a.idleNotified && timeout.Some? && now - a.lastActivity >= timeout.value
       then b.said == a.said + [SaidIdle(now - a.lastActivity)] && b.idleNotified
       else b.said == a.said && b.idleNotified == a.idleNotified
  }

  /** A wakeup drains the pending turn inputs; a tick then checks for idleness. */
  ghost predicate WokenUp(me: AgentId, reliable: bool, timeout: Option<nat>, wakeup: Wakeup, a: Moment, b: Moment, now: nat) {
    && !wakeup.Closed? && InputsDrained(me, reliable, a, b)
    && exists m: Moment :: FedState(a, m, now) && m.said == a.said && IdleChecked(timeout, wakeup.Tick?, m, b, now)
  }

  /** An event was told: it is reported, and ends the turn if it completes it. */
  ghost predicate Reacted(trace: bool, a: Moment, b: Moment, now: nat) {
    && |b.told| == |a.told| + 1 && b.out == a.out
    && b.said == a.said + Report(b.told[|a.told|], trace)
    && b.turnActive == (a.turnActive && !b.told[|a.told|].TurnComplete?) && b.lastActivity == now && !b.idleNotified
  }

  /**
   One turn that goes on: a poll that told the next event, or else a wakeup; and a poll that told nothing
   has told everything printed so far, however many reads it was served.
   */
  ghost predicate Turned(d: Child.Decoder, me: AgentId, reliable: bool, trace: bool, timeout: Option<nat>, t: Turn, a: Moment, b: Moment) {
    && Later(a, b)
    && if b.told != a.told then t.polled && Reacted(trace, a, b, t.now)
       else
         && (t.polled ==> b.told == Child.Events(d, LineStream.Flat(b.served)) && |b.served| == |a.served| + t.patience)
         && WokenUp(me, reliable, timeout, t.wakeup, a, b, t.now)
  }

  /** Every turn taken went as it should. */
  ghost predicate AllTurned(d: Child.Decoder, me: AgentId, reliable: bool, trace: bool, timeout: Option<nat>, turns: seq<Turn>, moments: seq<Moment>) {
    && 0 < |moments| <= |turns| + 1
    && forall i :: 0 <= i < |moments| - 1 ==> Turned(d, me, reliable, trace, timeout, turns[i], moments[i], moments[i + 1])
  }

  lemma WokenUpBy(me: AgentId, reliable: bool, timeout: Option<nat>, wakeup: Wakeup, a: Moment, m: Moment, b: Moment, now: nat)
    requires Window(a.bus.table, a.bus.log) && !wakeup.Closed? && InputsDrained(me, reliable, a, m) && Later(a, m) && Later(m, b) && b.seen == m.seen
    requires FedState(a, m, now) && m.said == a.said && IdleChecked(timeout, wakeup.Tick?, m, b, now)
    ensures WokenUp(me, reliable, timeout, wakeup, a, b, now) && Later(a, b)
  {
    LaterThen(a, m, b);
    GrowsNot(a.bus);
    DrainedThen(me, reliable, a, a, m, b);
  }

  /** What others did before an event is told does not matter to it. */
  lemma TurnedByEvent(d: Child.Decoder, me: AgentId, reliable: bool, trace: bool, timeout: Option<nat>, t: Turn, a0: Moment, a: Moment, b: Moment)
    requires a == a0.(bus := a.bus, left := a.left) && Grows(a0.bus, a.bus) && a.left <= a0.left
    requires t.polled && Later(a, b) && Reacted(trace, a, b, t.now)
    ensures Turned(d, me, reliable, trace, timeout, t, a0, b)
  {
    GrowsOn(a0.bus, a.bus, b.bus);
  }

  lemma TurnedByWakeup(d: Child.Decoder, me: AgentId, reliable: bool, trace: bool, timeout: Option<nat>, t: Turn, a0: Moment, a: Moment, b: Moment)
    requires Window(a0.bus.table, a0.bus.log) && (a0.left == a.left ==> a.bus == a0.bus)
    requires a == a0.(bus := a.bus, left := a.left, served := a.served) && Grows(a0.bus, a.bus) && a.left <= a0.left && a0.served <= a.served
    requires WokenUp(me, reliable, timeout, t.wakeup, a, b, t.now) && Later(a, b) && b.told == a.told && b.served == a.served
    requires t.polled ==> b.told == Child.Events(d, LineStream.Flat(b.served)) && |b.served| == |a0.served| + t.patience
    ensures Turned(d, me, reliable, trace, timeout, t, a0, b)
  {
    assert Later(a0, a);
    WokenUpThen(me, reliable, timeout, t.wakeup, a0, a, b, t.now);
  }

  /** What others do before a wakeup is noticed by it. */
  lemma WokenUpThen(me: AgentId, reliable: bool, timeout: Option<nat>, wakeup: Wakeup, a0: Moment, a: Moment, b: Moment, now: nat)
    requires Window(a0.bus.table, a0.bus.log) && Later(a0, a) && (a0.left == a.left ==> a.bus == a0.bus)
    requires WokenUp(me, reliable, timeout, wakeup, a, b, now) && Later(a, b)
    requires a0.out == a.out && a0.said == a.said && a0.turnActive == a.turnActive
    requires a0.lastActivity == a.lastActivity && a0.idleNotified == a.idleNotified
    ensures WokenUp(me, reliable, timeout, wakeup, a0, b, now) && Later(a0, b)
  {
    LaterThen(a0, a, b);
    GrowsNot(b.bus);
    DrainedThen(me, reliable, a0, a, b, b);
    var m: Moment :| FedState(a, m, now) && m.said == a.said && IdleChecked(timeout, wakeup.Tick?, m, b, now);
    assert FedState(a0, m, now) && m.said == a0.said;
  }

  lemma TurnsStart(d: Child.Decoder, me: AgentId, reliable: bool, trace: bool, timeout: Option<nat>, turns: seq<Turn>, m: Moment)
    ensures AllTurned(d, me, reliable, trace, timeout, turns, [m])
  {
  }

  lemma TurnsOn(d: Child.Decoder, me: AgentId, reliable: bool, trace: bool, timeout: Option<nat>, turns: seq<Turn>, moments: seq<Moment>, m: Moment)
    requires AllTurned(d, me, reliable, trace, timeout, turns, moments) && moments != [] && |moments| <= |turns|
    requires Turned(d, me, reliable, trace, timeout, turns[|moments| - 1], moments[|moments| - 1], m)
    ensures AllTurned(d, me, reliable, trace, timeout, turns, moments + [m])
  {
    hide Turned;
  }

  /** Supervision drains what was pending at its start, then takes its turns, up to one that ends it. */
  ghost predicate Supervised(d: Child.Decoder, me: AgentId, reliable: bool, trace: bool, timeout: Option<nat>,
                             turns: seq<Turn>, now: nat, r: Outcome, a: Moment, moments: seq<Moment>, b: Moment) {
    && (moments == [] ==> r.Ended? && r.ending.WriteError?)
    && (moments != [] ==>
          && FedState(a, moments[0], now) && InputsDrained(me, reliable, a, moments[0])
          && AllTurned(d, me, reliable, trace, timeout, turns, moments))
    && (if r.GoesOn? then |moments| == |turns| + 1 && moments[|turns|] == b else |moments| <= |turns|)
    && (r.BusClosed? ==> turns[|moments| - 1].wakeup.Closed?)
  }

  lemma LaterThen(a: Moment, b: Moment, c: Moment)
    requires Later(a, b) && Later(b, c)
    ensures Later(a, c)
  {
    GrowsOn(a.bus, b.bus, c.bus);
  }

  /** The child was fed `n` rows, and nothing has been made of it yet. */
  predicate FedBy(a: Moment, b: Moment, n: nat) {
    && |b.out| == |a.out| + n && b.said == a.said
    && b.turnActive == a.turnActive && b.lastActivity == a.lastActivity && b.idleNotified == a.idleNotified
  }

  predicate FedNoted(a: Moment, b: Moment, n: nat, now: nat) {
    b == if n > 0 then a.(turnActive := true, lastActivity := now, idleNotified := false) else a
  }

  /** Drained is drained, whatever the idle state. */
  lemma DrainedAnyhow(me: AgentId, reliable: bool, a: Moment, m: Moment, b: Moment, n: nat, now: nat)
    requires InputsDrained(me, reliable, a, m) && Later(a, m) && FedBy(a, m, n) && FedNoted(m, b, n, now)
    ensures InputsDrained(me, reliable, a, b) && Later(a, b) && FedState(a, b, now) && b.said == a.said
  {
  }

  lemma NoMorePending(b: Bus, b': Bus, me: AgentId, k: Key)
    requires Grows(b, b') && InLog(b.log, k) && !PendingFor(b.table, me, TurnInput, k)
    ensures !PendingFor(b'.table, me, TurnInput, k)
  {
  }

  /** Nothing that happens later undoes a drain, nor does anything before it go unnoticed. */
  lemma DrainedThen(me: AgentId, reliable: bool, a0: Moment, a: Moment, b: Moment, c: Moment)
    requires Window(a0.bus.table, a0.bus.log) && Later(a0, a) && InputsDrained(me, reliable, a, b) && Later(a, b) && Later(b, c)
    requires c.seen == b.seen && (a0.left == a.left ==> a.bus == a0.bus)
    ensures InputsDrained(me, reliable, a0, c)
  {
    forall k | reliable && PendingFor(a0.bus.table, me, TurnInput, k) ensures !PendingFor(c.bus.table, me, TurnInput, k) {
      assert Kept(a0.bus.log, k);
      assert InLog(a0.bus.log, k) && InLog(a.bus.log, k) && InLog(b.bus.log, k);
      if !PendingFor(a.bus.table, me, TurnInput, k) {
        NoMorePending(a.bus, b.bus, me, k);
      }
      NoMorePending(b.bus, c.bus, me, k);
    }
    forall k | a0.left == c.left && PendingFor(a0.bus.table, me, TurnInput, k) ensures Holds(c.out, k) {
      assert Holds(b.out, k);
      var i :| 0 <= i < |b.out| && b.out[i].key == k;
      assert c.out[i] == b.out[i];
    }
  }

  lemma FedLater(a: Moment, queried: Bus, rows: seq<Item>, b: Moment)
    requires Grows(a.bus, queried) && Grows(queried, b.bus) && b.left <= a.left && b.out == a.out + rows
    requires b.told == a.told && b.served == a.served
    ensures Later(a, b)
  {
    GrowsOn(a.bus, queried, b.bus);
  }

  /** The rows of a query, fed and consumed, were all that was pending. */
  lemma FedMeansDrained(me: AgentId, reliable: bool, a: Moment, queried: Bus, rows: seq<Item>, b: Moment)
    requires Window(a.bus.table, a.bus.log) && Grows(a.bus, queried) && Grows(queried, b.bus) && b.left <= a.left
    requires IsSelection(queried.table, PendingKeys(queried.table, me, TurnInput), false, None, rows)
    requires b.seen == queried.log && b.out == a.out + rows && (reliable ==> AllConsumed(b.bus.table, rows))
    requires a.left == b.left ==> queried == a.bus
    ensures InputsDrained(me, reliable, a, b)
  {
    forall k | PendingFor(queried.table, me, TurnInput, k) ensures Holds(rows, k) && Holds(b.out, k) {
      assert k in PendingKeys(queried.table, me, TurnInput);
      var i :| 0 <= i < |rows| && rows[i].key == k;
      assert b.out[|a.out| + i].key == k;
    }
    forall k | reliable && PendingFor(a.bus.table, me, TurnInput, k) ensures !PendingFor(b.bus.table, me, TurnInput, k) {
      assert Kept(a.bus.log, k);
      assert InLog(a.bus.log, k) && InLog(queried.log, k);
      if PendingFor(queried.table, me, TurnInput, k) {
        var i :| 0 <= i < |rows| && rows[i].key == k;
      } else {
        NoMorePending(queried, b.bus, me, k);
      }
    }
  }

  class Supervisor {
    const voice: Voice
    const trace: bool
    const idleTimeout: Option<nat>
    const lossy: Bytes -> string
    const store: BusStore
    const harness: Child.Harness
    /** What the child was given when it was started. */
    ghost const base: seq<string>
    /** The log when supervision began. */
    ghost const log0: Log
    ghost const skipped0: set<Key>
    /** The system from its beginning, this supervisor's place in it, and what others do from here on. */
    ghost const start: Sys
    ghost const index: nat
    ghost const script: seq<Outside>
    var turnActive: bool
    var lastActivity: nat
    var idleNotified: bool
    /** What others will still do, at this supervisor's awaits. */
    var coming: seq<Outside>
    /** Everything said and where it went, and this supervisor as the transition system sees it. */
    ghost var said: seq<Say>
    ghost var keys: seq<Option<Key>>
    ghost var actor: Actor
    ghost var world: World
    /** Everything others posted since supervision began. */
    ghost var outside: seq<Item>

    ghost predicate Valid()
      reads this, store, harness
    {
      && store.Valid() && harness.Valid()
      && Words(log0, store.bus, voice, said, keys, outside, store.reliable) && Fed(harness.stdin, base, lossy, actor.out)
      && actor.me == voice.me && actor.role.Supervisor?
      && Outsiders(script, coming, outside) && NoneMissed(store.reliable, skipped0, store.bus.skipped, script, |coming|)
      && Init(start) && InSystem(start, index, script, |coming|, world, store.bus, actor)
    }

    /** Where the supervisor is. */
    ghost function Now(): Moment
      reads this, store, harness
    {
      Moment(store.bus, |coming|, actor.out, if actor.role.Supervisor? then actor.role.seen else map[], harness.told, harness.served,
             said, turnActive, lastActivity, idleNotified)
    }

    constructor (voice: Voice, trace: bool, idleTimeout: Option<nat>, lossy: Bytes -> string, store: BusStore, harness: Child.Harness,
                 ghost start: Sys, ghost acts: seq<Action>, ghost actors: seq<Actor>, ghost index: nat, ghost role: Role,
                 coming: seq<Outside>, initialTurn: bool, now: nat)
      requires store.Valid() && harness.Valid() && role.Supervisor?
      requires Init(start) && Tied(start, acts, index, store.bus, actors, Actor(voice.me, role, Free, []))
      ensures Valid() && said == [] && actor == Actor(voice.me, role, Free, []) && outside == [] && log0 == store.bus.log
      ensures this.start == start && this.index == index && this.script == this.coming == coming && world == World(acts, actors, false)
      ensures this.voice == voice && this.trace == trace && this.idleTimeout == idleTimeout && this.lossy == lossy
      ensures this.store == store && this.harness == harness && turnActive == initialTurn && !idleNotified
    {
      this.voice, this.trace, this.idleTimeout, this.lossy := voice, trace, idleTimeout, lossy;
      this.store, this.harness, this.coming := store, harness, coming;
      this.start, this.index, this.script := start, index, coming;
      base, skipped0 := harness.stdin, store.bus.skipped;
      turnActive, lastActivity, idleNotified := initialTurn, now, false;
      log0 := store.bus.log;
      said, keys, actor, outside, world := [], [], Actor(voice.me, role, Free, []), [], World(acts, actors, false);
      WordsStart(store.bus, voice, store.reliable);
      FedNothing(harness.stdin, lossy);
      new;
      hide Words, Fed, Tied, Account;
      assert coming[0..] == coming && coming[..0] == [];
    }

    // ----- Others -----

    /** What others do to the store. */
    method Perform(e: Effect)
      requires store.Valid()
      modifies store
      ensures store.Valid() && store.bus == Affect(old(store.bus), e)
    {
      match e
      case Posting(to, msg) => var num := store.AgentMsgEnqueue(to, msg);
      case Marking(key, now) => store.AgentMsgMarkConsumed(key, now);
      case Broadcasting(key) => store.Publish(key);
      case Missing(key) => store.MissMark(key);
      case Quiet =>
    }

    /** Others take their next step. */
    method OthersAct()
      requires Valid() && coming != []
      modifies this`coming, this`outside, this`world, store
      ensures Valid() && coming == old(coming)[1..] && Grows(old(store.bus), store.bus)
    {
      hide Words, Affect, Outsiders, NoneMissed, InSystem, Init, Grows, Account, Fed, ByOther;
      var e := coming[0].effect;
      ghost var b := store.bus;
      AccountHas(store.rows, b);
      AffectGrows(b, e);
      NextIsComing(script, coming, outside);
      WordsStay(log0, b, voice, said, keys, outside, store.reliable, e);
      NoneMissedOn(store.reliable, skipped0, b, script, |coming|);
      OtherInSystem(start, index, script, |coming|, world, b, actor);
      OutsideOn(script, coming, b, outside);
      world := ByOther(world, index, b, coming[0]);
      outside := OutsideAfter(b, outside, e);
      coming := coming[1..];
      Perform(e);
    }

    /** An await: others take any number of steps. */
    method Pause()
      requires Valid()
      modifies this`coming, this`outside, this`world, store
      ensures Valid() && Grows(old(store.bus), store.bus)
      ensures |coming| <= |old(coming)| && (|coming| == |old(coming)| ==> store.bus == old(store.bus))
    {
      hide Words, Affect, Outsiders, NoneMissed, InSystem, Init, Grows, Account, Fed;
      GrowsNot(store.bus);
      var n: nat :| n <= |coming|;
      for i := 0 to n
        invariant Valid() && Grows(old(store.bus), store.bus)
        invariant |coming| == |old(coming)| - i && (i == 0 ==> store.bus == old(store.bus))
      {
        ghost var b := store.bus;
        OthersAct();
        GrowsOn(old(store.bus), b, store.bus);
      }
    }

    // ----- Speaking -----

    /** `bus_enqueue` to the prime; its result is ignored. The bus gains this one message or nothing. */
    method Tell(s: Say, now: nat)
      requires Valid()
      modifies this`said, this`keys, this`world, store
      ensures Valid() && said == old(said) + [s] && old(keys) <= keys
      ensures store.bus == old(store.bus) || store.bus == Enqueued(old(store.bus), OwnSession(voice.me), Spoken(voice, s, now))
      ensures store.reliable ==> store.bus == Enqueued(old(store.bus), OwnSession(voice.me), Spoken(voice, s, now))
      ensures Grows(old(store.bus), store.bus)
    {
      hide Child.Account, Words, Outsiders, NoneMissed, InSystem, Init, Account, Fed, Enqueued, Spoken;
      ghost var b, msg := store.bus, Spoken(voice, s, now);
      AccountHas(store.rows, b);
      WordsOn(log0, b, voice, said, keys, outside, store.reliable, s, now);
      if !store.reliable {
        WordsLost(log0, b, voice, said, keys, outside, store.reliable, s);
      }
      UtterInSystem(start, index, script, |coming|, world, b, actor, OwnSession(voice.me), msg);
      EnqueuedKeeps(b, OwnSession(voice.me), msg);
      EnqueuedGrows(b, OwnSession(voice.me), msg);
      GrowsNot(b);
      hide Grows;
      var num := store.BusEnqueue(OwnSession(voice.me), Spoken(voice, s, now));
      said := said + [s];
      if num.None? {
        keys := keys + [None];
      } else {
        keys := keys + [Some(NextOwn(b.log, voice))];
        world := ByUtter(world, OwnSession(voice.me), msg, NextOwn(b.log, voice));
      }
    }

    // ----- Feeding -----

    /** The supervisor's own next step that touches nothing but itself. */
    ghost method Move(e: Event)
      requires Valid() && CanStep(store.bus, actor, e) && BusAfter(store.bus, actor, e) == store.bus
      requires ActorAfter(store.bus, actor, e).out == actor.out
      modifies this`actor, this`world
      ensures Valid() && actor == ActorAfter(store.bus, old(actor), e)
    {
      hide Child.Account, Words, Outsiders, NoneMissed, InSystem, Init, Account, Fed;
      StepLeads(store.bus, actor, e);
      OwnInSystem(start, index, script, |coming|, world, store.bus, actor, [e], store.bus, ActorAfter(store.bus, actor, e));
      world := ByOwn(world, index, [e], ActorAfter(store.bus, actor, e));
      actor := ActorAfter(store.bus, actor, e);
    }

    /** Writes one row to the child. */
    method WriteRow(row: Item) returns (ok: bool)
      requires Valid() && actor.pc.Working? && actor.pc.rows != [] && actor.pc.rows[0] == row
      modifies this`actor, this`world, harness`stdin, harness`stdinRoom, harness`torn
      ensures Valid()
      ensures ok ==> actor == old(actor).(pc := Handed(old(actor).pc.rows), out := old(actor).out + [row])
      ensures ok ==> harness.stdin == old(harness.stdin) + [lossy(row.msg.payload)]
      ensures !ok ==> actor == old(actor).(pc := Gone) && harness.stdinRoom == 0
    {
      hide Child.Account, Words, Outsiders, NoneMissed, InSystem, Init, Account, Fed;
      FeedOne(harness.stdin, base, lossy, actor.out, row);
      ok := harness.SendTurn(lossy(row.msg.payload));
      if !ok {
        Move(Leave);
        return;
      }
      StepLeads(store.bus, actor, Write);
      OwnInSystem(start, index, script, |coming|, world, store.bus, actor, [Write], store.bus, ActorAfter(store.bus, actor, Write));
      world := ByOwn(world, index, [Write], ActorAfter(store.bus, actor, Write));
      actor := ActorAfter(store.bus, actor, Write);
    }

    /** Marks the row just written. A failed mark is ignored. */
    method MarkRow(key: Key, now: nat)
      requires Valid() && actor.pc.Handed? && actor.pc.rows != [] && actor.pc.rows[0].key == key
      modifies this`actor, this`world, store
      ensures Valid() && Grows(old(store.bus), store.bus) && actor == old(actor).(pc := Carry(old(actor).pc.rows[1..]))
      ensures store.bus.log == old(store.bus).log && store.bus.bcast == old(store.bus).bcast
      ensures store.reliable ==> store.bus == Consumes(old(store.bus), key, now)
    {
      hide Child.Account, Words, Outsiders, NoneMissed, InSystem, Init, Account, Fed, Leads, Grows;
      ghost var b, x := store.bus, actor;
      AccountHas(store.rows, b);
      LeadsNowhere(b, x);
      ghost var evs, y;
      evs, y := store.MarkHanded(b, x, [], x, key, true, now);
      LeadsGrows(b, x, evs, store.bus, y);
      OwnInSystem(start, index, script, |coming|, world, b, x, evs, store.bus, y);
      WordsMarked(log0, b, store.bus, voice, said, keys, outside, store.reliable);
      MarkMissesNone(store.reliable, skipped0, b, store.bus, key, now, script, |coming|);
      world := ByOwn(world, index, evs, y);
      actor := y;
    }

    /** Sends one row to the child and marks it, while others act. */
    method FeedRow(row: Item, now: nat) returns (ok: bool)
      requires Valid() && actor.pc.Working? && actor.pc.rows != [] && actor.pc.rows[0] == row
      modifies this`actor, this`world, this`coming, this`outside, store, harness`stdin, harness`stdinRoom, harness`torn
      ensures Valid() && Grows(old(store.bus), store.bus) && |coming| <= |old(coming)|
      ensures ok ==> actor == old(actor).(pc := Carry(old(actor).pc.rows[1..]), out := old(actor).out + [row])
      ensures !ok ==> actor == old(actor).(pc := Gone) && harness.stdinRoom == 0
      ensures |coming| == |old(coming)| ==> store.bus.log == old(store.bus).log && store.bus.bcast == old(store.bus).bcast
      ensures ok && store.reliable ==> AllConsumed(store.rows, [row])
    {
      hide Child.Account, Words, Outsiders, NoneMissed, InSystem, Init, Account, Fed, Grows, AllConsumed;
      Pause();
      ok := WriteRow(row);
      if !ok {
        return;
      }
      ghost var b1 := store.bus;
      Pause();
      GrowsOn(old(store.bus), b1, store.bus);
      ghost var b2 := store.bus;
      MarkRow(row.key, now);
      GrowsOn(old(store.bus), b2, store.bus);
      AccountHas(store.rows, store.bus);
      MarkedIsConsumed(b2.table, row, now);
    }

    /** Feeds the rows of one query in order, up to the first failed write. */
    method FeedRows(found: seq<Item>, now: nat) returns (ok: bool, ghost n: nat)
      requires Valid() && actor.pc == Carry(found) && AllLogged(store.bus.log, found)
      modifies this`actor, this`world, this`coming, this`outside, store, harness`stdin, harness`stdinRoom, harness`torn
      ensures Valid() && Grows(old(store.bus), store.bus) && |coming| <= |old(coming)| && n <= |found| && (ok ==> n == |found|)
      ensures actor == old(actor).(pc := if ok then Free else Gone, out := old(actor).out + found[..n])
      ensures !ok ==> harness.stdinRoom == 0
      ensures |coming| == |old(coming)| ==> store.bus.log == old(store.bus).log && store.bus.bcast == old(store.bus).bcast
      ensures store.reliable ==> AllConsumed(store.rows, found[..n])
    {
      hide Child.Account, Words, Outsiders, NoneMissed, InSystem, Init, Account, Fed, Grows, AllConsumed, AllLogged;
      ghost var role, out := actor.role, actor.out;
      var i := 0;
      n := 0;
      assert found[0..] == found && found[..0] == [] && out + [] == out;
      NothingConsumed(store.rows);
      GrowsNot(store.bus);
      while i < |found|
        invariant n == i <= |found| && Valid() && Grows(old(store.bus), store.bus) && |coming| <= |old(coming)|
        invariant |coming| == |old(coming)| ==> store.bus.log == old(store.bus).log && store.bus.bcast == old(store.bus).bcast
        invariant store.reliable ==> AllConsumed(store.rows, found[..n])
        invariant actor == Actor(voice.me, role, Carry(found[n..]), out + found[..n])
      {
        TakeOneMore(out, found, n);
        ghost var b := store.bus;
        AccountHas(store.rows, b);
        ok := FeedRow(found[i], now);
        GrowsOn(old(store.bus), b, store.bus);
        LoggedStays(old(store.bus), b, found, n);
        AccountHas(store.rows, store.bus);
        if store.reliable {
          ConsumedStays(b, store.bus, found[..n]);
        }
        if !ok {
          return;
        }
        if store.reliable {
          ConsumedOneMore(store.rows, found, n);
        }
        i, n := i + 1, n + 1;
      }
      ok := true;
    }

    /** The query for pending turn inputs, after others have acted; a failed one is the end. */
    method QueryInputs() returns (found: Option<seq<Item>>, ghost queried: Bus)
      requires Valid() && actor.pc.Free?
      modifies this`actor, this`world, this`coming, this`outside, store
      ensures Valid() && Grows(old(store.bus), queried) && queried == store.bus
      ensures |coming| <= |old(coming)| && (|coming| == |old(coming)| ==> queried == old(store.bus))
      ensures store.reliable ==> found.Some?
      ensures found.None? ==> actor == old(actor).(pc := Gone)
      ensures found.Some? ==> IsSelection(queried.table, PendingKeys(queried.table, voice.me, TurnInput), false, None, found.value)
      ensures found.Some? ==> AllLogged(queried.log, found.value)
      ensures found.Some? ==> actor == Actor(voice.me, old(actor).role.(seen := queried.log), Carry(found.value), old(actor).out)
    {
      hide Child.Account, Words, Outsiders, NoneMissed, InSystem, Init, Account, Fed, Grows, AllLogged, IsSelection, PendingKeys;
      Pause();
      queried := store.bus;
      AccountHas(store.rows, store.bus);
      LeaveMoves(store.bus, actor);
      found := None;
      var up: bool := *;
      if up || store.reliable {
        var rows := store.AgentMsgPending(voice.me, TurnInput);
        found := Some(rows);
        SelectedAreLogged(store.bus, PendingKeys(store.bus.table, voice.me, TurnInput), rows);
        FetchMoves(store.bus, actor, rows);
      }
      hide CanStep, BusAfter, ActorAfter;
      if found.Some? {
        Move(Fetch(found.value));
      } else {
        Move(Leave);
      }
    }

    /**
     Feeds every pending turn input in order, up to the first failed write, and marks them, while others
     act; `queried` is the bus at its query.
     */
    method DrainTurnInputs(now: nat) returns (fed: Option<nat>, ghost queried: Bus, ghost rows: seq<Item>, ghost n: nat)
      requires Valid() && actor.pc.Free?
      modifies this`actor, this`world, this`coming, this`outside, store, harness`stdin, harness`stdinRoom, harness`torn
      ensures Valid() && Grows(old(store.bus), queried) && Grows(queried, store.bus) && |coming| <= |old(coming)|
      ensures rows == [] || IsSelection(queried.table, PendingKeys(queried.table, voice.me, TurnInput), false, None, rows)
      ensures n <= |rows| && actor.out == old(actor).out + rows[..n] && actor.pc == if fed.Some? then Free else Gone
      ensures fed.Some? ==> fed.value == n == |rows| && actor.role.seen == queried.log
      ensures fed.Some? ==> IsSelection(queried.table, PendingKeys(queried.table, voice.me, TurnInput), false, None, rows)
      ensures |coming| == |old(coming)| ==> queried == old(store.bus) && store.bus.log == old(store.bus).log && store.bus.bcast == old(store.bus).bcast
      ensures store.reliable ==> AllConsumed(store.rows, rows[..n])
      ensures store.reliable && fed.None? ==> harness.stdinRoom == 0
    {
      hide Child.Account, Words, Outsiders, NoneMissed, InSystem, Init, Account, Fed, Grows, AllConsumed, AllLogged, IsSelection, PendingKeys;
      var found;
      found, queried := QueryInputs();
      rows, n := [], 0;
      NothingConsumed(store.rows);
      GrowsNot(store.bus);
      assert actor.out + rows[..n] == actor.out;
      if found.None? {
        return None, queried, rows, n;
      }
      rows := found.value;
      var ok;
      ok, n := FeedRows(found.value, now);
      assert ok ==> rows[..n] == rows;
      fed := if ok then Some(|found.value|) else None;
    }

    // ----- The loop -----

    /** The account of what was said so far, with `extra` at the end. */
    ghost predicate Talk(extra: seq<Say>)
      reads this, harness
    {
      Accounted(said, harness.told, |actor.out|, idleNotified, trace, idleTimeout, extra)
    }

    /** Every way out but a closed bus ends with one last word to the prime. */
    method Finish(ending: Ending, now: nat)
      requires Valid() && Talk([])
      modifies this`said, this`keys, this`coming, this`outside, this`world, store
      ensures Valid() && Talk([SaidEnd(ending)]) && said == old(said) + [SaidEnd(ending)] && old(keys) <= keys
      ensures Grows(old(store.bus), store.bus)
    {
      hide Child.Account, Words, Outsiders, NoneMissed, InSystem, Init, Account, Accounted, Fed, Grows;
      AccountEnd(said, harness.told, ending, |actor.out|, idleNotified, trace, idleTimeout);
      Pause();
      ghost var b := store.bus;
      Tell(SaidEnd(ending), now);
      GrowsOn(old(store.bus), b, store.bus);
    }

    /** Feeds what is pending, as far as it goes. */
    method FeedPending(now: nat) returns (fed: Option<nat>)
      requires Valid() && actor.pc.Free?
      modifies this`actor, this`world, this`coming, this`outside, store, harness`stdin, harness`stdinRoom, harness`torn
      ensures Valid() && Later(old(Now()), Now()) && actor.pc == if fed.Some? then Free else Gone
      ensures |actor.out| >= old(|actor.out|) && (fed.Some? ==> FedBy(old(Now()), Now(), fed.value))
      ensures fed.Some? ==> InputsDrained(voice.me, store.reliable, old(Now()), Now()) && |actor.out| == old(|actor.out|) + fed.value
      ensures store.reliable && fed.None? ==> harness.stdinRoom == 0
    {
      hide Child.Account, Words, Outsiders, NoneMissed, InSystem, Init, Account, Fed, Grows, AllConsumed, IsSelection, PendingKeys, InputsDrained, Later;
      ghost var a := Now();
      AccountHas(store.rows, store.bus);
      ghost var queried, rows, n;
      fed, queried, rows, n := DrainTurnInputs(now);
      AccountHas(store.rows, store.bus);
      ghost var b := Now();
      FedLater(a, queried, rows[..n], b);
      if fed.Some? {
        assert rows[..n] == rows;
        FedMeansDrained(voice.me, store.reliable, a, queried, rows, b);
      }
    }

    /** Feeds what is pending and notes whether that starts a turn. */
    method DrainInputs(now: nat) returns (ok: bool)
      requires Valid() && Talk([]) && actor.pc.Free? && now >= lastActivity
      modifies this`turnActive, this`lastActivity, this`idleNotified, this`actor, this`coming, this`outside, this`world, store, harness`stdin, harness`stdinRoom, harness`torn
      ensures Valid() && Talk([]) && (ok ==> actor.pc.Free? && now >= lastActivity)
      ensures ok ==> Now().said == old(Now()).said
      ensures ok ==> FedState(old(Now()), Now(), now) && InputsDrained(voice.me, store.reliable, old(Now()), Now()) && Later(old(Now()), Now())
      ensures !ok && store.reliable ==> harness.stdinRoom == 0
    {
      hide Child.Account, Words, Outsiders, NoneMissed, InSystem, Init, Account, Accounted, Fed, InputsDrained, Later, FedState, FedBy, FedNoted, Now;
      ghost var before, a := |actor.out|, Now();
      var fed := FeedPending(now);
      ghost var m := Now();
      AccountFed(said, harness.told, before, |actor.out|, idleNotified, idleNotified, trace, idleTimeout);
      ok := fed.Some?;
      if ok {
        NoteFed(fed.value, before, now);
        DrainedAnyhow(voice.me, store.reliable, a, m, Now(), fed.value, now);
      }
    }

    method DrainOrDie(now: nat) returns (r: Outcome)
      requires Valid() && Talk([]) && actor.pc.Free? && now >= lastActivity
      modifies this`turnActive, this`lastActivity, this`idleNotified, this`said, this`keys, this`actor, this`coming, this`outside, this`world, store, harness`stdin, harness`stdinRoom, harness`torn
      ensures Valid() && !r.BusClosed? && (r.Ended? ==> r.ending.WriteError? && Talk([SaidEnd(r.ending)]))
      ensures r.GoesOn? ==> Talk([]) && actor.pc.Free? && said == old(said) && now >= lastActivity
      ensures r.GoesOn? ==> Now().said == old(Now()).said
      ensures r.GoesOn? ==> FedState(old(Now()), Now(), now) && InputsDrained(voice.me, store.reliable, old(Now()), Now()) && Later(old(Now()), Now())
      ensures r.Ended? && store.reliable ==> harness.stdinRoom == 0
    {
      hide Child.Account, Words, Outsiders, NoneMissed, InSystem, Init, Account, Accounted, Fed, InputsDrained, Later, Grows, FedState;
      var ok := DrainInputs(now);
      if !ok {
        Finish(WriteError, now);
        return Ended(WriteError);
      }
      return GoesOn;
    }

    /** Feeding anything starts a turn and resets the idle state. */
    method NoteFed(fed: nat, ghost before: nat, now: nat)
      requires Valid() && |actor.out| == before + fed && now >= lastActivity
      requires Accounted(said, harness.told, before, idleNotified, trace, idleTimeout, []) && Talk([])
      modifies this`turnActive, this`lastActivity, this`idleNotified
      ensures Valid() && Talk([]) && now >= lastActivity && FedNoted(old(Now()), Now(), fed, now)
    {
      hide Child.Account, Words, Outsiders, NoneMissed, InSystem, Init, Account, Accounted, Fed;
      if fed > 0 {
        AccountFed(said, harness.told, before, |actor.out|, idleNotified, false, trace, idleTimeout);
        turnActive, lastActivity, idleNotified := true, now, false;
      }
    }

    /** Reports one event of the child. */
    method React(e: Child.Event, ghost before: seq<Child.Event>, now: nat)
      requires Valid() && harness.told == before + [e]
      requires Accounted(said, before, |actor.out|, idleNotified, trace, idleTimeout, [])
      modifies this`turnActive, this`lastActivity, this`idleNotified, this`said, this`keys, this`coming, this`outside, this`world, store
      ensures Valid() && Talk([]) && old(keys) <= keys
      ensures said == old(said) + Report(e, trace) && turnActive == (old(turnActive) && !e.TurnComplete?)
      ensures lastActivity == now && !idleNotified && Grows(old(store.bus), store.bus) && |coming| <= |old(coming)|
    {
      hide Child.Account, Words, Outsiders, NoneMissed, InSystem, Init, Account, Accounted, Fed, Grows;
      GrowsNot(store.bus);
      ghost var b := store.bus;
      AccountEvent(said, before, e, |actor.out|, idleNotified, trace, idleTimeout);
      lastActivity, idleNotified := now, false;
      match e
      case AssistantText(text) =>
        if trace {
          Pause();
          b := store.bus;
          Tell(SaidTrace(text), now);
          GrowsOn(old(store.bus), b, store.bus);
        } else {
          assert said + [] == said;
        }
      case TurnComplete(result, isError) =>
        turnActive := false;
        Pause();
        b := store.bus;
        Tell(SaidOutput(result), now);
        GrowsOn(old(store.bus), b, store.bus);
    }

    /** Tells the prime once when a turn has been silent for the timeout. */
    method CheckIdle(now: nat)
      requires Valid() && Talk([]) && now >= lastActivity
      modifies this`idleNotified, this`said, this`keys, this`coming, this`outside, this`world, store
      ensures Valid() && Talk([]) && old(keys) <= keys
      ensures if old(turnActive && !idleNotified) && idleTimeout.Some? && now - lastActivity >= idleTimeout.value
              then said == old(said) + [SaidIdle(now - lastActivity)] && idleNotified
              else said == old(said) && idleNotified == old(idleNotified)
      ensures Grows(old(store.bus), store.bus) && |coming| <= |old(coming)|
    {
      hide Child.Account, Words, Outsiders, NoneMissed, InSystem, Init, Account, Accounted, Fed, Grows;
      GrowsNot(store.bus);
      if turnActive && !idleNotified && idleTimeout.Some? {
        var idle := now - lastActivity;
        if idle >= idleTimeout.value {
          AccountNotice(said, harness.told, idle, |actor.out|, trace, idleTimeout);
          idleNotified := true;
          Pause();
          ghost var b := store.bus;
          Tell(SaidIdle(idle), now);
          GrowsOn(old(store.bus), b, store.bus);
        }
      }
    }

    /** The branches of the select other than the event reader. */
    method WakeUp(wakeup: Wakeup, now: nat) returns (r: Outcome)
      requires Valid() && Talk([]) && actor.pc.Free? && now >= lastActivity
      modifies this`turnActive, this`lastActivity, this`idleNotified, this`said, this`keys, this`actor, this`coming, this`outside, this`world, store, harness`stdin, harness`stdinRoom, harness`torn
      ensures Valid() && (r.Ended? ==> r.ending.WriteError? && Talk([SaidEnd(r.ending)]) && EndsRightly(r.ending))
      ensures !r.Ended? ==> Talk([]) && actor.pc.Free? && now >= lastActivity
      ensures r.BusClosed? <==> wakeup.Closed?
      ensures r.GoesOn? ==> WokenUp(voice.me, store.reliable, idleTimeout, wakeup, old(Now()), Now(), now) && Later(old(Now()), Now())
    {
      hide Child.Account, Words, Outsiders, NoneMissed, InSystem, Init, Account, Accounted, Fed, Grows, InputsDrained, WokenUp, FedState, IdleChecked, Later, PendingFor;
      if wakeup.Closed? {
        return BusClosed;
      }
      ghost var a := Now();
      AccountHas(store.rows, store.bus);
      hide Now;
      r := DrainOrDie(now);
      if r.GoesOn? {
        ghost var m := Now();
        CheckOnTick(wakeup.Tick?, now);
        WokenUpBy(voice.me, store.reliable, idleTimeout, wakeup, a, m, Now(), now);
      }
    }

    /** The idle check, which only a tick brings about. */
    method CheckOnTick(tick: bool, now: nat)
      requires Valid() && Talk([]) && now >= lastActivity
      modifies this`idleNotified, this`said, this`keys, this`coming, this`outside, this`world, store
      ensures Valid() && Talk([]) && IdleChecked(idleTimeout, tick, old(Now()), Now(), now) && Later(old(Now()), Now())
      ensures Now().seen == old(Now()).seen
    {
      hide Child.Account, Words, Outsiders, NoneMissed, InSystem, Init, Account, Accounted, Fed, Grows;
      GrowsNot(store.bus);
      if tick {
        CheckIdle(now);
      }
    }

    /** The event reader, polled: it tells the next event, or ends supervision, or is dropped. */
    method PollReader(t: Turn) returns (r: Option<Outcome>)
      requires Valid() && Talk([]) && actor.pc.Free? && t.now >= lastActivity && t.polled
      modifies this`turnActive, this`lastActivity, this`idleNotified, this`said, this`keys, this`coming, this`outside, this`world, store,
               harness`buf, harness`stdout, harness`served, harness`told
      ensures Valid() && harness.served + harness.stdout == old(harness.served + harness.stdout)
      ensures r.Some? ==> !r.value.BusClosed?
      ensures r.Some? && r.value.Ended? ==> Talk([SaidEnd(r.value.ending)]) && EndsRightly(r.value.ending)
      ensures r == Some(GoesOn) ==> Talk([]) && t.now >= lastActivity && Later(old(Now()), Now()) && Reacted(trace, old(Now()), Now(), t.now)
      ensures r == None ==> Talk([]) && Later(old(Now()), Now()) && Now() == old(Now()).(served := harness.served)
      ensures r == None ==> harness.told == Child.Events(harness.decoder, LineStream.Flat(harness.served)) && |harness.served| == |old(harness.served)| + t.patience
    {
      hide Child.Account, Words, Outsiders, NoneMissed, InSystem, Init, Account, Accounted, Fed, Grows, LogGrows, LineStream.Quiet;
      GrowsNot(store.bus);
      ghost var before := harness.told;
      var p := harness.NextEvent(t.patience);
      match p
      case Ready(e) =>
        React(e, before, t.now);
        return Some(GoesOn);
      case Exited(code) =>
        Finish(ChildExited(code), t.now);
        return Some(Ended(ChildExited(code)));
      case LineTooLong =>
        Finish(ReadError, t.now);
        return Some(Ended(ReadError));
      case ReadFailed =>
        Finish(ReadError, t.now);
        return Some(Ended(ReadError));
      case Dropped =>
        return None;
    }

    /** One turn of the loop. */
    method OneTurn(t: Turn) returns (r: Outcome)
      requires Valid() && Talk([]) && actor.pc.Free? && t.now >= lastActivity
      modifies this, store, harness
      ensures Valid() && harness.served + harness.stdout == old(harness.served + harness.stdout)
      ensures r.Ended? ==> Talk([SaidEnd(r.ending)]) && EndsRightly(r.ending)
      ensures !r.Ended? ==> Talk([]) && actor.pc.Free? && t.now >= lastActivity
      ensures r.BusClosed? ==> t.wakeup.Closed?
      ensures r.GoesOn? ==> Turned(harness.decoder, voice.me, store.reliable, trace, idleTimeout, t, old(Now()), Now())
    {
      hide Child.Account, Words, Outsiders, NoneMissed, InSystem, Init, Account, Accounted, Fed, Grows, Turned, WokenUp, Reacted, LineStream.Quiet, EndsRightly;
      ghost var a0 := Now();
      AccountHas(store.rows, store.bus);
      Pause();
      ghost var a := Now();
      if t.polled {
        var o := PollReader(t);
        if o.Some? {
          r := o.value;
          if r.GoesOn? {
            TurnedByEvent(harness.decoder, voice.me, store.reliable, trace, idleTimeout, t, a0, a, Now());
          }
          return;
        }
      }
      ghost var a1 := Now();
      r := WakeUp(t.wakeup, t.now);
      if r.GoesOn? {
        TurnedByWakeup(harness.decoder, voice.me, store.reliable, trace, idleTimeout, t, a0, a1, Now());
      }
    }

    /** Each ending has its cause: the child has exited, and everything it printed was told; its output fails or has too long a line; or its input is gone. */
    ghost predicate EndsRightly(e: Ending)
      reads this, store, harness
    {
      match e
      case ChildExited(code) =>
        && code == harness.exitCode && harness.stdout == [] && !harness.readFails
        && harness.told == Child.Events(harness.decoder, LineStream.Flat(harness.served))
      case ReadError => (harness.readFails && harness.stdout == []) || !LineStream.Quiet([], harness.served)
      case WriteError => store.reliable ==> harness.stdinRoom == 0
    }

    /** The turns in order, up to one that ends supervision; `moments` are the times before and after each. */
    method Loop(turns: seq<Turn>) returns (r: Outcome, ghost moments: seq<Moment>)
      requires Valid() && Talk([]) && actor.pc.Free? && ClockRuns(turns, lastActivity)
      modifies this, store, harness
      ensures Valid() && harness.served + harness.stdout == old(harness.served + harness.stdout)
      ensures if r.Ended? then Talk([SaidEnd(r.ending)]) && EndsRightly(r.ending) else Talk([])
      ensures AllTurned(harness.decoder, voice.me, store.reliable, trace, idleTimeout, turns, moments) && moments != [] && moments[0] == old(Now())
      ensures if r.GoesOn? then |moments| == |turns| + 1 && moments[|turns|] == Now() else |moments| <= |turns|
      ensures r.BusClosed? ==> turns[|moments| - 1].wakeup.Closed?
    {
      hide Child.Account, Words, Outsiders, NoneMissed, InSystem, Init, Account, Accounted, Fed, Grows, Turned, LineStream.Quiet, Now, AllTurned, EndsRightly;
      r, moments := GoesOn, [Now()];
      TurnsStart(harness.decoder, voice.me, store.reliable, trace, idleTimeout, turns, Now());
      for i := 0 to |turns|
        invariant Valid() && Talk([]) && actor.pc.Free? && r.GoesOn?
        invariant i < |turns| ==> turns[i].now >= lastActivity
        invariant harness.served + harness.stdout == old(harness.served + harness.stdout)
        invariant |moments| == i + 1 && moments[0] == old(Now()) && moments[i] == Now()
        invariant AllTurned(harness.decoder, voice.me, store.reliable, trace, idleTimeout, turns, moments)
      {
        r := OneTurn(turns[i]);
        if !r.GoesOn? {
          return;
        }
        TurnsOn(harness.decoder, voice.me, store.reliable, trace, idleTimeout, turns, moments, Now());
        moments := moments + [Now()];
      }
    }

    /** Supervision from the first drain to its end, as far as the child and the words go. */
    method Supervise(turns: seq<Turn>, now: nat) returns (r: Outcome, ghost moments: seq<Moment>)
      requires Valid() && Talk([]) && harness.served == [] && actor.pc.Free?
      requires now >= lastActivity && ClockRuns(turns, now)
      modifies this, store, harness
      ensures Valid() && harness.served + harness.stdout == old(harness.stdout)
      ensures if r.Ended? then Talk([SaidEnd(r.ending)]) && EndsRightly(r.ending) else Talk([])
      ensures r.Ended? && r.ending.ChildExited? ==> harness.told == Child.Events(harness.decoder, LineStream.Flat(old(harness.stdout)))
      ensures Supervised(harness.decoder, voice.me, store.reliable, trace, idleTimeout, turns, now, r, old(Now()), moments, Now())
    {
      hide Child.Account, Words, Outsiders, NoneMissed, InSystem, Init, Account, Accounted, Fed, Grows, InputsDrained, AllTurned, Later, LineStream.Quiet, FedState, ClockRuns, Now;
      ClockRunsOn(turns, now);
      r := DrainOrDie(now);
      moments := [];
      AllServed(harness.served, harness.stdout);
      if r.GoesOn? {
        r, moments := Loop(turns);
        AllServed(harness.served, harness.stdout);
      }
    }

    /**
     Supervision from the first drain to its end, while others act at any of its awaits. Whatever the
     chunks of stdout, the dropped polls and the wakeups: what the bus gained is exactly what others
     posted and what the supervisor said, in the child's session and in order. If no commit fails, these
     are one `TurnOutput` row per completed turn and, if tracing, one `Trace` row per assistant text, as
     they were printed, and `Control` rows for idle notices and one last word. A child that exits has
     had everything it printed reported. Every turn drains the pending turn inputs or reports an event
     (`Turned`). The supervisor's steps and those of others are a run of the system, unless others did
     something impossible; so what was fed is in order.
     */
    method Run(turns: seq<Turn>, now: nat) returns (r: Outcome, ghost moments: seq<Moment>)
      requires Valid() && said == [] && outside == [] && harness.told == [] && harness.served == [] && actor.pc.Free?
      requires now >= lastActivity && ClockRuns(turns, now)
      modifies this, store, harness
      ensures Valid() && harness.served + harness.stdout == old(harness.stdout)
      ensures OnlySaid(log0, store.bus.log, voice, keys, outside)
      ensures |coming| <= |script| && Stamps(outside) == PostedBy(script[..|script| - |coming|])
      ensures FedTexts(harness.stdin, base, lossy, actor.out)
      ensures store.reliable ==>
                PrimeGets(voice, Added(OwnSession(voice.me), Of(store.bus.log, OwnSession(voice.me)), |Of(log0, OwnSession(voice.me))|, outside), harness.told, trace)
      ensures if r.Ended? then Talk([SaidEnd(r.ending)]) && EndsRightly(r.ending) else Talk([])
      ensures r.Ended? && r.ending.ChildExited? ==>
                && harness.told == Child.Events(harness.decoder, LineStream.Flat(old(harness.stdout)))
                && NotIdle(said) == Reports(Child.Events(harness.decoder, LineStream.Flat(old(harness.stdout))), trace) + [SaidEnd(r.ending)]
      ensures Supervised(harness.decoder, voice.me, store.reliable, trace, idleTimeout, turns, now, r, old(Now()), moments, Now())
      ensures if world.strayed then Impossible(start, index, script, |script| - |coming|, world.acts)
              else Tied(start, world.acts, index, store.bus, world.actors, actor) && BusTurns.Ascending(store.bus.skipped, actor.out)
    {
      hide Child.Account, Words, Outsiders, NoneMissed, InSystem, Init, Account, Accounted, OnlySaid, Fed, Impossible, Tied, Stamps, PostedBy;
      hide BusTurns.Ascending, PrimeGets, Supervised, LineStream.Quiet, FedTexts;
      AccountOpens(trace, idleTimeout, |actor.out|, idleNotified);
      r, moments := Supervise(turns, now);
      AllAccountedFor();
      if store.reliable {
        AllHeard(log0, store.bus, voice, said, keys, outside, harness.told, |actor.out|, idleNotified, trace, idleTimeout, if r.Ended? then [SaidEnd(r.ending)] else []);
      }
      if r.Ended? {
        AccountSays(said, harness.told, |actor.out|, idleNotified, trace, idleTimeout, [SaidEnd(r.ending)]);
      }
    }

    /** What the supervisor's state says about the child's input, the bus and the system at any time. */
    lemma AllAccountedFor()
      requires Valid()
      ensures FedTexts(harness.stdin, base, lossy, actor.out)
      ensures OnlySaid(log0, store.bus.log, voice, keys, outside)
      ensures |coming| <= |script| && Stamps(outside) == PostedBy(script[..|script| - |coming|])
      ensures if world.strayed then Impossible(start, index, script, |script| - |coming|, world.acts)
              else Tied(start, world.acts, index, store.bus, world.actors, actor) && BusTurns.Ascending(store.bus.skipped, actor.out)
    {
      hide Child.Account, Words, Outsiders, NoneMissed, InSystem, Init, Account, OnlySaid, Fed, Impossible, Tied, Stamps, PostedBy;
      hide BusTurns.Ascending, FedTexts;
      FedMeans(harness.stdin, base, lossy, actor.out);
      WordsAreAll(log0, store.bus, voice, said, keys, outside, store.reliable);
      OutsidersDone(script, coming, outside);
      InSystemMeans(start, index, script, |coming|, world, store.bus, actor);
    }

    /** In an undisturbed system, the supervisor between two drains has fed exactly the turn inputs its last query knew. */
    lemma FedInFull(session: SessionId)
      requires Valid() && !world.strayed && actor.pc.Free? && index < |world.actors| && session.group == voice.me.group
      requires world.actors[index] == actor && Undisturbed(Sys(store.bus, world.actors), index)
      ensures InSession(actor.out, session) == Inputs(session, Of(actor.role.seen, session), voice.me.name, actor.role.prompt)
    {
      hide Child.Account, Words, Outsiders, NoneMissed, Account, Fed, Undisturbed, Init;
      BroadcastIndependence(start, world.acts, index, session);
    }
  }

  lemma WordsAreAll(log0: Log, b: Bus, v: Voice, said: seq<Say>, keys: seq<Option<Key>>, outside: seq<Item>, reliable: bool)
    requires Words(log0, b, v, said, keys, outside, reliable)
    ensures OnlySaid(log0, b.log, v, keys, outside)
  {
    NothingElseSaid(log0, b.log, b.bcast, v, said, keys, outside);
  }

  lemma OutsidersDone(script: seq<Outside>, coming: seq<Outside>, outside: seq<Item>)
    requires Outsiders(script, coming, outside)
    ensures |coming| <= |script| && Stamps(outside) == PostedBy(script[..|script| - |coming|])
  {
  }

  lemma NextIsComing(script: seq<Outside>, coming: seq<Outside>, outside: seq<Item>)
    requires Outsiders(script, coming, outside) && coming != []
    ensures |coming| <= |script| && script[|script| - |coming|] == coming[0]
  {
  }

  lemma OutsideOn(script: seq<Outside>, coming: seq<Outside>, b: Bus, outside: seq<Item>)
    requires Outsiders(script, coming, outside) && coming != []
    ensures Outsiders(script, coming[1..], OutsideAfter(b, outside, coming[0].effect))
  {
    var e := coming[0].effect;
    if e.Posting? {
      var k := Key(e.to, |Of(b.log, e.to)| + 1);
      assert k.session == e.to && OutsideAfter(b, outside, e) == outside + [Item(k, e.msg)];
    }
    OutsidersOn(script, coming, outside, OutsideAfter(b, outside, e));
  }

  lemma InSystemMeans(start: Sys, i: nat, script: seq<Outside>, left: nat, w: World, b: Bus, x: Actor)
    requires Init(start) && InSystem(start, i, script, left, w, b, x) && x.role.Supervisor?
    ensures left <= |script|
    ensures if w.strayed then Impossible(start, i, script, |script| - left, w.acts)
            else Tied(start, w.acts, i, b, w.actors, x) && BusTurns.Ascending(b.skipped, x.out)
  {
    if !w.strayed {
      FedInOrder(start, w.acts, i, b, w.actors, x);
    }
  }

  lemma EnqueuedGrows(b: Bus, session: SessionId, msg: Msg)
    requires Window(b.table, b.log)
    ensures Grows(b, Enqueued(b, session, msg))
  {
    CommitGrows(b, session, msg);
  }

  lemma EnqueuedKeeps(b: Bus, session: SessionId, msg: Msg)
    ensures Enqueued(b, session, msg).skipped == b.skipped && Enqueued(b, session, msg).log == Logged(b.log, session, msg)
    ensures Enqueued(b, session, msg).bcast == b.bcast + [Item(Key(session, |Of(b.log, session)| + 1), msg)]
  {
  }

  lemma LeaveMoves(b: Bus, x: Actor)
    ensures CanStep(b, x, Leave) && BusAfter(b, x, Leave) == b && ActorAfter(b, x, Leave) == x.(pc := Gone)
  {
  }

  lemma FetchMoves(b: Bus, x: Actor, rows: seq<Item>)
    requires x.role.Supervisor? && x.pc.Free? && IsSelection(b.table, PendingKeys(b.table, x.me, TurnInput), false, None, rows)
    ensures CanStep(b, x, Fetch(rows)) && BusAfter(b, x, Fetch(rows)) == b
    ensures ActorAfter(b, x, Fetch(rows)) == Actor(x.me, x.role.(seen := b.log), Carry(rows), x.out)
  {
  }

  lemma LeadsNowhere(b: Bus, x: Actor)
    ensures Leads(b, x, [], b, x)
  {
  }

  lemma MarkMissesNone(reliable: bool, skipped0: set<Key>, b: Bus, b': Bus, key: Key, now: nat, script: seq<Outside>, left: nat)
    requires NoneMissed(reliable, skipped0, b.skipped, script, left) && (reliable ==> b' == Consumes(b, key, now))
    ensures NoneMissed(reliable, skipped0, b'.skipped, script, left)
  {
  }

  lemma MarkedIsConsumed(t: Table, row: Item, now: nat)
    ensures AllConsumed(MarkConsumed(t, row.key, now), [row])
  {
  }

  lemma ConsumedOneMore(t: Table, rows: seq<Item>, n: nat)
    requires n < |rows| && AllConsumed(t, rows[..n]) && AllConsumed(t, [rows[n]])
    ensures AllConsumed(t, rows[..n + 1])
  {
    forall i | 0 <= i <= n && rows[i].key in t ensures t[rows[i].key].consumed.Some? {
      assert i < n ==> rows[..n][i] == rows[i];
      assert [rows[n]][0] == rows[n];
    }
  }

  lemma AllHeard(log0: Log, b: Bus, v: Voice, said: seq<Say>, keys: seq<Option<Key>>, outside: seq<Item>,
                 told: seq<Child.Event>, fed: nat, notified: bool, trace: bool, timeout: Option<nat>, extra: seq<Say>)
    requires Words(log0, b, v, said, keys, outside, true) && Accounted(said, told, fed, notified, trace, timeout, extra)
    requires extra == [] || (|extra| == 1 && extra[0].SaidEnd?)
    ensures PrimeGets(v, Added(OwnSession(v.me), Of(b.log, OwnSession(v.me)), |Of(log0, OwnSession(v.me))|, outside), told, trace)
  {
    hide OnBus, Ledger, AllPosted, PrimeGets;
    PrimeHears(log0, b.log, b.bcast, v, said, keys, outside, told, trace, extra);
  }

  lemma AccountSays(said: seq<Say>, told: seq<Child.Event>, fed: nat, notified: bool, trace: bool, timeout: Option<nat>, extra: seq<Say>)
    requires Accounted(said, told, fed, notified, trace, timeout, extra)
    ensures NotIdle(said) == Reports(told, trace) + extra
  {
  }

  lemma NothingConsumed(t: Table)
    ensures AllConsumed(t, [])
  {
  }

  lemma AllServed(served: seq<Bytes>, stdout: seq<Bytes>)
    ensures stdout == [] ==> served + stdout == served
    ensures served == [] ==> served + stdout == stdout
  {
  }

  lemma TakeOneMore(out: seq<Item>, rows: seq<Item>, n: nat)
    requires n < |rows|
    ensures (out + rows[..n]) + [rows[n]] == out + rows[..n + 1]
    ensures rows[n..] != [] && rows[n..][0] == rows[n] && rows[n..][1..] == rows[n + 1..]
  {
  }
}
