/**
 Drain then tail: what a following reader has been written once it has caught up
 (`AgentRecv`, crates/wt-daemon/src/ipc.rs).
 */
module BusReaders {
  import opened Basics
  import opened BusTable
  import opened BusMachine
  import opened BusFacts
  import opened BusTurns

  /** The broadcasts a reader passes on. */
  function Matching(me: AgentId, session: Option<string>, evs: seq<Item>): seq<Item> {
    if evs == [] then [] else
      var m := |evs| - 1;
      Matching(me, session, evs[..m]) + (if Matches(me, session, evs[m].key, evs[m].msg) then [evs[m]] else [])
  }

  /** The message is for agent `me`, and of the session the reader asked for, if it asked for one. */
  predicate ForReader(me: AgentId, session: Option<string>, x: Item) {
    x.key.session.group == me.group && x.msg.to == me.name && (session == None || session == Some(x.key.session.name))
  }

  lemma {:induction false} MatchingHas(me: AgentId, session: Option<string>, evs: seq<Item>)
    ensures forall x :: x in Matching(me, session, evs) <==> x in evs && ForReader(me, session, x)
    decreases |evs|
  {
    if evs != [] {
      var m := |evs| - 1;
      MatchingHas(me, session, evs[..m]);
      assert evs == evs[..m] + [evs[m]];
    }
  }

  /** Every row is broadcast at most once. */
  ghost predicate BcastOnce(b: Bus) {
    Distinct(b.bcast) && forall i :: 0 <= i < |b.bcast| ==> b.bcast[i].key !in b.unsent
  }

  function FoundRows(r: Role): seq<Item>
    requires r.Reader?
  {
    if r.found.Some? then r.found.value.rows else []
  }

  /** What is written or about to be is the backlog's result and then the matching broadcasts since the subscription. */
  ghost predicate Relayed(bcast: seq<Item>, x: Actor)
    requires x.role.Reader?
  {
    var r := x.role;
    && r.sub <= r.cursor <= |bcast|
    && (r.found.None? ==> InHand(x.pc) == [] && x.out == [])
    && (!r.lagged && !x.pc.Gone? ==> x.out + Todo(x.pc) == FoundRows(r) + Matching(x.me, r.session, bcast[r.sub..r.cursor]))
    && (!r.lagged && r.found.None? ==> r.cursor == r.sub)
  }

  /** The backlog query came after the subscription. */
  ghost predicate QueriedLater(b: Bus, x: Actor)
    requires x.role.Reader?
  {
    var r := x.role;
    r.found.Some? ==>
      && LogGrows(r.found.value.log, b.log) && Window(r.found.value.table, r.found.value.log)
      && (forall i :: 0 <= i < r.sub && i < |b.bcast| ==> InLog(r.found.value.log, b.bcast[i].key))
      && IsSelection(r.found.value.table, BacklogOf(r.found.value.table, x), true, Some(RECV_BACKLOG), r.found.value.rows)
  }

  ghost predicate ReaderOk(b: Bus, x: Actor) {
    x.role.Reader? ==> Relayed(b.bcast, x) && QueriedLater(b, x)
  }

  ghost predicate Readers(s: Sys) {
    BcastOnce(s.bus) && forall i :: 0 <= i < |s.actors| ==> ReaderOk(s.bus, s.actors[i])
  }

  // ----- Steps -----

  lemma RelayedStays(bcast: seq<Item>, bcast': seq<Item>, x: Actor)
    requires x.role.Reader? && bcast <= bcast' && Relayed(bcast, x)
    ensures Relayed(bcast', x)
  {
    assert bcast'[x.role.sub..x.role.cursor] == bcast[x.role.sub..x.role.cursor];
  }

  lemma ReaderStays(b: Bus, b': Bus, x: Actor)
    requires x.role.Reader? && Grows(b, b') && ReaderOk(b, x)
    ensures ReaderOk(b', x)
  {
    RelayedStays(b.bcast, b'.bcast, x);
  }

  lemma TailRelays(b: Bus, x: Actor)
    requires x.role.Reader? && CanStep(b, x, Tail) && Relayed(b.bcast, x)
    ensures Relayed(b.bcast, ActorAfter(b, x, Tail))
  {
    var r, x' := x.role, ActorAfter(b, x, Tail);
    var before, upTo := b.bcast[r.sub..r.cursor], b.bcast[r.sub..r.cursor + 1];
    assert upTo[..|upTo| - 1] == before && upTo[|upTo| - 1] == b.bcast[r.cursor];
    var passed := Matching(x.me, r.session, before);
    assert x.out + [] == x.out;
    ConcatAssoc(FoundRows(r), passed, Todo(x'.pc));
    assert passed + [] == passed;
  }

  lemma BacklogRelays(b: Bus, x: Actor, rows: seq<Item>)
    requires x.role.Reader? && CanStep(b, x, Backlog(rows)) && Relayed(b.bcast, x)
    ensures Relayed(b.bcast, ActorAfter(b, x, Backlog(rows)))
  {
    var r := x.role;
    if !r.lagged {
      assert b.bcast[r.sub..r.cursor] == [];
      assert Todo(Carry(rows)) == rows && [] + rows == rows && rows + [] == rows;
    }
  }

  lemma WriteRelays(b: Bus, x: Actor)
    requires x.role.Reader? && CanStep(b, x, Write) && Relayed(b.bcast, x)
    ensures Relayed(b.bcast, ActorAfter(b, x, Write))
  {
    ShiftOne(x.out, x.pc.rows);
  }

  lemma EventRelays(b: Bus, x: Actor, e: Event)
    requires x.role.Reader? && PcOk(x) && CanStep(b, x, e) && Relayed(b.bcast, x)
    ensures Relayed(b.bcast, ActorAfter(b, x, e))
  {
    match e
    case Tail => TailRelays(b, x);
    case Backlog(rows) => BacklogRelays(b, x, rows);
    case Write => WriteRelays(b, x);
    case _ =>
  }

  lemma EventQueried(b: Bus, x: Actor, e: Event)
    requires x.role.Reader? && Window(b.table, b.log) && BcastSound(b) && CanStep(b, x, e) && QueriedLater(b, x)
    ensures QueriedLater(b, ActorAfter(b, x, e))
  {
  }

  lemma EventReader(b: Bus, x: Actor, e: Event)
    requires x.role.Reader? && PcOk(x) && Window(b.table, b.log) && BcastSound(b) && CanStep(b, x, e) && ReaderOk(b, x)
    ensures ReaderOk(BusAfter(b, x, e), ActorAfter(b, x, e))
  {
    EventRelays(b, x, e);
    EventQueried(b, x, e);
    BusStepGrows(b, x, e);
    ReaderStays(b, BusAfter(b, x, e), ActorAfter(b, x, e));
  }

  lemma StepReader(s: Sys, a: Action, j: nat)
    requires Base(s) && Readers(s) && Can(s, a) && j < |Do(s, a).actors|
    ensures ReaderOk(Do(s, a).bus, Do(s, a).actors[j])
  {
    StepGrows(s, a);
    hide Relayed, QueriedLater, Sound, Grows, Window, BcastOnce;
    if j < |s.actors| {
      assert Sound(s.bus.log, s.actors[j]) && ReaderOk(s.bus, s.actors[j]);
      if s.actors[j].role.Reader? {
        if a.Step? && j == a.i {
          EventReader(s.bus, s.actors[j], a.ev);
        } else {
          ReaderStays(s.bus, Do(s, a).bus, s.actors[j]);
        }
      }
    }
  }

  lemma CommitOnce(b: Bus, session: SessionId, msg: Msg)
    requires Window(b.table, b.log) && BcastSound(b) && BcastOnce(b)
    ensures BcastOnce(Commit(b, session, msg))
  {
    CommitGrows(b, session, msg);
  }

  lemma StepOnce(s: Sys, a: Action)
    requires Base(s) && BcastOnce(s.bus) && Can(s, a)
    ensures BcastOnce(Do(s, a).bus)
  {
    match a
    case Post(to, msg) => CommitOnce(s.bus, to, msg);
    case Step(i, ev) =>
      if ev.PostPrompt? {
        CommitOnce(s.bus, OwnSession(s.actors[i].me), ev.msg);
      }
    case _ =>
  }

  lemma ReadersStep(s: Sys, a: Action)
    requires Base(s) && Readers(s) && Can(s, a)
    ensures Readers(Do(s, a))
  {
    StepOnce(s, a);
    forall j | 0 <= j < |Do(s, a).actors| ensures ReaderOk(Do(s, a).bus, Do(s, a).actors[j]) {
      StepReader(s, a, j);
    }
  }

  lemma {:induction false} ReadersRun(s: Sys, acts: seq<Action>)
    requires Base(s) && Readers(s) && IsRun(s, acts)
    ensures Base(Run(s, acts)) && Readers(Run(s, acts))
    decreases |acts|
  {
    if acts != [] {
      BaseStep(s, acts[0]);
      ReadersStep(s, acts[0]);
      ReadersRun(Do(s, acts[0]), acts[1..]);
    }
  }

  // ----- Counting -----

  lemma {:induction false} CountDistinct(xs: seq<Item>, z: Item)
    requires Distinct(xs)
    ensures Count(xs, z) == if z in xs then 1 else 0
    decreases |xs|
  {
    if xs != [] {
      var m := |xs| - 1;
      assert xs == xs[..m] + [xs[m]];
      CountDistinct(xs[..m], z);
    }
  }

  lemma {:induction false} CountMatching(me: AgentId, session: Option<string>, evs: seq<Item>, z: Item)
    requires Distinct(evs) && Matches(me, session, z.key, z.msg)
    ensures Count(Matching(me, session, evs), z) == if z in evs then 1 else 0
    decreases |evs|
  {
    if evs != [] {
      var m := |evs| - 1;
      assert evs == evs[..m] + [evs[m]];
      CountMatching(me, session, evs[..m], z);
      if Matches(me, session, evs[m].key, evs[m].msg) {
        CountAppend(Matching(me, session, evs[..m]), evs[m], z);
      } else {
        assert Matching(me, session, evs[..m]) + [] == Matching(me, session, evs[..m]);
      }
    }
  }

  // ----- Main result -----

  /** A following reader that has written its backlog and every broadcast so far, and lost none. */
  ghost predicate CaughtUp(s: Sys, i: nat) {
    && IsReader(s, i) && s.actors[i].pc.Free? && s.actors[i].role.follow && !s.actors[i].role.lagged
    && s.actors[i].role.found.Some? && s.actors[i].role.cursor == |s.bus.bcast|
  }

  /** The message was in the table, and still to be read, when the reader queried its backlog. */
  predicate Awaited(r: Role, k: Key)
    requires r.Reader? && r.found.Some?
  {
    k in r.found.value.table && (r.consume ==> r.found.value.table[k].consumed.None?)
  }

  /** The message was broadcast since the reader subscribed. */
  predicate BroadcastSince(bcast: seq<Item>, sub: nat, z: Item) {
    exists n :: sub <= n < |bcast| && bcast[n] == z
  }

  lemma SinceIsMember(bcast: seq<Item>, sub: nat, z: Item)
    requires sub <= |bcast|
    ensures BroadcastSince(bcast, sub, z) <==> z in bcast[sub..]
  {
    if BroadcastSince(bcast, sub, z) {
      var n :| sub <= n < |bcast| && bcast[n] == z;
      assert bcast[sub..][n - sub] == z;
    }
    if z in bcast[sub..] {
      var n :| 0 <= n < |bcast[sub..]| && bcast[sub..][n] == z;
      assert bcast[sub + n] == z;
    }
  }

  lemma InResultIffAwaited(b: Bus, x: Actor, z: Item)
    requires x.role.Reader? && QueriedLater(b, x) && x.role.found.Some? && |x.role.found.value.rows| < RECV_BACKLOG
    requires InLog(b.log, z.key) && z.msg == At(b.log, z.key)
    requires Matches(x.me, x.role.session, z.key, z.msg) && z.msg.ts > After(x.role)
    ensures z in x.role.found.value.rows <==> Awaited(x.role, z.key)
  {
    var f := x.role.found.value;
    if z.key in f.table {
      assert Kept(f.log, z.key) && InLog(f.log, z.key);
      assert f.table[z.key].msg == z.msg;
    }
    if Awaited(x.role, z.key) {
      assert z.key in BacklogOf(f.table, x);
      var n :| 0 <= n < |f.rows| && f.rows[n].key == z.key;
      assert f.rows[n] == z;
    }
  }

  lemma SeamOf(s: Sys, i: nat, z: Item)
    requires Base(s) && Readers(s) && CaughtUp(s, i)
    requires |s.actors[i].role.found.value.rows| < RECV_BACKLOG && InLog(s.bus.log, z.key) && z.msg == At(s.bus.log, z.key)
    requires Matches(s.actors[i].me, s.actors[i].role.session, z.key, z.msg) && z.msg.ts > After(s.actors[i].role)
    ensures var x := s.actors[i];
            Count(x.out, z) == (if Awaited(x.role, z.key) then 1 else 0) + (if BroadcastSince(s.bus.bcast, x.role.sub, z) then 1 else 0)
  {
    var x := s.actors[i];
    var r := x.role;
    assert ReaderOk(s.bus, x);
    var live := s.bus.bcast[r.sub..];
    assert live == s.bus.bcast[r.sub..r.cursor];
    assert x.out + [] == x.out;
    CountConcat(r.found.value.rows, Matching(x.me, r.session, live), z);
    CountDistinct(r.found.value.rows, z);
    assert Distinct(live);
    CountMatching(x.me, r.session, live, z);
    InResultIffAwaited(s.bus, x, z);
    SinceIsMember(s.bus.bcast, r.sub, z);
  }

  /**
   The seam between backlog and live tail. With the backlog under its limit and no time filter
   that excludes it, a matching message was written to a caught-up reader once for awaiting it at
   the query and once for being broadcast since the subscription: so at most twice, and at least
   once if it was awaited, or committed after the query and then broadcast.
   */
  lemma DrainThenTail(s: Sys, acts: seq<Action>, i: nat, z: Item)
    requires Init(s) && IsRun(s, acts) && CaughtUp(Run(s, acts), i)
    requires var e := Run(s, acts);
             && |e.actors[i].role.found.value.rows| < RECV_BACKLOG && InLog(e.bus.log, z.key) && z.msg == At(e.bus.log, z.key)
             && Matches(e.actors[i].me, e.actors[i].role.session, z.key, z.msg) && z.msg.ts > After(e.actors[i].role)
    ensures var e := Run(s, acts);
            var r := e.actors[i].role;
            && Count(e.actors[i].out, z) == (if Awaited(r, z.key) then 1 else 0) + (if BroadcastSince(e.bus.bcast, r.sub, z) then 1 else 0)
            && (!InLog(r.found.value.log, z.key) && z in e.bus.bcast ==> BroadcastSince(e.bus.bcast, r.sub, z))
  {
    var e := Run(s, acts);
    ReadersRun(s, acts);
    SeamOf(e, i, z);
    assert ReaderOk(e.bus, e.actors[i]);
  }

  /** What a reader asked for and where it subscribed never changes. */
  predicate SameReader(x: Actor, x': Actor) {
    && x.role.Reader? && x'.role.Reader? && x'.me == x.me && x'.role.session == x.role.session && x'.role.since == x.role.since
    && x'.role.consume == x.role.consume && x'.role.follow == x.role.follow && x'.role.sub == x.role.sub
  }

  lemma StepKeepsReader(s: Sys, a: Action, i: nat)
    requires Can(s, a) && IsReader(s, i)
    ensures i < |Do(s, a).actors| && SameReader(s.actors[i], Do(s, a).actors[i])
  {
  }

  lemma {:induction false} RunKeepsReader(s: Sys, acts: seq<Action>, i: nat)
    requires Base(s) && IsRun(s, acts) && IsReader(s, i)
    ensures i < |Run(s, acts).actors| && SameReader(s.actors[i], Run(s, acts).actors[i]) && s.bus.bcast <= Run(s, acts).bus.bcast
    decreases |acts|
  {
    hide Can, Do, Base;
    if acts != [] {
      StepKeepsReader(s, acts[0], i);
      BroadcastsStay(s, acts[0]);
      BaseStep(s, acts[0]);
      RunKeepsReader(Do(s, acts[0]), acts[1..], i);
    }
  }

  lemma BroadcastsStay(s: Sys, a: Action)
    requires Base(s) && Can(s, a)
    ensures s.bus.bcast <= Do(s, a).bus.bcast
  {
    StepGrows(s, a);
  }

  /** The reader that subscribes in state `s0`, and the run from there. */
  ghost predicate Subscribes(s: Sys, acts: seq<Action>, me: AgentId, session: Option<string>, since: nat, consume: bool, follow: bool, more: seq<Action>) {
    Init(s) && IsRun(s, acts) && IsRun(Do(Run(s, acts), Subscribe(me, session, since, consume, follow)), more)
  }

  /**
   The seam in terms of the broadcasts alone: a reader that subscribed in `s0` was, once caught up,
   written a matching message once for awaiting it at its query and once if it was broadcast after `s0`.
   */
  lemma DrainThenTailSince(s: Sys, acts: seq<Action>, me: AgentId, session: Option<string>, since: nat, consume: bool, follow: bool, more: seq<Action>, z: Item)
    requires Subscribes(s, acts, me, session, since, consume, follow, more)
    requires var e := Run(Do(Run(s, acts), Subscribe(me, session, since, consume, follow)), more);
             var i := |Run(s, acts).actors|;
             && CaughtUp(e, i) && |e.actors[i].role.found.value.rows| < RECV_BACKLOG && InLog(e.bus.log, z.key) && z.msg == At(e.bus.log, z.key)
    requires ForReader(me, session, z) && z.msg.ts > if consume then 0 else since
    ensures var s0, e := Run(s, acts), Run(Do(Run(s, acts), Subscribe(me, session, since, consume, follow)), more);
            var x := e.actors[|s0.actors|];
            && s0.bus.bcast <= e.bus.bcast
            && Count(x.out, z) == (if Awaited(x.role, z.key) then 1 else 0) + (if z in e.bus.bcast[|s0.bus.bcast|..] then 1 else 0)
  {
    var s0, a := Run(s, acts), Subscribe(me, session, since, consume, follow);
    var s1, i := Do(s0, a), |s0.actors|;
    ReadersRun(s, acts);
    BaseStep(s0, a);
    ReadersStep(s0, a);
    RunKeepsReader(s1, more, i);
    ReadersRun(s1, more);
    SeamOf(Run(s1, more), i, z);
    SinceIsMember(Run(s1, more).bus.bcast, |s0.bus.bcast|, z);
  }
}
