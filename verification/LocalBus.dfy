/**
 The code around the bus table, step by step: the store's statements, `bus_enqueue`, and serving
 one `agent recv` (crates/wt-core/src/store.rs, crates/wt-daemon/src/state.rs and
 crates/wt-daemon/src/ipc.rs). Its writes and marks are tied to the steps of `BusMachine`.
 */
module LocalBus {
  import opened Basics
  import opened BusTable
  import opened BusMachine
  import opened BusFacts
  import opened BusTurns
  import opened BusReaders

  // ----- Runs of one actor -----

  /** `evs` lead the bus `b` and the actor `x` to `b'` and `x'` by steps of the transition system. */
  ghost predicate Leads(b: Bus, x: Actor, evs: seq<Event>, b': Bus, x': Actor)
    decreases |evs|
  {
    if evs == [] then b == b' && x == x'
    else CanStep(b, x, evs[0]) && Leads(BusAfter(b, x, evs[0]), ActorAfter(b, x, evs[0]), evs[1..], b', x')
  }

  lemma {:induction false} LeadsOn(b: Bus, x: Actor, evs: seq<Event>, b1: Bus, x1: Actor, e: Event)
    requires Leads(b, x, evs, b1, x1) && CanStep(b1, x1, e)
    ensures Leads(b, x, evs + [e], BusAfter(b1, x1, e), ActorAfter(b1, x1, e))
    decreases |evs|
  {
    if evs == [] {
      assert (evs + [e])[1..] == [];
    } else {
      assert (evs + [e])[1..] == evs[1..] + [e];
      LeadsOn(BusAfter(b, x, evs[0]), ActorAfter(b, x, evs[0]), evs[1..], b1, x1, e);
    }
  }

  /** An actor that started with `rows` in hand and has written the first `n`. */
  function AtRow(me: AgentId, role: Role, rows: seq<Item>, n: nat): Actor
    requires n <= |rows|
  {
    Actor(me, role, Carry(rows[n..]), rows[..n])
  }

  function RowHanded(me: AgentId, role: Role, rows: seq<Item>, n: nat): Actor
    requires n < |rows|
  {
    Actor(me, role, Handed(rows[n..]), rows[..n + 1])
  }

  /** Writing the next row. */
  lemma WriteLeads(b: Bus, x: Actor, evs: seq<Event>, b1: Bus, me: AgentId, role: Role, rows: seq<Item>, n: nat)
    requires n < |rows| && Leads(b, x, evs, b1, AtRow(me, role, rows, n))
    ensures Leads(b, x, evs + [Write], b1, RowHanded(me, role, rows, n))
  {
    LeadsOn(b, x, evs, b1, AtRow(me, role, rows, n), Write);
    assert rows[..n + 1] == rows[..n] + [rows[n..][0]];
  }

  lemma NextAtRow(me: AgentId, role: Role, rows: seq<Item>, n: nat)
    requires n < |rows|
    ensures var y := RowHanded(me, role, rows, n);
            y.pc.rows != [] && y.pc.rows[0] == rows[n] && y.(pc := Carry(y.pc.rows[1..])) == AtRow(me, role, rows, n + 1)
  {
    assert rows[n..][1..] == rows[n + 1..];
  }

  /** A reader as it subscribed. */
  ghost predicate JustSubscribed(x: Actor, me: AgentId, session: Option<string>, since: nat, consume: bool) {
    && x == Actor(me, x.role, Free, []) && x.role.Reader? && x.role.found.None?
    && x.role.session == session && x.role.since == since && x.role.consume == consume
  }

  function AfterQuery(b: Bus, r: Role, rows: seq<Item>): (r': Role)
    requires r.Reader?
    ensures r'.Reader? && r'.consume == r.consume
  {
    r.(found := Some(Found(b.table, b.log, rows)))
  }

  lemma BacklogLeads(b: Bus, x: Actor, me: AgentId, session: Option<string>, since: nat, consume: bool, rows: seq<Item>)
    requires JustSubscribed(x, me, session, since, consume)
    requires IsSelection(b.table, BacklogKeys(b.table, me, session, if consume then 0 else since, consume), true, Some(RECV_BACKLOG), rows)
    ensures IsSelection(b.table, BacklogOf(b.table, x), true, Some(RECV_BACKLOG), rows)
    ensures Leads(b, x, [Backlog(rows)], b, AtRow(me, AfterQuery(b, x.role, rows), rows, 0))
  {
    LeadsOn(b, x, [], b, x, Backlog(rows));
    assert rows[0..] == rows && [] + [Backlog(rows)] == [Backlog(rows)];
  }

  function StepsOf(i: nat, evs: seq<Event>): seq<Action> {
    if evs == [] then [] else [Step(i, evs[0])] + StepsOf(i, evs[1..])
  }

  /** What one actor's code does undisturbed is a run of the whole system. */
  lemma {:induction false} LeadsIsARun(s: Sys, i: nat, evs: seq<Event>, b': Bus, x': Actor)
    requires i < |s.actors| && Leads(s.bus, s.actors[i], evs, b', x')
    ensures IsRun(s, StepsOf(i, evs)) && Run(s, StepsOf(i, evs)) == Sys(b', s.actors[i := x'])
    decreases |evs|
  {
    if evs == [] {
      assert s.actors[i := x'] == s.actors;
    } else {
      var a := Step(i, evs[0]);
      var s1 := Do(s, a);
      LeadsIsARun(s1, i, evs[1..], b', x');
      assert s1.actors[i := x'] == s.actors[i := x'];
      assert StepsOf(i, evs)[0] == a && StepsOf(i, evs)[1..] == StepsOf(i, evs[1..]);
    }
  }

  // ----- Selecting rows -----

  lemma HeldOrLeft(items: seq<Item>, x: Item, left: set<Key>)
    requires forall k :: k in left ==> !Holds(items, k)
    requires x.key in left && Distinct(items)
    ensures Distinct(items + [x])
    ensures forall k :: Holds(items + [x], k) <==> Holds(items, k) || k == x.key
  {
    forall k ensures Holds(items + [x], k) <==> Holds(items, k) || k == x.key {
      HoldsSnoc(items, x, k);
    }
    forall i | 0 <= i < |items| ensures items[i].key != x.key {
      assert Holds(items, items[i].key);
    }
  }

  /** `a` was enqueued before `b`, or at the same time under a number no larger. */
  predicate Earlier(a: Item, b: Item) {
    a.msg.ts < b.msg.ts || (a.msg.ts == b.msg.ts && a.key.num <= b.key.num)
  }

  /** `items` are the unconsumed messages of one kind for `a`, by number, none twice. */
  ghost predicate ListsPending(t: Table, a: AgentId, kind: Kind, items: seq<Item>) {
    && (forall i :: 0 <= i < |items| ==> items[i].key in t && items[i].msg == t[items[i].key].msg)
    && (forall i, j :: 0 <= i < j < |items| ==> items[i].key != items[j].key)
    && (forall i, j :: 0 <= i < j < |items| ==> items[i].key.num <= items[j].key.num)
    && (forall k :: Holds(items, k) <==>
          (k in t && k.session.group == a.group && t[k].msg.to == a.name && t[k].msg.kind == kind && t[k].consumed == None))
  }

  lemma PendingListed(t: Table, a: AgentId, kind: Kind, items: seq<Item>)
    requires IsSelection(t, PendingKeys(t, a, kind), false, None, items)
    ensures ListsPending(t, a, kind, items)
  {
    forall k ensures Holds(items, k) <==> k in PendingKeys(t, a, kind) {
    }
  }

  /** The message is for `a`, of the session asked for if any, later than `after`, and unconsumed if that is asked for. */
  predicate Wanted(t: Table, a: AgentId, session: Option<string>, after: nat, unconsumedOnly: bool, k: Key) {
    && k in t && k.session.group == a.group && t[k].msg.to == a.name && t[k].msg.ts > after
    && (session == None || session == Some(k.session.name)) && (unconsumedOnly ==> t[k].consumed == None)
  }

  /** `items` are the earliest of the messages wanted, in order, none twice, and all of them below the limit. */
  ghost predicate ListsBacklog(t: Table, a: AgentId, session: Option<string>, after: nat, unconsumedOnly: bool, limit: nat, items: seq<Item>) {
    && |items| <= limit
    && (forall i :: 0 <= i < |items| ==> Wanted(t, a, session, after, unconsumedOnly, items[i].key) && items[i].msg == t[items[i].key].msg)
    && (forall i, j :: 0 <= i < j < |items| ==> items[i].key != items[j].key)
    && (forall i, j :: 0 <= i < j < |items| ==> Earlier(items[i], items[j]))
    && (forall k :: Wanted(t, a, session, after, unconsumedOnly, k) ==>
          Holds(items, k) || (|items| == limit && forall i :: 0 <= i < |items| ==> Earlier(items[i], Item(k, t[k].msg))))
  }

  lemma BacklogListed(t: Table, a: AgentId, session: Option<string>, after: nat, unconsumedOnly: bool, limit: nat, items: seq<Item>)
    requires IsSelection(t, BacklogKeys(t, a, session, after, unconsumedOnly), true, Some(limit), items)
    ensures ListsBacklog(t, a, session, after, unconsumedOnly, limit, items)
  {
    forall k | Wanted(t, a, session, after, unconsumedOnly, k)
      ensures Holds(items, k) || (|items| == limit && forall i :: 0 <= i < |items| ==> Earlier(items[i], Item(k, t[k].msg)))
    {
      assert k in BacklogKeys(t, a, session, after, unconsumedOnly);
    }
  }

  /** `items` are the first of the rows at `keys`, those at `left` are still to be selected. */
  ghost predicate Selecting(t: Table, keys: set<Key>, byTime: bool, limit: Option<nat>, items: seq<Item>, left: set<Key>) {
    && left <= keys <= t.Keys && (limit.Some? ==> |items| <= limit.value)
    && (forall i :: 0 <= i < |items| ==> items[i].key in keys && items[i].msg == t[items[i].key].msg)
    && (forall k :: k in keys ==> (k in left <==> !Holds(items, k)))
    && Distinct(items) && Ordered(byTime, items)
    && (forall i, k :: 0 <= i < |items| && k in left ==> Before(byTime, items[i], Item(k, t[k].msg)))
  }

  lemma SelectOneMore(t: Table, keys: set<Key>, byTime: bool, limit: Option<nat>, items: seq<Item>, left: set<Key>, k: Key)
    requires Selecting(t, keys, byTime, limit, items, left) && k in left && (limit.Some? ==> |items| < limit.value)
    requires forall x :: x in left ==> Before(byTime, Item(k, t[k].msg), Item(x, t[x].msg))
    ensures Selecting(t, keys, byTime, limit, items + [Item(k, t[k].msg)], left - {k})
  {
    HeldOrLeft(items, Item(k, t[k].msg), left);
    hide Before, Holds;
  }

  /** What the store's rows are within everything that ever happened to the bus. */
  ghost predicate Account(rows: Table, b: Bus) {
    b.table == rows && Window(rows, b.log) && BcastSound(b) && BcastOnce(b)
  }

  lemma AccountCommit(rows: Table, b: Bus, session: SessionId, msg: Msg)
    requires Account(rows, b)
    ensures var n := Top(rows, session) + 1;
            && n == |Of(b.log, session)| + 1
            && Account(Trim(rows[Key(session, n) := Row(msg, None)], session, n), Commit(b, session, msg))
  {
    CommitGrows(b, session, msg);
    BcastCommit(b, session, msg);
    CommitOnce(b, session, msg);
  }

  lemma AccountWindow(rows: Table, b: Bus, session: SessionId, n: nat)
    requires Account(rows, b) && |Of(b.log, session)| == n
    ensures forall k: Key :: k.session == session ==> (k in rows <==> Low(n) <= k.num <= n)
  {
    forall k: Key | k.session == session ensures k in rows <==> Low(n) <= k.num <= n {
      assert k in rows <==> Kept(b.log, k);
    }
  }

  lemma AccountPublish(rows: Table, b: Bus, k: Key)
    requires Account(rows, b) && k in b.unsent
    ensures InLog(b.log, k) && Account(rows, Published(b, k))
  {
  }

  /** A broadcast of `k`, if it is still to be made. */
  ghost function PublishIf(b: Bus, k: Key): Bus {
    if k in b.unsent && InLog(b.log, k) then Published(b, k) else b
  }

  /** What a successful `bus_enqueue` does to the bus: it commits the message and broadcasts it. */
  ghost function Enqueued(b: Bus, session: SessionId, msg: Msg): Bus {
    var c, k := Commit(b, session, msg), Key(session, |Of(b.log, session)| + 1);
    c.(unsent := c.unsent - {k}, bcast := c.bcast + [Item(k, msg)])
  }

  lemma EnqueuedIs(b: Bus, session: SessionId, msg: Msg)
    requires Window(b.table, b.log)
    ensures var k := Key(session, |Of(b.log, session)| + 1);
            InLog(Commit(b, session, msg).log, k) && k in Commit(b, session, msg).unsent && Enqueued(b, session, msg) == Published(Commit(b, session, msg), k)
  {
    TopIsCount(b.table, b.log, session);
  }

  lemma AccountConsume(rows: Table, b: Bus, k: Key, now: nat)
    requires Account(rows, b)
    ensures Account(MarkConsumed(rows, k, now), Consumes(b, k, now))
  {
    MarkKeepsWindow(rows, b.log, k, now);
  }

  /** Whatever of `items` is still in the table is consumed. */
  ghost predicate AllConsumed(t: Table, items: seq<Item>) {
    forall i :: 0 <= i < |items| && items[i].key in t ==> t[items[i].key].consumed.Some?
  }

  lemma ConsumeOneMore(t: Table, items: seq<Item>, n: nat, now: nat)
    requires n < |items| && AllConsumed(t, items[..n])
    ensures AllConsumed(MarkConsumed(t, items[n].key, now), items[..n + 1])
  {
    var t' := MarkConsumed(t, items[n].key, now);
    forall i | 0 <= i <= n && items[i].key in t' ensures t'[items[i].key].consumed.Some? {
      assert i < n ==> items[..n][i] == items[i];
    }
  }

  lemma ConsumeLast(t: Table, items: seq<Item>, x: Item, now: nat)
    requires AllConsumed(t, items)
    ensures AllConsumed(MarkConsumed(t, x.key, now), items + [x])
  {
    assert (items + [x])[..|items|] == items;
    ConsumeOneMore(t, items + [x], |items|, now);
    assert (items + [x])[..|items| + 1] == items + [x];
  }

  class BusStore {
    /** No call of the store fails. */
    const reliable: bool
    var rows: Table
    /** The rows within everything that ever happened to the bus. */
    ghost var bus: Bus

    ghost predicate Valid()
      reads this
    {
      Account(rows, bus)
    }

    constructor (reliable: bool)
      ensures Valid() && bus == Bus(map[], map[], {}, [], {}) && this.reliable == reliable
    {
      this.reliable := reliable;
      rows, bus := map[], Bus(map[], map[], {}, [], {});
    }

    /** MAX(seq) of one session, 0 if it has no rows. */
    method MaxSeq(session: SessionId) returns (m: nat)
      ensures m == Top(rows, session)
    {
      m := 0;
      var rest := rows.Keys;
      while rest != {}
        invariant rest <= rows.Keys && IsTopAmong(rows.Keys - rest, session, m)
        decreases |rest|
      {
        var k :| k in rest;
        if k.session == session && k.num > m {
          m := k.num;
        }
        rest := rest - {k};
      }
    }

    /** Appends a message under the next number of its session and trims the session to its window. */
    method AgentMsgEnqueue(session: SessionId, msg: Msg) returns (num: nat)
      requires Valid()
      modifies this
      ensures Valid() && bus == Commit(old(bus), session, msg)
      ensures num == |Of(old(bus).log, session)| + 1
      ensures forall k: Key :: k.session == session ==> (k in rows <==> 1 <= k.num <= num && k.num > num - 5000)
      ensures rows[Key(session, num)] == Row(msg, None)
      ensures forall k: Key :: k != Key(session, num) ==> (k in rows ==> k in old(rows) && rows[k] == old(rows)[k])
      ensures forall k: Key :: k.session != session ==> (k in rows <==> k in old(rows))
    {
      AccountCommit(rows, bus, session, msg);
      var top := MaxSeq(session);
      num := top + 1;
      rows := rows[Key(session, num) := Row(msg, None)];
      rows := Trim(rows, session, num);
      bus := Commit(bus, session, msg);
      AccountWindow(rows, bus, session, num);
    }

    method AgentMsgMarkConsumed(key: Key, now: nat)
      requires Valid()
      modifies this
      ensures Valid() && bus == Consumes(old(bus), key, now)
      ensures rows.Keys == old(rows).Keys && (key in rows ==> rows[key] == Row(old(rows)[key].msg, Some(now)))
      ensures forall k :: k in rows && k != key ==> rows[k] == old(rows)[k]
    {
      AccountConsume(rows, bus, key, now);
      if key in rows {
        rows := rows[key := rows[key].(consumed := Some(now))];
      }
      bus := Consumes(bus, key, now);
    }

    method First(keys: set<Key>, byTime: bool) returns (k: Key)
      requires keys != {} && keys <= rows.Keys
      ensures k in keys && forall x :: x in keys ==> Before(byTime, Item(k, rows[k].msg), Item(x, rows[x].msg))
    {
      k :| k in keys;
      var rest := keys - {k};
      while rest != {}
        invariant rest <= keys && k in keys
        invariant forall x :: x in keys - rest ==> Before(byTime, Item(k, rows[k].msg), Item(x, rows[x].msg))
        decreases |rest|
      {
        var x :| x in rest;
        if !Before(byTime, Item(k, rows[k].msg), Item(x, rows[x].msg)) {
          k := x;
        }
        rest := rest - {x};
      }
    }

    /** The rows at `keys`, ordered and limited. */
    method Select(keys: set<Key>, byTime: bool, limit: Option<nat>) returns (items: seq<Item>)
      requires keys <= rows.Keys
      ensures IsSelection(rows, keys, byTime, limit, items)
    {
      items := [];
      var left := keys;
      while left != {} && (limit.None? || |items| < limit.value)
        invariant Selecting(rows, keys, byTime, limit, items, left)
        decreases |left|
      {
        var k := First(left, byTime);
        SelectOneMore(rows, keys, byTime, limit, items, left, k);
        items, left := items + [Item(k, rows[k].msg)], left - {k};
      }
    }

    method AgentMsgPending(a: AgentId, kind: Kind) returns (items: seq<Item>)
      ensures IsSelection(rows, PendingKeys(rows, a, kind), false, None, items)
      ensures ListsPending(rows, a, kind, items)
    {
      items := Select(PendingKeys(rows, a, kind), false, None);
      PendingListed(rows, a, kind, items);
    }

    method AgentMsgBacklog(a: AgentId, session: Option<string>, after: nat, limit: nat, unconsumedOnly: bool) returns (items: seq<Item>)
      ensures IsSelection(rows, BacklogKeys(rows, a, session, after, unconsumedOnly), true, Some(limit), items)
      ensures ListsBacklog(rows, a, session, after, unconsumedOnly, limit, items)
    {
      items := Select(BacklogKeys(rows, a, session, after, unconsumedOnly), true, Some(limit));
      BacklogListed(rows, a, session, after, unconsumedOnly, limit, items);
    }

    /** Commits a message and publishes it; nothing is published if the commit failed. */
    method BusEnqueue(session: SessionId, msg: Msg) returns (num: Option<nat>)
      requires Valid()
      modifies this
      ensures Valid()
      ensures num.None? ==> !reliable && rows == old(rows) && bus == old(bus)
      ensures num.Some? ==> num.value == |Of(old(bus).log, session)| + 1
      ensures num.Some? ==> bus == Enqueued(old(bus), session, msg)
      ensures num.Some? ==> bus.bcast == old(bus).bcast + [Item(Key(session, num.value), msg)] && rows[Key(session, num.value)] == Row(msg, None)
    {
      var up: bool := *;
      if !up && !reliable {
        return None;
      }
      EnqueuedIs(bus, session, msg);
      var n := AgentMsgEnqueue(session, msg);
      AccountPublish(rows, bus, Key(session, n));
      bus := Published(bus, Key(session, n));
      return Some(n);
    }

    /** A mark that failed: only the history knows of it. */
    method MissMark(key: Key)
      requires Valid()
      modifies this
      ensures Valid() && bus == Skips(old(bus), key)
    {
      AccountSkips(rows, bus, key);
      bus := Skips(bus, key);
    }

    /** Broadcasts a row committed before. */
    method Publish(key: Key)
      requires Valid()
      modifies this
      ensures Valid() && bus == PublishIf(old(bus), key)
    {
      if key in bus.unsent {
        AccountPublish(rows, bus, key);
        bus := Published(bus, key);
      }
    }

    /**
     Marks the row its actor has just handed out, if the actor consumes. A failed mark is ignored.
     `evs` are the actor's steps since `b` and `x`, of which this is the next.
     */
    method MarkHanded(ghost b: Bus, ghost x: Actor, ghost evs: seq<Event>, ghost y: Actor, key: Key, consume: bool, now: nat)
      returns (ghost evs': seq<Event>, ghost y': Actor)
      requires Valid() && Leads(b, x, evs, bus, y)
      requires y.pc.Handed? && y.pc.rows != [] && y.pc.rows[0].key == key && Marks(y.role) == consume
      modifies this
      ensures Valid() && Leads(b, x, evs', bus, y') && y' == y.(pc := Carry(y.pc.rows[1..]))
      ensures bus.log == old(bus).log && bus.bcast == old(bus).bcast
      ensures consume && reliable ==> bus == Consumes(old(bus), key, now)
    {
      var up: bool := *;
      if consume && (up || reliable) {
        LeadsOn(b, x, evs, bus, y, Mark(now));
        evs', y' := evs + [Mark(now)], ActorAfter(bus, y, Mark(now));
        AgentMsgMarkConsumed(key, now);
      } else {
        LeadsOn(b, x, evs, bus, y, NoMark);
        evs', y' := evs + [NoMark], ActorAfter(bus, y, NoMark);
        bus := BusAfter(bus, y, NoMark);
      }
    }

    /** Writes a reader, which `stays` to the end or may go at any time, row `n` of its backlog, and marks it if it consumes. */
    method WriteRow(ghost b: Bus, ghost x: Actor, ghost evs0: seq<Event>, me: AgentId, ghost role: Role, items: seq<Item>, n: nat,
                    consume: bool, stays: bool, now: nat)
      returns (ok: bool, ghost evs: seq<Event>)
      requires Valid() && role.Reader? && role.consume == consume && n < |items|
      requires Leads(b, x, evs0, bus, AtRow(me, role, items, n))
      modifies this
      ensures Valid() && (stays ==> ok)
      ensures ok ==> Leads(b, x, evs, bus, AtRow(me, role, items, n + 1))
      ensures !ok ==> Leads(b, x, evs, bus, Actor(me, role, Gone, items[..n])) && bus == old(bus)
      ensures ok && consume && reliable && AllConsumed(old(rows), items[..n]) ==> AllConsumed(rows, items[..n + 1])
    {
      ok := *;
      ok := ok || stays;
      if !ok {
        LeadsOn(b, x, evs0, bus, AtRow(me, role, items, n), Leave);
        return false, evs0 + [Leave];
      }
      WriteLeads(b, x, evs0, bus, me, role, items, n);
      NextAtRow(me, role, items, n);
      if AllConsumed(rows, items[..n]) {
        ConsumeOneMore(rows, items, n, now);
      }
      ghost var y;
      evs, y := MarkHanded(b, x, evs0 + [Write], RowHanded(me, role, items, n), items[n].key, consume, now);
    }

    /** The rows of a backlog in order, up to the first failed write. */
    method WriteRows(ghost b: Bus, ghost x: Actor, ghost evs0: seq<Event>, me: AgentId, ghost role: Role, items: seq<Item>,
                     consume: bool, stays: bool, now: nat)
      returns (n: nat, ghost evs: seq<Event>)
      requires Valid() && role.Reader? && role.consume == consume && Leads(b, x, evs0, bus, AtRow(me, role, items, 0))
      modifies this
      ensures Valid() && n <= |items|
      ensures Leads(b, x, evs, bus, Actor(me, role, if n == |items| then Free else Gone, items[..n]))
      ensures (stays ==> n == |items|) && (consume && reliable ==> AllConsumed(rows, items[..n]))
    {
      n, evs := 0, evs0;
      while n < |items|
        invariant Valid() && n <= |items| && Leads(b, x, evs, bus, AtRow(me, role, items, n))
        invariant consume && reliable ==> AllConsumed(rows, items[..n])
      {
        var ok;
        ok, evs := WriteRow(b, x, evs, me, role, items, n, consume, stays, now);
        if !ok {
          return;
        }
        n := n + 1;
      }
    }

    /**
     The backlog part of `agent recv`: the rows it asks for, in order, each marked after its write
     if it consumes. Its steps are steps of the transition system.
     */
    method ServeBacklog(ghost x: Actor, me: AgentId, session: Option<string>, since: nat, consume: bool, stays: bool, now: nat)
      returns (written: seq<Item>, done: bool, ghost items: seq<Item>, ghost evs: seq<Event>)
      requires Valid() && JustSubscribed(x, me, session, since, consume)
      modifies this
      ensures Valid() && IsSelection(old(rows), BacklogOf(old(rows), x), true, Some(RECV_BACKLOG), items)
      ensures ListsBacklog(old(rows), me, session, if consume then 0 else since, consume, 10_000, items)
      ensures Leads(old(bus), x, evs, bus, Actor(me, AfterQuery(old(bus), x.role, items), if done then Free else Gone, written))
      ensures written <= items && (done <==> written == items) && (stays ==> done)
      ensures consume && reliable ==> AllConsumed(rows, written)
    {
      ghost var b := bus;
      var found := AgentMsgBacklog(me, session, if consume then 0 else since, RECV_BACKLOG, consume);
      items := found;
      BacklogLeads(b, x, me, session, since, consume, found);
      var n;
      n, evs := WriteRows(b, x, [Backlog(found)], me, AfterQuery(b, x.role, found), found, consume, stays, now);
      written, done := found[..n], n == |found|;
    }

    /** One broadcast of the live tail: written if it is for the reader, and then marked if it consumes. */
    method TailEvent(ghost b: Bus, ghost x: Actor, ghost evs0: seq<Event>, ghost role: Role, ghost out: seq<Item>,
                     me: AgentId, session: Option<string>, consume: bool, stays: bool, ev: Item, now: nat)
      returns (ok: bool, written: seq<Item>, ghost evs: seq<Event>)
      requires Valid() && Leads(b, x, evs0, bus, Actor(me, role, Free, out)) && Tailing(role) && CanHear(bus.bcast, role, Next(ev))
      requires role.session == session && role.consume == consume
      modifies this
      ensures Valid() && bus.bcast == old(bus).bcast
      ensures (stays ==> ok) && written == if ok then Matching(me, session, [ev]) else []
      ensures Leads(b, x, evs, bus, TailedTo(me, HearOne(role, Next(ev)), ok, out + written))
      ensures consume && reliable && AllConsumed(old(rows), out) ==> AllConsumed(rows, out + written)
    {
      assert [ev][..0] == [] && out + [] == out;
      TailLeads(b, x, evs0, bus, me, role, out, ev);
      if !Matches(me, session, ev.key, ev.msg) {
        return true, [], evs0 + [Tail];
      }
      ok := *;
      ok := ok || stays;
      if !ok {
        LeadsOn(b, x, evs0 + [Tail], bus, Actor(me, HearOne(role, Next(ev)), Working([ev]), out), Leave);
        return false, [], evs0 + [Tail] + [Leave];
      }
      LeadsOn(b, x, evs0 + [Tail], bus, Actor(me, HearOne(role, Next(ev)), Working([ev]), out), Write);
      written := [ev];
      if AllConsumed(rows, out) {
        ConsumeLast(rows, out, ev, now);
      }
      ghost var y;
      evs, y := MarkHanded(b, x, evs0 + [Tail] + [Write], Actor(me, HearOne(role, Next(ev)), Handed([ev]), out + [ev]), ev.key, consume, now);
    }

    /** One outcome of the live tail's receive: a broadcast, or the news that some were lost. */
    method HearNext(ghost b: Bus, ghost x: Actor, ghost evs0: seq<Event>, ghost role: Role, ghost out: seq<Item>,
                    me: AgentId, session: Option<string>, consume: bool, stays: bool, heard: Heard, now: nat)
      returns (ok: bool, written: seq<Item>, ghost evs: seq<Event>)
      requires Valid() && Leads(b, x, evs0, bus, Actor(me, role, Free, out)) && Tailing(role) && CanHear(bus.bcast, role, heard)
      requires role.session == session && role.consume == consume
      modifies this
      ensures Valid() && bus.bcast == old(bus).bcast
      ensures (stays ==> ok) && written == if ok then Matching(me, session, HeardItems([heard])) else []
      ensures Leads(b, x, evs, bus, TailedTo(me, HearOne(role, heard), ok, out + written))
      ensures consume && reliable && AllConsumed(old(rows), out) ==> AllConsumed(rows, out + written)
    {
      hide Leads, AllConsumed, Matching;
      HearAlone(heard);
      match heard
      case Next(ev) =>
        ok, written, evs := TailEvent(b, x, evs0, role, out, me, session, consume, stays, ev, now);
      case Lost(n) =>
        LagLeads(b, x, evs0, bus, me, role, out, n);
        MatchingNone(me, session);
        ok, written, evs := true, [], evs0 + [Lag(role.cursor + n)];
        assert out + [] == out;
    }

    /**
     The live tail of `agent recv --follow` over the next outcomes of its receive: the broadcasts for
     the reader are written in order, up to the first failed write; those lost by lagging are skipped.
     */
    method FollowTail(ghost x: Actor, me: AgentId, session: Option<string>, consume: bool, stays: bool, events: seq<Heard>, now: nat)
      returns (n: nat, written: seq<Item>, ok: bool, ghost evs: seq<Event>)
      requires Valid() && x == Actor(me, x.role, Free, x.out) && Tailing(x.role)
      requires x.role.session == session && x.role.consume == consume && Upcoming(bus.bcast, x.role, events)
      modifies this
      ensures Valid() && n <= |events| && (stays ==> ok) && (ok ==> n == |events|) && (!ok ==> n > 0)
      ensures written == Matching(me, session, HeardItems(events[..if ok then n else n - 1]))
      ensures forall x :: x in written <==> x in HeardItems(events[..if ok then n else n - 1]) && ForReader(me, session, x)
      ensures Leads(old(bus), x, evs, bus, TailedTo(me, Hearing(x.role, events[..n]), ok, x.out + written))
      ensures consume && reliable && AllConsumed(old(rows), x.out) ==> AllConsumed(rows, x.out + written)
    {
      hide Leads, AllConsumed, Matching, HeardItems, Hearing, CanHear;
      ghost var b, bcast, role, out := bus, bus.bcast, x.role, x.out;
      ghost var sure := consume && reliable && AllConsumed(rows, out);
      n, written, evs := 0, [], [];
      TailStarts(b, x, me, session, role, out, events);
      while n < |events|
        invariant n <= |events| && Valid() && bus.bcast == bcast
        invariant Leads(b, x, evs, bus, TailedTo(me, Hearing(role, events[..n]), true, out + written))
        invariant written == Matching(me, session, HeardItems(events[..n]))
        invariant sure ==> AllConsumed(rows, out + written)
      {
        HearOneMore(me, session, role, events, n);
        var one;
        ok, one, evs := HearNext(b, x, evs, Hearing(role, events[..n]), out + written, me, session, consume, stays, events[n], now);
        ConcatAssoc(out, written, one);
        if !ok {
          assert written + one == written && events[..n + 1 - 1] == events[..n];
          MatchingHas(me, session, HeardItems(events[..n]));
          return n + 1, written + one, false, evs;
        }
        written, n := written + one, n + 1;
      }
      ok := true;
      MatchingHas(me, session, HeardItems(events[..n]));
    }

    /**
     The end of `start`: the prompt the child was started with is put on the bus, for observers, and
     marked at once. Only a failed mark leaves it for the drain; nothing else becomes pending. Its
     steps lead actor `i` of `s` from its start to its first drain.
     */
    method RecordPrompt(ghost s: Sys, ghost i: nat, me: AgentId, prime: string, payload: Bytes, now: nat)
      returns (key: Option<Key>, marked: bool, ghost acts: seq<Action>)
      requires Valid() && s.bus == bus && IsSupervisor(s, i) && s.actors[i].pc.PromptDue? && s.actors[i].me == me
      modifies this
      ensures Valid() && IsRun(s, acts)
      ensures Run(s, acts) == Sys(bus, s.actors[i := s.actors[i].(pc := Free, role := Prompted(s.actors[i].role, key))])
      ensures key.None? ==> rows == old(rows) && bus == old(bus)
      ensures reliable ==> key.Some? && marked
      ensures key.Some? ==> key.value == Key(OwnSession(me), |Of(old(bus).log, OwnSession(me))| + 1)
      ensures key.Some? ==> bus.log == Logged(old(bus).log, OwnSession(me), Msg(prime, me.name, TurnInput, payload, now))
      ensures key.Some? ==> bus.skipped == old(bus).skipped + (if marked then {} else {key.value})
      ensures forall k :: PendingFor(rows, me, TurnInput, k) ==> PendingFor(old(rows), me, TurnInput, k) || (key == Some(k) && !marked)
    {
      hide Account, PendingFor, Commit, Enqueued, IsRun, Run, Can, Do, Window, Logged, Of, PromptSteps, MarkConsumed;
      var msg := Msg(prime, me.name, TurnInput, payload, now);
      PromptOnBus(rows, bus, me, msg, true, now);
      PromptOnBus(rows, bus, me, msg, false, now);
      AccountHas(rows, bus);
      ghost var b := bus;
      var num := BusEnqueue(OwnSession(me), msg);
      if num.None? {
        LostPromptIsARun(s, i);
        return None, false, [Step(i, PromptLost)];
      }
      key := Some(Key(OwnSession(me), num.value));
      marked := *;
      marked := marked || reliable;
      PromptIsARun(s, i, msg, key.value, if marked then MarkPrompt(now) else PromptUnmarked);
      acts := PromptSteps(i, msg, key.value, if marked then MarkPrompt(now) else PromptUnmarked);
      if marked {
        AgentMsgMarkConsumed(key.value, now);
      } else {
        AccountSkips(rows, bus, key.value);
        bus := Skips(bus, key.value);
      }
      AccountHas(rows, bus);
      assert bus == PromptBus(b, me, msg, marked, now);
    }
  }

  lemma AccountHas(rows: Table, b: Bus)
    requires Account(rows, b)
    ensures rows == b.table && Window(b.table, b.log)
  {
  }

  lemma AccountSkips(rows: Table, b: Bus, k: Key)
    requires Account(rows, b)
    ensures Account(rows, Skips(b, k))
  {
  }

  /** The bus after a prompt was put on it and marked, or failed to be. */
  ghost function PromptBus(b: Bus, me: AgentId, msg: Msg, marked: bool, now: nat): Bus {
    var k := Key(OwnSession(me), |Of(b.log, OwnSession(me))| + 1);
    if marked then Consumes(Enqueued(b, OwnSession(me), msg), k, now) else Skips(Enqueued(b, OwnSession(me), msg), k)
  }

  /** What the prompt is on the bus: logged under its key, and pending only if its mark failed. */
  lemma PromptOnBus(rows: Table, b: Bus, me: AgentId, msg: Msg, marked: bool, now: nat)
    requires Account(rows, b)
    ensures var b', p := PromptBus(b, me, msg, marked, now), Key(OwnSession(me), |Of(b.log, OwnSession(me))| + 1);
            && b'.log == Logged(b.log, OwnSession(me), msg) && b'.skipped == b.skipped + (if marked then {} else {p})
            && forall k :: PendingFor(b'.table, me, TurnInput, k) ==> PendingFor(rows, me, TurnInput, k) || (k == p && !marked)
  {
    PendingAfterCommit(rows, b, OwnSession(me), msg, me);
  }

  function Prompted(r: Role, key: Option<Key>): Role
    requires r.Supervisor?
  {
    if key.Some? then r.(prompt := key) else r
  }

  function PromptSteps(i: nat, msg: Msg, k: Key, last: Event): seq<Action> {
    [Step(i, PostPrompt(msg)), Publish(k), Step(i, last)]
  }

  lemma LostPromptIsARun(s: Sys, i: nat)
    requires IsSupervisor(s, i) && s.actors[i].pc.PromptDue?
    ensures IsRun(s, [Step(i, PromptLost)])
    ensures Run(s, [Step(i, PromptLost)]) == Sys(s.bus, s.actors[i := s.actors[i].(pc := Free)])
  {
    RunCons(s, Step(i, PromptLost), []);
    assert [Step(i, PromptLost)] + [] == [Step(i, PromptLost)];
  }

  /** An actor whose prompt has got key `k`, once it is marked or failed to be. */
  function PromptedActor(x: Actor, k: Key): Actor
    requires x.role.Supervisor?
  {
    x.(pc := Free, role := Prompted(x.role, Some(k)))
  }

  lemma MarkingPromptIsARun(b: Bus, actors: seq<Actor>, i: nat, x: Actor, k: Key, last: Event)
    requires i < |actors| && x.role.Supervisor? && actors[i] == x.(role := Prompted(x.role, Some(k)), pc := PromptMark(k))
    requires last.MarkPrompt? || last.PromptUnmarked?
    ensures IsRun(Sys(b, actors), [Step(i, last)])
    ensures Run(Sys(b, actors), [Step(i, last)]) ==
              Sys(if last.MarkPrompt? then Consumes(b, k, last.now) else Skips(b, k), actors[i := PromptedActor(x, k)])
  {
    RunCons(Sys(b, actors), Step(i, last), []);
    assert [Step(i, last)] + [] == [Step(i, last)];
  }

  lemma PostedPrompt(s: Sys, i: nat, msg: Msg, k: Key)
    requires Window(s.bus.table, s.bus.log) && IsSupervisor(s, i) && CanStep(s.bus, s.actors[i], PostPrompt(msg))
    requires k == Key(OwnSession(s.actors[i].me), |Of(s.bus.log, OwnSession(s.actors[i].me))| + 1)
    ensures var x, s1 := s.actors[i], Do(s, Step(i, PostPrompt(msg)));
            && s1.bus == Commit(s.bus, OwnSession(x.me), msg) && Can(s1, Publish(k))
            && Do(s1, Publish(k)) == Sys(Enqueued(s.bus, OwnSession(x.me), msg),
                                         s.actors[i := x.(role := Prompted(x.role, Some(k)), pc := PromptMark(k))])
  {
    EnqueuedIs(s.bus, OwnSession(s.actors[i].me), msg);
    TopIsCount(s.bus.table, s.bus.log, OwnSession(s.actors[i].me));
  }

  /** Posting the prompt, broadcasting it, and marking it or failing to. */
  lemma PromptIsARun(s: Sys, i: nat, msg: Msg, k: Key, last: Event)
    requires Window(s.bus.table, s.bus.log) && IsSupervisor(s, i) && CanStep(s.bus, s.actors[i], PostPrompt(msg))
    requires k == Key(OwnSession(s.actors[i].me), |Of(s.bus.log, OwnSession(s.actors[i].me))| + 1)
    requires last.MarkPrompt? || last.PromptUnmarked?
    ensures var b, acts := Enqueued(s.bus, OwnSession(s.actors[i].me), msg), PromptSteps(i, msg, k, last);
            && IsRun(s, acts)
            && Run(s, acts) == Sys(if last.MarkPrompt? then Consumes(b, k, last.now) else Skips(b, k),
                                   s.actors[i := PromptedActor(s.actors[i], k)])
  {
    PostedPrompt(s, i, msg, k);
    var s1 := Do(s, Step(i, PostPrompt(msg)));
    var s2 := Do(s1, Publish(k));
    MarkingPromptIsARun(s2.bus, s2.actors, i, s.actors[i], k, last);
    assert s2.actors[i := PromptedActor(s.actors[i], k)] == s.actors[i := PromptedActor(s.actors[i], k)];
    RunCons(s1, Publish(k), [Step(i, last)]);
    RunCons(s, Step(i, PostPrompt(msg)), [Publish(k)] + [Step(i, last)]);
    assert [Step(i, PostPrompt(msg))] + ([Publish(k)] + [Step(i, last)]) == PromptSteps(i, msg, k, last);
  }

  /** What the live tail's receive yields: the next broadcast, or that `n` of them were lost. */
  datatype Heard = Next(ev: Item) | Lost(n: nat)

  predicate CanHear(bcast: seq<Item>, r: Role, heard: Heard)
    requires r.Reader?
  {
    match heard
    case Next(ev) => r.cursor < |bcast| && ev == bcast[r.cursor]
    case Lost(n) => 0 < n && r.cursor + n <= |bcast|
  }

  function HearOne(r: Role, heard: Heard): (r': Role)
    requires r.Reader?
    ensures r'.Reader? && r'.session == r.session && r'.consume == r.consume && r'.found == r.found && r'.follow == r.follow
  {
    match heard
    case Next(_) => r.(cursor := r.cursor + 1)
    case Lost(n) => r.(cursor := r.cursor + n, lagged := true)
  }

  /** A reader once it has heard `events`. */
  function Hearing(r: Role, events: seq<Heard>): (r': Role)
    requires r.Reader?
    ensures r'.Reader? && r'.session == r.session && r'.consume == r.consume && r'.found == r.found && r'.follow == r.follow
  {
    if events == [] then r else HearOne(Hearing(r, events[..|events| - 1]), events[|events| - 1])
  }

  function HeardItems(events: seq<Heard>): seq<Item> {
    if events == [] then [] else
      HeardItems(events[..|events| - 1]) + (if events[|events| - 1].Next? then [events[|events| - 1].ev] else [])
  }

  /** `events` can be what the receive yields next. */
  predicate Upcoming(bcast: seq<Item>, r: Role, events: seq<Heard>)
    requires r.Reader?
  {
    forall i :: 0 <= i < |events| ==> CanHear(bcast, Hearing(r, events[..i]), events[i])
  }

  /** A reader in its live tail. */
  predicate Tailing(r: Role) {
    r.Reader? && r.found.Some? && r.follow
  }

  lemma HearAlone(heard: Heard)
    ensures HeardItems([heard]) == if heard.Next? then [heard.ev] else []
  {
    assert [heard][..0] == [];
  }

  lemma MatchingNone(me: AgentId, session: Option<string>)
    ensures Matching(me, session, []) == []
  {
  }

  lemma TailStarts(b: Bus, x: Actor, me: AgentId, session: Option<string>, role: Role, out: seq<Item>, events: seq<Heard>)
    requires role.Reader? && x == Actor(me, role, Free, out)
    ensures Leads(b, x, [], b, TailedTo(me, Hearing(role, events[..0]), true, out + []))
    ensures Matching(me, session, HeardItems(events[..0])) == [] && out + [] == out
  {
    assert out + [] == out && events[..0] == [];
  }

  lemma TailLeads(b: Bus, x: Actor, evs: seq<Event>, b1: Bus, me: AgentId, role: Role, out: seq<Item>, ev: Item)
    requires Tailing(role) && CanHear(b1.bcast, role, Next(ev)) && Leads(b, x, evs, b1, Actor(me, role, Free, out))
    ensures Leads(b, x, evs + [Tail], b1,
                  Actor(me, HearOne(role, Next(ev)), if Matches(me, role.session, ev.key, ev.msg) then Working([ev]) else Free, out))
  {
    LeadsOn(b, x, evs, b1, Actor(me, role, Free, out), Tail);
  }

  lemma LagLeads(b: Bus, x: Actor, evs: seq<Event>, b1: Bus, me: AgentId, role: Role, out: seq<Item>, n: nat)
    requires Tailing(role) && CanHear(b1.bcast, role, Lost(n)) && Leads(b, x, evs, b1, Actor(me, role, Free, out))
    ensures Leads(b, x, evs + [Lag(role.cursor + n)], b1, TailedTo(me, HearOne(role, Lost(n)), true, out))
  {
    LeadsOn(b, x, evs, b1, Actor(me, role, Free, out), Lag(role.cursor + n));
  }

  /** The reader in its tail, or gone. */
  function TailedTo(me: AgentId, r: Role, live: bool, out: seq<Item>): Actor {
    Actor(me, r, if live then Free else Gone, out)
  }

  /** One more outcome of the receive adds its broadcast, if it is for the reader. */
  lemma HearOneMore(me: AgentId, session: Option<string>, r: Role, events: seq<Heard>, n: nat)
    requires r.Reader? && n < |events|
    ensures Hearing(r, events[..n + 1]) == HearOne(Hearing(r, events[..n]), events[n])
    ensures Matching(me, session, HeardItems(events[..n + 1])) ==
              Matching(me, session, HeardItems(events[..n])) + Matching(me, session, HeardItems([events[n]]))
  {
    assert events[..n + 1][..n] == events[..n];
    var before := HeardItems(events[..n]);
    HearAlone(events[n]);
    if events[n].Next? {
      assert (before + [events[n].ev])[..|before|] == before && [events[n].ev][..0] == [];
    } else {
      assert before + [] == before && Matching(me, session, before) + [] == Matching(me, session, before);
    }
  }

  lemma PendingAfterCommit(rows: Table, b: Bus, session: SessionId, msg: Msg, me: AgentId)
    requires Account(rows, b)
    ensures forall k :: PendingFor(Enqueue(rows, session, msg), me, TurnInput, k) ==>
              PendingFor(rows, me, TurnInput, k) || k == Key(session, |Of(b.log, session)| + 1)
  {
    CommitGrows(b, session, msg);
  }
}
