/**
 The code of the sending side, step by step: the outbox statements of the store, one drain of a
 peer's outbox in batches, and the loop of a delivery task (crates/wt-core/src/store.rs and
 crates/wt-daemon/src/state.rs). Every method is tied to the steps of `Delivery`.
 */
module Drain {
  import opened Basics
  import opened Messages
  import opened Delivery
  import Framing

  // ----- Batches and the simple drain -----

  /** The rows of `items` have been marked delivered and no other; rows enqueued meanwhile are unmarked. */
  ghost predicate Marks(t: Table, t': Table, items: seq<Item>) {
    && t.Keys <= t'.Keys
    && (forall k :: k in t && Holds(items, k) ==> SameMessage(t[k], t'[k]) && t'[k].delivered.Some?)
    && (forall k :: k in t && !Holds(items, k) ==> t'[k] == t[k])
    && (forall k :: k in t' && k !in t ==> t'[k].direction == Out && t'[k].delivered.None?)
  }

  /** Exactly the rows of `items` have been marked delivered, and nothing else has happened. */
  ghost predicate MarkedExactly(t: Table, t': Table, items: seq<Item>) {
    Marks(t, t', items) && t'.Keys == t.Keys
  }

  lemma HoldsAppend(a: seq<Item>, b: seq<Item>, k: Key)
    ensures Holds(a + b, k) <==> Holds(a, k) || Holds(b, k)
  {
    if Holds(a, k) {
      var i :| 0 <= i < |a| && a[i].key == k;
      assert (a + b)[i].key == k;
    }
    if Holds(b, k) {
      var i :| 0 <= i < |b| && b[i].key == k;
      assert (a + b)[|a| + i].key == k;
    }
  }

  /** What is still pending once `items` are marked. */
  lemma PendingLeft(t: Table, t': Table, peer: NodeId, items: seq<Item>, k: Key)
    requires MarkedExactly(t, t', items)
    ensures Pending(t', peer, k) <==> Pending(t, peer, k) && !Holds(items, k)
  {
  }

  /** The oldest of what is left, after the oldest, are the oldest of all. */
  lemma OldestCompose(t: Table, t': Table, peer: NodeId, a: seq<Item>, b: seq<Item>)
    requires OldestPending(t, peer, a) && MarkedExactly(t, t', a) && OldestPending(t', peer, b)
    ensures OldestPending(t, peer, a + b)
  {
    var s := a + b;
    forall i | 0 <= i < |b| ensures Pending(t, peer, b[i].key) && !Holds(a, b[i].key) && b[i].row == t[b[i].key] {
      PendingLeft(t, t', peer, a, b[i].key);
    }
    forall i, j | 0 <= i < j < |s| ensures s[i].key != s[j].key && s[i].row.ts <= s[j].row.ts {
      if i < |a| <= j {
        assert Holds(a, a[i].key) && !Holds(a, b[j - |a|].key);
      }
    }
    forall i, k | 0 <= i < |s| && Pending(t, peer, k) && !Holds(s, k) ensures s[i].row.ts <= t[k].ts {
      HoldsAppend(a, b, k);
      PendingLeft(t, t', peer, a, k);
      if i >= |a| {
        assert s[i] == b[i - |a|];
      }
    }
  }

  /** A start of the oldest pending rows is again one. */
  lemma OldestPrefix(t: Table, peer: NodeId, rows: seq<Item>, n: nat)
    requires OldestPending(t, peer, rows) && n <= |rows|
    ensures OldestPending(t, peer, rows[..n])
  {
    var a := rows[..n];
    forall i, k | 0 <= i < |a| && Pending(t, peer, k) && !Holds(a, k) ensures a[i].row.ts <= t[k].ts {
      assert rows == a + rows[n..];
      HoldsAppend(a, rows[n..], k);
      if Holds(rows, k) {
        var j :| 0 <= j < |rows[n..]| && rows[n..][j].key == k;
        assert rows[n + j].key == k;
      }
    }
  }

  /** The simple drain: take the oldest pending row, mark it, repeat. */
  ghost predicate OneByOne(t: Table, peer: NodeId, items: seq<Item>)
    decreases |items|
  {
    items == [] ||
    (IsQuery(t, peer, 1, items[..1]) && OneByOne(MarkDelivered(t, items[0].key, 0), peer, items[1..]))
  }

  lemma MarkFirst(t: Table, peer: NodeId, item: Item)
    requires Pending(t, peer, item.key)
    ensures MarkedExactly(t, MarkDelivered(t, item.key, 0), [item])
  {
    assert forall k :: Holds([item], k) <==> k == item.key by {
      assert [item][0] == item;
    }
  }

  lemma OldestTail(t: Table, peer: NodeId, items: seq<Item>)
    requires items != [] && OldestPending(t, peer, items)
    ensures OldestPending(MarkDelivered(t, items[0].key, 0), peer, items[1..])
  {
    var t', rest := MarkDelivered(t, items[0].key, 0), items[1..];
    MarkFirst(t, peer, items[0]);
    forall i | 0 <= i < |rest| ensures Pending(t', peer, rest[i].key) && rest[i].row == t'[rest[i].key] {
      assert rest[i] == items[i + 1] && items[0].key != items[i + 1].key;
    }
    forall i, k | 0 <= i < |rest| && Pending(t', peer, k) && !Holds(rest, k) ensures rest[i].row.ts <= t'[k].ts {
      assert rest[i] == items[i + 1] && k != items[0].key;
      assert items == items[..1] + rest;
      HoldsAppend(items[..1], rest, k);
    }
  }

  /** Draining in batches delivers exactly the sequences that draining one row at a time can deliver. */
  lemma {:induction false} BatchesRefineOneByOne(t: Table, peer: NodeId, items: seq<Item>)
    ensures OldestPending(t, peer, items) <==> OneByOne(t, peer, items)
    decreases |items|
  {
    if items != [] {
      var first, rest, t' := items[..1], items[1..], MarkDelivered(t, items[0].key, 0);
      assert items == first + rest && first == [items[0]];
      BatchesRefineOneByOne(t', peer, rest);
      if OldestPending(t, peer, items) {
        OldestPrefix(t, peer, items, 1);
        OldestTail(t, peer, items);
      }
      if OneByOne(t, peer, items) {
        MarkFirst(t, peer, items[0]);
        OldestCompose(t, t', peer, first, rest);
      }
    }
  }

  // ----- The outbox and inbox statements -----

  class MessageStore {
    const hash: Hash
    var messages: Table

    constructor (hash: Hash)
      ensures messages == map[] && this.hash == hash
    {
      this.hash, messages := hash, map[];
    }

    /** Appends an outbound message under the next number of its sender and channel id. */
    method OutboxEnqueue(sender: NodeId, peer: NodeId, channel: string, payload: Bytes, now: nat) returns (item: Item)
      modifies this
      ensures messages == Enqueue(hash, old(messages), sender, peer, channel, payload, now)
      ensures item.key == NextKey(hash, old(messages), sender, channel) && item.row == messages[item.key]
      ensures item.key !in old(messages) && Pending(messages, peer, item.key)
      ensures item.row == Row(Out, channel, peer, payload, now, None) && item.key.sender == sender && item.key.cid == hash(channel)
      ensures messages.Keys == old(messages).Keys + {item.key} && forall k :: k in old(messages) ==> messages[k] == old(messages)[k]
    {
      var cid := hash(channel);
      var top, rest := 0, messages.Keys;
      while rest != {}
        invariant rest <= messages.Keys && IsTopAmong(messages.Keys - rest, sender, cid, top)
        decreases |rest|
      {
        var k :| k in rest;
        if k.sender == sender && k.cid == cid && k.num > top {
          top := k.num;
        }
        rest := rest - {k};
      }
      assert messages.Keys - rest == messages.Keys;
      TopIsUnique(messages.Keys, sender, cid, top, TopSeq(messages, sender, cid));
      item := Item(Key(sender, cid, top + 1), Row(Out, channel, peer, payload, now, None));
      messages := messages[item.key := item.row];
    }

    method OutboxPendingPeers() returns (peers: set<NodeId>)
      ensures peers == PendingPeers(messages)
    {
      peers := {};
      var rest := messages.Keys;
      while rest != {}
        invariant rest <= messages.Keys
        invariant peers == set k | k in messages.Keys - rest && Pending(messages, messages[k].peer, k) :: messages[k].peer
        decreases |rest|
      {
        var k :| k in rest;
        if Pending(messages, messages[k].peer, k) {
          peers := peers + {messages[k].peer};
        }
        rest := rest - {k};
      }
    }

    method Oldest(keys: set<Key>) returns (k: Key)
      requires keys != {} && keys <= messages.Keys
      ensures k in keys && forall x :: x in keys ==> messages[k].ts <= messages[x].ts
    {
      k :| k in keys;
      var rest := keys - {k};
      while rest != {}
        invariant rest <= keys && k in keys
        invariant forall x :: x in keys - rest ==> messages[k].ts <= messages[x].ts
        decreases |rest|
      {
        var x :| x in rest;
        if messages[x].ts < messages[k].ts {
          k := x;
        }
        rest := rest - {x};
      }
    }

    method OutboxPendingForPeer(peer: NodeId, limit: nat) returns (rows: seq<Item>)
      ensures IsQuery(messages, peer, limit, rows)
    {
      rows := [];
      var left := PendingKeys(messages, peer);
      while left != {} && |rows| < limit
        invariant left <= messages.Keys && |rows| <= limit
        invariant forall k :: k in left <==> Pending(messages, peer, k) && !Holds(rows, k)
        invariant ArePending(messages, peer, rows) && OldestFirst(rows)
        invariant forall i, k :: 0 <= i < |rows| && k in left ==> rows[i].row.ts <= messages[k].ts
        decreases |left|
      {
        var k := Oldest(left);
        AddOldest(messages, peer, rows, k);
        rows := rows + [Item(k, messages[k])];
        left := left - {k};
      }
    }

    /** Afterwards an outbox row of that key is delivered, pending for nobody; every other row is as it was. */
    method OutboxMarkDelivered(key: Key, now: nat)
      modifies this
      ensures Grows(old(messages), messages) && messages.Keys == old(messages).Keys
      ensures forall peer :: !Pending(messages, peer, key)
      ensures key in messages && messages[key].direction == Out ==> messages[key].delivered == Some(now)
      ensures forall k :: k in messages && !(k == key && messages[k].direction == Out) ==> messages[k] == old(messages)[k]
      ensures messages == MarkDelivered(old(messages), key, now)
    {
      if key in messages && messages[key].direction == Out {
        messages := messages[key := messages[key].(delivered := Some(now))];
      }
    }

    /** Records an inbound message; true iff its key was free. */
    method RecordInbound(sender: NodeId, channel: string, num: nat, payload: Bytes, ts: nat, now: nat) returns (isNew: bool)
      modifies this
      ensures messages == InboxRecord(hash, old(messages), sender, channel, num, payload, ts, now)
      ensures isNew <==> InboxKey(hash, sender, channel, num) !in old(messages)
      ensures isNew ==> messages == old(messages)[Key(sender, hash(channel), num) := Row(In, channel, sender, payload, ts, Some(now))]
      ensures !isNew ==> messages == old(messages)
    {
      var k := InboxKey(hash, sender, channel, num);
      isNew := k !in messages;
      if isNew {
        messages := messages[k := Row(In, channel, sender, payload, ts, Some(now))];
      }
    }
  }

  lemma TopIsUnique(keys: set<Key>, sender: NodeId, cid: Bytes, a: nat, b: nat)
    requires IsTopAmong(keys, sender, cid, a) && IsTopAmong(keys, sender, cid, b)
    ensures a == b
  {
  }

  /** Adding a pending row that is not held yet and not older than those held. */
  lemma AddOldest(t: Table, peer: NodeId, rows: seq<Item>, k: Key)
    requires ArePending(t, peer, rows) && OldestFirst(rows) && Pending(t, peer, k) && !Holds(rows, k)
    requires forall i :: 0 <= i < |rows| ==> rows[i].row.ts <= t[k].ts
    ensures ArePending(t, peer, rows + [Item(k, t[k])]) && OldestFirst(rows + [Item(k, t[k])])
    ensures forall x :: Holds(rows + [Item(k, t[k])], x) <==> Holds(rows, x) || x == k
  {
    forall x ensures Holds(rows + [Item(k, t[k])], x) <==> Holds(rows, x) || x == k {
      HoldsAppend(rows, [Item(k, t[k])], x);
      assert Holds([Item(k, t[k])], x) <==> [Item(k, t[k])][0].key == x;
    }
    NoneHeldTwice(rows, k);
  }

  lemma NoneHeldTwice(rows: seq<Item>, k: Key)
    requires !Holds(rows, k)
    ensures forall i :: 0 <= i < |rows| ==> rows[i].key != k
  {
  }

  // ----- Runs of one task -----

  /** A message other code of this install enqueues. */
  datatype Arrival = Arrival(peer: NodeId, channel: string, payload: Bytes, now: nat)

  /** A step of the task, or a message enqueued by other code in between. */
  datatype Move = Own(ev: TaskEvent) | Arrives(a: Arrival)

  ghost predicate CanMove(me: NodeId, l: Local, m: Move) {
    match m
    case Own(ev) => CanTask(l, ev)
    case Arrives(a) => a.peer != me
  }

  ghost function EnqueueOne(h: Hash, me: NodeId, t: Table, a: Arrival): Table {
    Enqueue(h, t, me, a.peer, a.channel, a.payload, a.now)
  }

  ghost function DoMove(h: Hash, me: NodeId, l: Local, m: Move): Local
    requires CanMove(me, l, m)
  {
    match m
    case Own(ev) => DoTask(me, l, ev)
    case Arrives(a) => l.(table := EnqueueOne(h, me, l.table, a))
  }

  /** `moves` lead one task from `l` to `l'` by steps of the transition system. */
  ghost predicate Leads(h: Hash, me: NodeId, l: Local, moves: seq<Move>, l': Local)
    decreases |moves|
  {
    if moves == [] then l == l'
    else CanMove(me, l, moves[0]) && Leads(h, me, DoMove(h, me, l, moves[0]), moves[1..], l')
  }

  lemma {:induction false} LeadsOn(h: Hash, me: NodeId, l: Local, moves: seq<Move>, l': Local, m: Move)
    requires Leads(h, me, l, moves, l') && CanMove(me, l', m)
    ensures Leads(h, me, l, moves + [m], DoMove(h, me, l', m))
    decreases |moves|
  {
    hide CanMove, DoMove;
    if moves == [] {
      assert (moves + [m])[1..] == [] && (moves + [m])[0] == m;
      assert Leads(h, me, DoMove(h, me, l, m), [], DoMove(h, me, l, m));
    } else {
      assert (moves + [m])[1..] == moves[1..] + [m];
      LeadsOn(h, me, DoMove(h, me, l, moves[0]), moves[1..], l', m);
    }
  }

  function ActionOf(n: NodeId, t: nat, m: Move): Action {
    match m
    case Own(ev) => TaskStep(n, t, ev)
    case Arrives(a) => Send(n, a.peer, a.channel, a.payload, a.now)
  }

  function StepsOf(n: NodeId, t: nat, moves: seq<Move>): seq<Action> {
    if moves == [] then [] else [ActionOf(n, t, moves[0])] + StepsOf(n, t, moves[1..])
  }

  /** The system after a task and the outbox of its install have changed. */
  ghost function WithLocal(s: Sys, n: NodeId, t: nat, l: Local): Sys
    requires IsTask(s, n, t)
  {
    SetNode(s, n, s.nodes[n].(table := l.table, tasks := s.nodes[n].tasks[t := l.task])).(net := l.net)
  }

  lemma MoveIsAStep(h: Hash, s: Sys, n: NodeId, t: nat, m: Move)
    requires IsTask(s, n, t) && s.nodes[n].tasks[t].peer in s.nodes && CanMove(n, View(s, n, t), m)
    ensures Can(s, ActionOf(n, t, m)) && Do(h, s, ActionOf(n, t, m)) == WithLocal(s, n, t, DoMove(h, n, View(s, n, t), m))
    ensures DoMove(h, n, View(s, n, t), m).task.peer == s.nodes[n].tasks[t].peer
  {
    assert s.nodes[n].tasks[t := s.nodes[n].tasks[t]] == s.nodes[n].tasks;
  }

  lemma WithLocalTwice(s: Sys, n: NodeId, t: nat, l: Local, l': Local)
    requires IsTask(s, n, t)
    ensures IsTask(WithLocal(s, n, t, l), n, t) && View(WithLocal(s, n, t, l), n, t) == l
    ensures WithLocal(WithLocal(s, n, t, l), n, t, l') == WithLocal(s, n, t, l')
  {
    assert s.nodes[n].tasks[t := l.task][t := l'.task] == s.nodes[n].tasks[t := l'.task];
  }

  /** What the code of one task does, with messages enqueued at any point, is a run of the whole system. */
  lemma {:induction false} LeadsIsARun(h: Hash, s: Sys, n: NodeId, t: nat, moves: seq<Move>, l': Local)
    requires IsTask(s, n, t) && s.nodes[n].tasks[t].peer in s.nodes && Leads(h, n, View(s, n, t), moves, l')
    ensures IsRun(h, s, StepsOf(n, t, moves)) && Run(h, s, StepsOf(n, t, moves)) == WithLocal(s, n, t, l')
    decreases |moves|
  {
    if moves == [] {
      assert s.nodes[n].tasks[t := l'.task] == s.nodes[n].tasks;
      assert s.nodes[n := s.nodes[n]] == s.nodes;
    } else {
      var l1 := DoMove(h, n, View(s, n, t), moves[0]);
      MoveIsAStep(h, s, n, t, moves[0]);
      WithLocalTwice(s, n, t, l1, l');
      hide Can, Do, CanMove, DoMove, WithLocal;
      WithLocalHas(s, n, t, l1);
      LeadsIsARun(h, WithLocal(s, n, t, l1), n, t, moves[1..], l');
      assert StepsOf(n, t, moves)[0] == ActionOf(n, t, moves[0]) && StepsOf(n, t, moves)[1..] == StepsOf(n, t, moves[1..]);
    }
  }

  lemma WithLocalHas(s: Sys, n: NodeId, t: nat, l: Local)
    requires IsTask(s, n, t)
    ensures WithLocal(s, n, t, l).nodes.Keys == s.nodes.Keys && WithLocal(s, n, t, l).nodes[n].tasks[t] == l.task
  {
  }

  /** The messages enqueued along the way. */
  function ArrivalsOf(moves: seq<Move>): seq<Arrival> {
    if moves == [] then [] else
      ArrivalsOf(moves[..|moves| - 1]) + (if moves[|moves| - 1].Arrives? then [moves[|moves| - 1].a] else [])
  }

  lemma ArrivalsOn(moves: seq<Move>, m: Move)
    ensures ArrivalsOf(moves + [m]) == ArrivalsOf(moves) + (if m.Arrives? then [m.a] else [])
  {
    assert (moves + [m])[..|moves|] == moves;
  }

  /** Where a task is with the rows from `i` on to be delivered. */
  function RowsFrom(rows: seq<Item>, i: nat): Pc
    requires i <= |rows|
  {
    if i < |rows| then Deliver(rows[i..]) else Query
  }

  lemma NextRowFrom(rows: seq<Item>, i: nat)
    requires i < |rows|
    ensures NextRow(rows[i..]) == RowsFrom(rows, i + 1)
  {
    assert rows[i..][1..] == rows[i + 1..];
  }

  /** The next row of a batch is still as it was queried when its turn comes. */
  lemma NextStillPending(t1: Table, t: Table, peer: NodeId, rows: seq<Item>, i: nat)
    requires ArePending(t1, peer, rows) && i < |rows| && Marks(t1, t, rows[..i])
    ensures Pending(t, peer, rows[i].key) && t[rows[i].key] == t1[rows[i].key]
  {
    NotYetHeld(rows, i);
  }

  /** Marking on, whatever was enqueued in between. */
  lemma MarksCompose(t0: Table, t1: Table, t: Table, a: seq<Item>, b: seq<Item>)
    requires Marks(t0, t1, a) && Marks(t1, t, b) && forall i :: 0 <= i < |b| ==> b[i].key in t0
    ensures Marks(t0, t, a + b)
  {
    forall k ensures Holds(a + b, k) <==> Holds(a, k) || Holds(b, k) {
      HoldsAppend(a, b, k);
    }
    forall k | Holds(b, k) ensures k in t0 {
      var i :| 0 <= i < |b| && b[i].key == k;
    }
  }

  lemma MarksNothing(t: Table)
    ensures Marks(t, t, [])
  {
  }

  lemma MarksThrough(t0: Table, t1: Table, t: Table)
    requires Marks(t0, t1, []) && Marks(t1, t, [])
    ensures Marks(t0, t, [])
  {
    MarksCompose(t0, t1, t, [], []);
  }

  lemma MarksNone(t0: Table, t: Table, peer: NodeId, k: Key)
    requires Marks(t0, t, []) && Pending(t0, peer, k)
    ensures Pending(t, peer, k) && t[k] == t0[k]
  {
  }

  lemma MarksRow(t0: Table, t: Table, row: Item, peer: NodeId, now: nat)
    requires Marks(t0, t, []) && Pending(t0, peer, row.key)
    ensures Marks(t0, MarkDelivered(t, row.key, now), [row])
  {
    assert forall k :: Holds([row], k) <==> k == row.key by {
      assert [row][0] == row;
    }
  }

  lemma MarksArrival(h: Hash, me: NodeId, t: Table, a: Arrival)
    ensures Marks(t, EnqueueOne(h, me, t, a), [])
  {
    NextKeyIsNew(h, t, me, a.channel);
  }

  lemma MarkedCompose(t0: Table, t1: Table, t: Table, a: seq<Item>, b: seq<Item>)
    requires MarkedExactly(t0, t1, a) && MarkedExactly(t1, t, b)
    ensures MarkedExactly(t0, t, a + b)
  {
    forall k ensures Holds(a + b, k) <==> Holds(a, k) || Holds(b, k) {
      HoldsAppend(a, b, k);
    }
  }

  /** A batch adds the rows it delivered to the order of the whole drain. */
  lemma BatchExtends(t0: Table, t1: Table, t: Table, peer: NodeId, before: seq<Item>, rows: seq<Item>, n: nat)
    requires OldestPending(t0, peer, before) && MarkedExactly(t0, t1, before)
    requires OldestPending(t1, peer, rows) && n <= |rows| && MarkedExactly(t1, t, rows[..n])
    ensures OldestPending(t0, peer, before + rows[..n])
    ensures MarkedExactly(t0, t, before + rows[..n])
  {
    OldestPrefix(t1, peer, rows, n);
    OldestCompose(t0, t1, peer, before, rows[..n]);
    MarkedCompose(t0, t1, t, before, rows[..n]);
  }

  lemma NotYetHeld(rows: seq<Item>, i: nat)
    requires i < |rows| && forall a, b :: 0 <= a < b < |rows| ==> rows[a].key != rows[b].key
    ensures !Holds(rows[..i], rows[i].key)
  {
  }

  lemma FewerPending(t1: Table, t: Table, peer: NodeId, rows: seq<Item>)
    requires rows != [] && ArePending(t1, peer, rows) && MarkedExactly(t1, t, rows)
    ensures |PendingKeys(t, peer)| < |PendingKeys(t1, peer)|
  {
    assert Holds(rows, rows[0].key);
    forall k | k in PendingKeys(t, peer) ensures k in PendingKeys(t1, peer) - {rows[0].key} {
      PendingLeft(t1, t, peer, rows, k);
    }
    FewerElements(PendingKeys(t, peer), PendingKeys(t1, peer) - {rows[0].key});
  }

  lemma {:induction false} FewerElements(a: set<Key>, b: set<Key>)
    requires a <= b
    ensures |a| <= |b|
    decreases |a|
  {
    if a != {} {
      var k :| k in a;
      FewerElements(a - {k}, b - {k});
    }
  }

  // ----- The delivery task -----

  /** Every pending row of the peer has a frame within the limit. */
  ghost predicate AllFit(t: Table, peer: NodeId, encode: Frame -> Bytes) {
    forall k :: Pending(t, peer, k) ==> Fits(encode, FrameOf(Item(k, t[k])))
  }

  /** What a drain has done so far: the oldest pending rows are marked, nothing else, and all of them fit. */
  ghost predicate Progress(t0: Table, t: Table, peer: NodeId, encode: Frame -> Bytes, sent: seq<Item>) {
    && OldestPending(t0, peer, sent) && MarkedExactly(t0, t, sent)
    && forall i :: 0 <= i < |sent| ==> Fits(encode, FrameOf(sent[i]))
  }

  lemma OldestArePending(t: Table, peer: NodeId, rows: seq<Item>)
    requires OldestPending(t, peer, rows)
    ensures ArePending(t, peer, rows)
  {
  }

  /** A batch adds the rows it delivered; if it stopped at a row that does not fit, that row was pending all along. */
  lemma ProgressOn(t0: Table, t1: Table, t: Table, peer: NodeId, encode: Frame -> Bytes, before: seq<Item>, rows: seq<Item>, n: nat)
    requires Progress(t0, t1, peer, encode, before) && OldestPending(t1, peer, rows) && n <= |rows|
    requires MarkedExactly(t1, t, rows[..n]) && forall i :: 0 <= i < n ==> Fits(encode, FrameOf(rows[i]))
    ensures Progress(t0, t, peer, encode, before + rows[..n])
    ensures n < |rows| && !Fits(encode, FrameOf(rows[n])) ==> !AllFit(t0, peer, encode)
  {
    hide Fits, OldestPending, Marks;
    BatchExtends(t0, t1, t, peer, before, rows, n);
    OldestArePending(t1, peer, rows);
    if n < |rows| {
      OversizeIsPending(t0, t1, peer, before, rows, n);
    }
  }

  lemma OversizeIsPending(t0: Table, t1: Table, peer: NodeId, before: seq<Item>, rows: seq<Item>, n: nat)
    requires MarkedExactly(t0, t1, before) && ArePending(t1, peer, rows) && n < |rows|
    ensures Pending(t0, peer, rows[n].key) && rows[n] == Item(rows[n].key, t0[rows[n].key])
  {
    PendingLeft(t0, t1, peer, before, rows[n].key);
  }

  /** One query of a drain: the table it saw, the rows it got, and how many of them were delivered. */
  datatype Pull = Pull(table: Table, rows: seq<Item>, done: nat)

  /** The rows are the oldest pending ones at the time of the query, and those delivered are its first, all within the limit. */
  ghost predicate PullOk(peer: NodeId, encode: Frame -> Bytes, p: Pull) {
    && OldestPending(p.table, peer, p.rows) && p.done <= |p.rows|
    && forall i :: 0 <= i < p.done ==> Fits(encode, FrameOf(p.rows[i]))
  }

  /**
   The queries of a drain so far, each on the table that the deliveries of the one before and the
   messages enqueued since have left. Nothing else is marked.
   */
  ghost predicate Drained(t0: Table, t: Table, peer: NodeId, encode: Frame -> Bytes, pulls: seq<Pull>)
    decreases |pulls|
  {
    if pulls == [] then Marks(t0, t, [])
    else
      var p := pulls[|pulls| - 1];
      Drained(t0, p.table, peer, encode, pulls[..|pulls| - 1]) && PullOk(peer, encode, p) && Marks(p.table, t, p.rows[..p.done])
  }

  /** Everything a drain delivered, in order. */
  function Sent(pulls: seq<Pull>): seq<Item> {
    if pulls == [] then [] else
      var p := pulls[|pulls| - 1];
      Sent(pulls[..|pulls| - 1]) + (if p.done <= |p.rows| then p.rows[..p.done] else [])
  }

  lemma DrainedOn(t0: Table, t1: Table, t: Table, peer: NodeId, encode: Frame -> Bytes, pulls: seq<Pull>, rows: seq<Item>, n: nat)
    requires Drained(t0, t1, peer, encode, pulls) && n <= |rows| && PullOk(peer, encode, Pull(t1, rows, n)) && Marks(t1, t, rows[..n])
    ensures Drained(t0, t, peer, encode, pulls + [Pull(t1, rows, n)])
  {
    assert (pulls + [Pull(t1, rows, n)])[..|pulls|] == pulls;
  }

  /** Messages enqueued after the last delivery make no difference to it. */
  lemma DrainedThen(t0: Table, t1: Table, t: Table, peer: NodeId, encode: Frame -> Bytes, pulls: seq<Pull>)
    requires Drained(t0, t1, peer, encode, pulls) && Marks(t1, t, [])
    ensures Drained(t0, t, peer, encode, pulls)
  {
    if pulls == [] {
      MarksCompose(t0, t1, t, [], []);
    } else {
      var p := pulls[|pulls| - 1];
      MarksCompose(p.table, t1, t, p.rows[..p.done], []);
      assert p.rows[..p.done] + [] == p.rows[..p.done];
    }
  }

  lemma {:induction false} DrainedGrows(t0: Table, t: Table, peer: NodeId, encode: Frame -> Bytes, pulls: seq<Pull>)
    requires Drained(t0, t, peer, encode, pulls)
    ensures t0.Keys <= t.Keys
    decreases |pulls|
  {
    if pulls != [] {
      DrainedGrows(t0, pulls[|pulls| - 1].table, peer, encode, pulls[..|pulls| - 1]);
    }
  }

  /**
   With nothing enqueued meanwhile, what a drain delivers over all its queries is a gapless run of the
   rows that were the oldest at its start.
   */
  lemma {:induction false} UndisturbedDrain(t0: Table, t: Table, peer: NodeId, encode: Frame -> Bytes, pulls: seq<Pull>)
    requires Drained(t0, t, peer, encode, pulls) && t.Keys == t0.Keys
    ensures Progress(t0, t, peer, encode, Sent(pulls))
    decreases |pulls|
  {
    if pulls != [] {
      var p := pulls[|pulls| - 1];
      DrainedGrows(t0, p.table, peer, encode, pulls[..|pulls| - 1]);
      UndisturbedDrain(t0, p.table, peer, encode, pulls[..|pulls| - 1]);
      ProgressOn(t0, p.table, t, peer, encode, Sent(pulls[..|pulls| - 1]), p.rows, p.done);
    }
  }

  /** How a wait of the delivery task ends. */
  datatype WakeUp = Woken | HandlesDropped | RetryDue | ShutdownSeen

  /** One wait: what is enqueued meanwhile, to any peer, and how it ends. */
  datatype Wait = Wait(arrivals: seq<Arrival>, wake: WakeUp)

  /** The table after the arrivals. */
  ghost function Arrived(h: Hash, me: NodeId, t: Table, arrivals: seq<Arrival>): Table {
    if arrivals == [] then t
    else EnqueueOne(h, me, Arrived(h, me, t, arrivals[..|arrivals| - 1]), arrivals[|arrivals| - 1])
  }

  class PeerTask {
    const me: NodeId
    const peer: NodeId
    const store: MessageStore
    /** How frames are encoded for the wire. */
    const encode: Frame -> Bytes
    /** Nothing fails but writing a frame over the limit: database, registry, token, dialing and streams all work. */
    const healthy: bool
    /** This task's own streams by channel, and the network they are part of. */
    var streams: map<string, nat>
    var net: seq<Stream>
    /** What other code will still enqueue while this task drains. */
    var coming: seq<Arrival>

    ghost predicate Valid()
      reads this
    {
      && (forall c :: c in streams ==> streams[c] < |net|)
      && (forall i :: 0 <= i < |coming| ==> coming[i].peer != me)
    }

    /** `moves` lead from `l0` to `l`, and the messages enqueued along the way are those of `all` that are no longer to come. */
    ghost predicate Traced(l0: Local, moves: seq<Move>, all: seq<Arrival>, l: Local)
      reads this`coming
    {
      Leads(store.hash, me, l0, moves, l) && ArrivalsOf(moves) + coming == all
    }

    /** After a failure: the caller drops the streams. */
    ghost function Failed(): Local
      reads this, store
    {
      Local(store.messages, Fail(View(Query).task), net)
    }

    ghost function View(pc: Pc): Local
      reads this, store
    {
      Local(store.messages, Task(peer, pc, false, false, streams), net)
    }

    constructor (me: NodeId, peer: NodeId, store: MessageStore, encode: Frame -> Bytes, healthy: bool, net: seq<Stream>, coming: seq<Arrival>)
      requires forall i :: 0 <= i < |coming| ==> coming[i].peer != me
      ensures Valid() && streams == map[] && this.net == net && this.coming == coming
      ensures this.me == me && this.peer == peer && this.store == store && this.encode == encode && this.healthy == healthy
    {
      this.me, this.peer, this.store, this.encode, this.healthy := me, peer, store, encode, healthy;
      this.streams, this.net, this.coming := map[], net, coming;
    }

    /** Opens a fresh stream and names its channel; registry, token, dialing or the write may fail. */
    method OpenOutboundStream(channel: string) returns (sid: Option<nat>)
      modifies this`net
      ensures sid.None? ==> !healthy && net == old(net)
      ensures sid.Some? ==> sid.value == |old(net)| && net == old(net) + [Stream(me, peer, channel, [], 0, 0, false, Arriving)]
    {
      var up: bool := *;
      if !up && !healthy {
        return None;
      }
      sid := Some(|net|);
      net := net + [Stream(me, peer, channel, [], 0, 0, false, Arriving)];
    }

    /** Writes one frame in full, or fails: a frame beyond the limit always does, a broken stream too. */
    method WriteMessage(sid: nat, frame: Frame) returns (ok: bool, ghost wire: Bytes)
      requires sid < |net|
      modifies this`net
      ensures ok ==> Fits(encode, frame) && wire == Framing.FrameBytes(encode(frame))
      ensures ok ==> Fits(encode, frame) && net == old(net)[sid := Append(old(net)[sid], frame)]
      ensures !ok ==> net == old(net) && !(healthy && Fits(encode, frame))
    {
      var body := encode(frame);
      var up: bool := *;
      var send := new Framing.SendStream(if up || healthy then Framing.PREFIX + |body| else 0);
      var r := Framing.WriteFrame(send, body);
      ok, wire := r.Written?, send.wire;
      if ok {
        net := net[sid := Append(net[sid], frame)];
      }
    }

    /** The next step of the task itself. */
    lemma OwnStep(l0: Local, moves: seq<Move>, all: seq<Arrival>, l: Local, ev: TaskEvent)
      requires Traced(l0, moves, all, l) && CanTask(l, ev)
      ensures Traced(l0, moves + [Own(ev)], all, DoTask(me, l, ev))
    {
      LeadsOn(store.hash, me, l0, moves, l, Own(ev));
      ArrivalsOn(moves, Own(ev));
      assert ArrivalsOf(moves) + [] == ArrivalsOf(moves);
    }

    lemma ArrivalStep(l0: Local, moves: seq<Move>, l: Local)
      requires Valid() && coming != [] && Leads(store.hash, me, l0, moves, l)
      ensures Leads(store.hash, me, l0, moves + [Arrives(coming[0])], l.(table := EnqueueOne(store.hash, me, l.table, coming[0])))
      ensures ArrivalsOf(moves + [Arrives(coming[0])]) + coming[1..] == ArrivalsOf(moves) + coming
    {
      LeadsOn(store.hash, me, l0, moves, l, Arrives(coming[0]));
      ArrivalsOn(moves, Arrives(coming[0]));
    }

    /** An await: other code may enqueue any number of messages. */
    method Pause(ghost l0: Local, ghost moves0: seq<Move>, ghost all: seq<Arrival>, ghost pc: Pc) returns (ghost moves: seq<Move>)
      requires Valid() && Traced(l0, moves0, all, View(pc))
      modifies this`coming, store
      ensures Valid() && Traced(l0, moves, all, View(pc)) && Marks(old(store.messages), store.messages, [])
      ensures |coming| <= |old(coming)| && (|coming| == |old(coming)| ==> store.messages == old(store.messages))
    {
      hide Marks, Leads, EnqueueOne, Enqueue;
      moves := moves0;
      MarksNothing(store.messages);
      var n: nat :| n <= |coming|;
      for i := 0 to n
        invariant Valid() && Traced(l0, moves, all, View(pc)) && Marks(old(store.messages), store.messages, [])
        invariant |coming| == |old(coming)| - i && (i == 0 ==> store.messages == old(store.messages))
      {
        ArrivalStep(l0, moves, View(pc));
        MarksArrival(store.hash, me, store.messages, coming[0]);
        MarksThrough(old(store.messages), store.messages, EnqueueOne(store.hash, me, store.messages, coming[0]));
        moves := moves + [Arrives(coming[0])];
        Arrive(coming[0]);
        coming := coming[1..];
      }
    }

    method Arrive(a: Arrival)
      modifies store
      ensures store.messages == EnqueueOne(store.hash, me, old(store.messages), a)
    {
      var item := store.OutboxEnqueue(me, a.peer, a.channel, a.payload, a.now);
    }

    /** Nothing was enqueued since if nothing less is to come. */
    twostate predicate Quiet()
      reads this, store
    {
      |coming| <= |old(coming)| && (|coming| == |old(coming)| ==> store.messages.Keys == old(store.messages).Keys)
    }

    /** The stream for the channel of the row at hand, opened if there is none. */
    method StreamFor(ghost l0: Local, ghost moves0: seq<Move>, ghost all: seq<Arrival>, ghost rows: seq<Item>, channel: string)
      returns (ok: bool, ghost moves: seq<Move>)
      requires Valid() && rows != [] && rows[0].row.channel == channel && Traced(l0, moves0, all, View(Deliver(rows)))
      modifies this`streams, this`net
      ensures Valid() && (ok ==> channel in streams) && (!ok ==> !healthy)
      ensures Traced(l0, moves, all, if ok then View(Deliver(rows)) else Failed())
    {
      hide Traced;
      ghost var l := View(Deliver(rows));
      ok, moves := true, moves0;
      if channel !in streams {
        var stream := OpenOutboundStream(channel);
        if stream.None? {
          OwnStep(l0, moves0, all, l, OpenFail);
          return false, moves0 + [Own(OpenFail)];
        }
        OwnStep(l0, moves0, all, l, Open);
        streams := streams[channel := stream.value];
        moves := moves0 + [Own(Open)];
      }
    }

    /** Writes the frame of the row at hand. */
    method WriteRow(ghost l0: Local, ghost moves0: seq<Move>, ghost all: seq<Arrival>, ghost rows: seq<Item>, row: Item)
      returns (ok: bool, ghost moves: seq<Move>)
      requires Valid() && rows != [] && rows[0] == row && row.row.channel in streams && Traced(l0, moves0, all, View(Deliver(rows)))
      modifies this`streams, this`net
      ensures Valid() && if ok then Fits(encode, FrameOf(row)) else !(healthy && Fits(encode, FrameOf(row)))
      ensures Traced(l0, moves, all, if ok then View(Mark(rows)) else Failed())
    {
      hide Traced, Fits;
      ghost var l := View(Deliver(rows));
      ghost var wire;
      ok, wire := WriteMessage(streams[row.row.channel], FrameOf(row));
      if ok {
        OwnStep(l0, moves0, all, l, Write);
        moves := moves0 + [Own(Write)];
      } else {
        OwnStep(l0, moves0, all, l, WriteFail);
        moves := moves0 + [Own(WriteFail)];
        streams := streams - {row.row.channel};
      }
    }

    /** Marks the row just written. */
    method MarkRow(ghost l0: Local, ghost moves0: seq<Move>, ghost all: seq<Arrival>, ghost rows: seq<Item>, row: Item, now: nat)
      returns (ok: bool, ghost moves: seq<Move>)
      requires Valid() && rows != [] && rows[0] == row && Traced(l0, moves0, all, View(Mark(rows)))
      modifies store
      ensures Valid() && (healthy ==> ok)
      ensures store.messages == if ok then MarkDelivered(old(store.messages), row.key, now) else old(store.messages)
      ensures Traced(l0, moves, all, if ok then View(NextRow(rows)) else Failed())
    {
      hide Traced;
      ghost var l := View(Mark(rows));
      ok := *;
      ok := ok || healthy;
      if ok {
        OwnStep(l0, moves0, all, l, MarkOk(now));
        moves := moves0 + [Own(MarkOk(now))];
        store.OutboxMarkDelivered(row.key, now);
      } else {
        OwnStep(l0, moves0, all, l, MarkFail);
        moves := moves0 + [Own(MarkFail)];
      }
    }

    /**
     Delivers and marks one row, while other code may enqueue. `moves` go on from `moves0`; on failure
     the last of them is the failing one, and the caller drops the streams.
     */
    method DeliverRow(ghost l0: Local, ghost moves0: seq<Move>, ghost all: seq<Arrival>, ghost rows: seq<Item>, row: Item, now: nat)
      returns (ok: bool, ghost moves: seq<Move>)
      requires Valid() && rows != [] && rows[0] == row && Pending(store.messages, peer, row.key)
      requires Traced(l0, moves0, all, View(Deliver(rows)))
      modifies this`streams, this`net, this`coming, store
      ensures Valid() && Quiet() && Marks(old(store.messages), store.messages, if ok then [row] else [])
      ensures if ok then Fits(encode, FrameOf(row)) else !(healthy && Fits(encode, FrameOf(row)))
      ensures Traced(l0, moves, all, if ok then View(NextRow(rows)) else Failed())
    {
      hide Traced, Marks, Fits;
      ghost var t0 := store.messages;
      moves := Pause(l0, moves0, all, Deliver(rows));
      ok, moves := StreamFor(l0, moves, all, rows, row.row.channel);
      if !ok {
        return;
      }
      ghost var t1 := store.messages;
      moves := Pause(l0, moves, all, Deliver(rows));
      MarksThrough(t0, t1, store.messages);
      ok, moves := WriteRow(l0, moves, all, rows, row);
      if !ok {
        return;
      }
      ghost var t2 := store.messages;
      moves := Pause(l0, moves, all, Mark(rows));
      MarksThrough(t0, t2, store.messages);
      MarksRow(t0, store.messages, row, peer, now);
      ok, moves := MarkRow(l0, moves, all, rows, row, now);
    }

    /** The rows of one batch, in order, up to the first failure. */
    method DeliverBatch(ghost l0: Local, ghost moves0: seq<Move>, ghost all: seq<Arrival>, rows: seq<Item>, now: nat)
      returns (ok: bool, ghost done: nat, ghost moves: seq<Move>)
      requires Valid() && rows != [] && ArePending(store.messages, peer, rows) && Traced(l0, moves0, all, View(Deliver(rows)))
      modifies this`streams, this`net, this`coming, store
      ensures Valid() && Quiet() && done <= |rows| && (ok ==> done == |rows|)
      ensures !ok && healthy ==> done < |rows| && !Fits(encode, FrameOf(rows[done]))
      ensures Marks(old(store.messages), store.messages, rows[..done])
      ensures forall i :: 0 <= i < done ==> Fits(encode, FrameOf(rows[i]))
      ensures Traced(l0, moves, all, if ok then View(Query) else Failed())
    {
      hide Traced, Marks, Fits;
      ghost var t1 := store.messages;
      MarksNothing(t1);
      done, moves := 0, moves0;
      for i := 0 to |rows|
        invariant Valid() && done == i && Quiet() && Marks(t1, store.messages, rows[..i])
        invariant forall j :: 0 <= j < i ==> Fits(encode, FrameOf(rows[j]))
        invariant Traced(l0, moves, all, View(RowsFrom(rows, i)))
      {
        ghost var t2 := store.messages;
        NextStillPending(t1, t2, peer, rows, i);
        ok, moves := DeliverRow(l0, moves, all, rows[i..], rows[i], now);
        BatchOneMore(t1, t2, store.messages, rows, i, ok);
        if !ok {
          return;
        }
        NextRowFrom(rows, i);
        done := i + 1;
      }
      ok := true;
    }

    /**
     One query and its batch, in a drain that started on `l0` and has made `pulls`. `more` says whether
     to go on; if not, the drain is over, successfully iff `ok`.
     */
    method DrainBatch(ghost l0: Local, ghost moves0: seq<Move>, ghost all: seq<Arrival>, ghost before: seq<Pull>, now: nat)
      returns (more: bool, ok: bool, ghost pulls: seq<Pull>, ghost moves: seq<Move>)
      requires Valid() && Traced(l0, moves0, all, View(Query)) && Drained(l0.table, store.messages, peer, encode, before)
      modifies this`streams, this`net, this`coming, store
      ensures Valid() && Drained(l0.table, store.messages, peer, encode, pulls)
      ensures |coming| <= |old(coming)|
      ensures more ==> ok && (|coming| < |old(coming)| || |PendingKeys(store.messages, peer)| < |PendingKeys(old(store.messages), peer)|)
      ensures !more && ok ==> forall k :: !Pending(store.messages, peer, k)
      ensures !ok && healthy ==> !AllFit(store.messages, peer, encode)
      ensures Traced(l0, moves, all, if more then View(Query) else if ok then View(Waiting(true)) else Failed())
    {
      hide Traced, Marks, Fits, Drained, OldestPending, PullOk;
      ghost var t0 := store.messages;
      moves := Pause(l0, moves0, all, Query);
      ghost var t1, l1 := store.messages, View(Query);
      DrainedThen(l0.table, t0, t1, peer, encode, before);
      pulls, more, ok := before, false, *;
      if !ok && !healthy {
        OwnStep(l0, moves, all, l1, FetchFail);
        moves := moves + [Own(FetchFail)];
        return;
      }
      var rows := store.OutboxPendingForPeer(peer, DELIVERY_BATCH);
      OwnStep(l0, moves, all, l1, Fetch(rows));
      moves := moves + [Own(Fetch(rows))];
      QueryGives(t1, peer, DELIVERY_BATCH, rows);
      if rows == [] {
        ok := true;
        return;
      }
      ghost var done;
      ok, done, moves := DeliverBatch(l0, moves, all, rows, now);
      more := ok;
      DrainedOnward(l0.table, t1, store.messages, peer, encode, before, rows, done);
      pulls := before + [Pull(t1, rows, done)];
      if !ok && healthy {
        LeftOversize(t1, store.messages, peer, encode, rows, done);
      }
      if ok && store.messages.Keys == t1.Keys {
        BatchShrinks(t1, store.messages, peer, rows, done);
      }
    }

    /**
     Delivers all currently pending rows of the peer, in batches, while other code may enqueue at any
     await. Whatever fails, every query got the oldest rows pending at its time, and the rows marked are
     the first of those, in order and without a gap; no other row is touched. Success means that nothing
     is left, and while nothing else fails it comes exactly if no row left pending is over the limit.
     It ends once others stop enqueuing, and its moves are steps of the transition system.
     */
    method DrainPeer(now: nat) returns (ok: bool, ghost pulls: seq<Pull>, ghost moves: seq<Move>)
      requires Valid()
      modifies this`streams, this`net, this`coming, store
      ensures Valid() && Drained(old(store.messages), store.messages, peer, encode, pulls)
      ensures ok ==> forall k :: !Pending(store.messages, peer, k)
      ensures healthy ==> (ok <==> AllFit(store.messages, peer, encode))
      ensures Traced(old(View(Query)), moves, old(coming), if ok then View(Waiting(true)) else Failed())
    {
      hide Traced, Drained;
      ghost var l0, all := View(Query), coming;
      DrainStarts(l0, all);
      var more := true;
      pulls, moves, ok := [], [], true;
      while more
        invariant Valid() && Drained(l0.table, store.messages, peer, encode, pulls) && (more ==> ok)
        invariant !more && ok ==> forall k :: !Pending(store.messages, peer, k)
        invariant !ok && healthy ==> !AllFit(store.messages, peer, encode)
        invariant Traced(l0, moves, all, if more then View(Query) else if ok then View(Waiting(true)) else Failed())
        decreases more, |coming|, |PendingKeys(store.messages, peer)|
      {
        more, ok, pulls, moves := DrainBatch(l0, moves, all, pulls, now);
      }
    }

    lemma DrainStarts(l0: Local, all: seq<Arrival>)
      requires all == coming
      ensures Traced(l0, [], all, l0) && Drained(l0.table, l0.table, peer, encode, [])
    {
      assert [] + coming == coming;
    }

    /** One pass: drain, and drop all streams after a failure. */
    method OnePass(now: nat) returns (ok: bool, ghost pulls: seq<Pull>)
      requires Valid()
      modifies this`streams, this`net, this`coming, store
      ensures Valid() && Pass(store.hash, me, old(View(Query)), View(Waiting(ok)), old(coming), coming)
      ensures Drained(old(store.messages), store.messages, peer, encode, pulls)
      ensures ok ==> forall k :: !Pending(store.messages, peer, k)
      ensures healthy ==> (ok <==> AllFit(store.messages, peer, encode))
    {
      hide Leads, Drained;
      ghost var start, all := View(Query), coming;
      ghost var moves;
      ok, pulls, moves := DrainPeer(now);
      if !ok {
        streams := map[];
      }
      assert PassBy(store.hash, me, start, moves, View(Waiting(ok)), all, coming);
    }

    /** Other code enqueues while the task waits. */
    method EnqueueAll(arrivals: seq<Arrival>)
      modifies store
      ensures store.messages == Arrived(store.hash, me, old(store.messages), arrivals)
    {
      for i := 0 to |arrivals|
        invariant store.messages == Arrived(store.hash, me, old(store.messages), arrivals[..i])
      {
        assert arrivals[..i + 1][..i] == arrivals[..i];
        var num := store.OutboxEnqueue(me, arrivals[i].peer, arrivals[i].channel, arrivals[i].payload, arrivals[i].now);
      }
      assert arrivals[..|arrivals|] == arrivals;
    }

    /**
     The loop of a delivery task. `ends` are the states in which it waits, each reached by one pass
     of the transition system from where the wait before left off, and after each of which nothing is
     left for the peer, unless something failed or a row is over the limit. It stops waiting for good only
     on a shutdown (or on dropped wake handles, which `DeliveryWake.HandleNeverDropped` rules out).
     */
    method PerPeerDelivery(waits: seq<Wait>, now: nat) returns (ghost ends: seq<Rest>)
      requires Valid()
      modifies this`streams, this`net, this`coming, store
      ensures Valid() && |ends| <= |waits| && (waits != [] ==> ends != [])
      ensures Passes(store.hash, me, Rest(old(View(Query)), old(coming)), waits, ends)
      ensures 0 < |ends| < |waits| ==> !GoesOn(waits, |ends| - 1)
      ensures forall i :: 0 <= i < |ends| ==> HasDrained(peer, encode, healthy, ends[i].local)
      ensures ends != [] ==> Rest(View(Query), coming) == NextPass(store.hash, me, Rest(old(View(Query)), old(coming)), waits, ends)
    {
      hide Pass, HasDrained, Passes, Arrived, AllFit;
      PassesNone(store.hash, me, Rest(View(Query), coming), waits);
      ends := [];
      ghost var l0 := Rest(View(Query), coming);
      for i := 0 to |waits|
        invariant Valid() && |ends| == i && Passes(store.hash, me, l0, waits, ends) && (i > 0 ==> GoesOn(waits, i - 1))
        invariant Rest(View(Query), coming) == NextPass(store.hash, me, l0, waits, ends)
        invariant forall j :: 0 <= j < |ends| ==> HasDrained(peer, encode, healthy, ends[j].local)
      {
        ghost var pulls;
        var ok;
        ok, pulls := OnePass(now);
        assert View(Waiting(ok)).task.pc == Waiting(ok) && View(Waiting(ok)).table == store.messages;
        PassesOn(store.hash, me, l0, waits, ends, Rest(View(Waiting(ok)), coming));
        PassHasDrained(peer, encode, healthy, View(Waiting(ok)));
        ends := ends + [Rest(View(Waiting(ok)), coming)];
        EnqueueAll(waits[i].arrivals);
        if waits[i].wake.HandlesDropped? || waits[i].wake.ShutdownSeen? {
          return;
        }
      }
    }
  }

  lemma QueryGives(t: Table, peer: NodeId, limit: nat, rows: seq<Item>)
    requires IsQuery(t, peer, limit, rows)
    ensures OldestPending(t, peer, rows) && ArePending(t, peer, rows)
    ensures rows == [] && limit > 0 ==> forall k :: !Pending(t, peer, k)
  {
    if rows == [] && limit > 0 {
      forall k ensures !Pending(t, peer, k) {
        assert Pending(t, peer, k) ==> Holds(rows, k);
      }
    }
  }

  lemma BatchOneMore(t1: Table, t2: Table, t: Table, rows: seq<Item>, i: nat, ok: bool)
    requires i < |rows| && Marks(t1, t2, rows[..i]) && Marks(t2, t, if ok then [rows[i]] else []) && rows[i].key in t1
    ensures Marks(t1, t, rows[..if ok then i + 1 else i])
  {
    MarksCompose(t1, t2, t, rows[..i], if ok then [rows[i]] else []);
    assert rows[..i + 1] == rows[..i] + [rows[i]] && rows[..i] + [] == rows[..i];
  }

  lemma DrainedOnward(t0: Table, t1: Table, t: Table, peer: NodeId, encode: Frame -> Bytes, before: seq<Pull>, rows: seq<Item>, n: nat)
    requires Drained(t0, t1, peer, encode, before) && OldestPending(t1, peer, rows) && n <= |rows| && Marks(t1, t, rows[..n])
    requires forall i :: 0 <= i < n ==> Fits(encode, FrameOf(rows[i]))
    ensures Drained(t0, t, peer, encode, before + [Pull(t1, rows, n)])
  {
    hide Fits, OldestPending, Marks;
    DrainedOn(t0, t1, t, peer, encode, before, rows, n);
  }

  /** A row over the limit that stopped the batch is still pending. */
  lemma LeftOversize(t1: Table, t: Table, peer: NodeId, encode: Frame -> Bytes, rows: seq<Item>, n: nat)
    requires ArePending(t1, peer, rows) && n < |rows| && Marks(t1, t, rows[..n]) && !Fits(encode, FrameOf(rows[n]))
    ensures !AllFit(t, peer, encode)
  {
    hide Fits;
    NextStillPending(t1, t, peer, rows, n);
    assert rows[n] == Item(rows[n].key, t[rows[n].key]);
  }

  lemma BatchShrinks(t1: Table, t: Table, peer: NodeId, rows: seq<Item>, n: nat)
    requires rows != [] && n == |rows| && ArePending(t1, peer, rows) && Marks(t1, t, rows[..n]) && t.Keys == t1.Keys
    ensures |PendingKeys(t, peer)| < |PendingKeys(t1, peer)|
  {
    assert rows[..n] == rows;
    FewerPending(t1, t, peer, rows);
  }

  /**
   The task waits after a pass: one that went well has left nothing pending for the peer, and a pass
   goes well, if nothing else fails, exactly when no row left pending is over the limit.
   */
  ghost predicate HasDrained(peer: NodeId, encode: Frame -> Bytes, healthy: bool, l: Local) {
    && l.task.pc.Waiting?
    && (l.task.pc.ok ==> forall k :: !Pending(l.table, peer, k))
    && (healthy ==> (l.task.pc.ok <==> AllFit(l.table, peer, encode)))
  }

  lemma PassHasDrained(peer: NodeId, encode: Frame -> Bytes, healthy: bool, l: Local)
    requires l.task.pc.Waiting? && (l.task.pc.ok ==> forall k :: !Pending(l.table, peer, k))
    requires healthy ==> (l.task.pc.ok <==> AllFit(l.table, peer, encode))
    ensures HasDrained(peer, encode, healthy, l)
  {
  }

  /** One pass of the loop by `moves`, from its first query to its wait, with `rest` of the messages to come still to come. */
  ghost predicate PassBy(h: Hash, me: NodeId, l: Local, moves: seq<Move>, l': Local, all: seq<Arrival>, rest: seq<Arrival>) {
    l'.task.pc.Waiting? && Leads(h, me, l, moves, l') && ArrivalsOf(moves) + rest == all
  }

  ghost predicate Pass(h: Hash, me: NodeId, l: Local, l': Local, all: seq<Arrival>, rest: seq<Arrival>) {
    exists moves :: PassBy(h, me, l, moves, l', all, rest)
  }

  predicate GoesOn(waits: seq<Wait>, i: int) {
    0 <= i < |waits| && (waits[i].wake.Woken? || waits[i].wake.RetryDue?)
  }

  /** A state of the task between two passes, and what is still to come while it drains. */
  datatype Rest = Rest(local: Local, coming: seq<Arrival>)

  ghost predicate PassTo(h: Hash, me: NodeId, a: Rest, b: Rest) {
    Pass(h, me, a.local, b.local, a.coming, b.coming)
  }

  /** Where the next pass starts: what arrived during the wait is in the table. */
  ghost function Again(h: Hash, me: NodeId, s: Rest, w: Wait): Rest {
    s.(local := s.local.(table := Arrived(h, me, s.local.table, w.arrivals), task := s.local.task.(pc := Query)))
  }

  /** A run of passes from `l0`, each from where the wait before left off. */
  ghost predicate Passes(h: Hash, me: NodeId, l0: Rest, waits: seq<Wait>, ends: seq<Rest>)
    requires |ends| <= |waits|
  {
    && (ends != [] ==> PassTo(h, me, l0, ends[0]))
    && forall i :: 0 <= i < |ends| - 1 ==> GoesOn(waits, i) && PassTo(h, me, Again(h, me, ends[i], waits[i]), ends[i + 1])
  }

  ghost function NextPass(h: Hash, me: NodeId, l0: Rest, waits: seq<Wait>, ends: seq<Rest>): Rest
    requires |ends| <= |waits|
  {
    if ends == [] then l0 else Again(h, me, ends[|ends| - 1], waits[|ends| - 1])
  }

  lemma PassesNone(h: Hash, me: NodeId, l0: Rest, waits: seq<Wait>)
    ensures Passes(h, me, l0, waits, [])
  {
  }

  lemma PassesOn(h: Hash, me: NodeId, l0: Rest, waits: seq<Wait>, ends: seq<Rest>, l: Rest)
    requires |ends| < |waits| && Passes(h, me, l0, waits, ends) && PassTo(h, me, NextPass(h, me, l0, waits, ends), l)
    requires ends != [] ==> GoesOn(waits, |ends| - 1)
    ensures Passes(h, me, l0, waits, ends + [l])
  {
  }

  /** A drain touches no row of another peer. */
  lemma {:induction false} OnlyOwnRows(t: Table, t': Table, peer: NodeId, encode: Frame -> Bytes, pulls: seq<Pull>)
    requires Drained(t, t', peer, encode, pulls)
    ensures Grows(t, t')
    ensures forall k :: k in t && t[k].peer != peer ==> t'[k] == t[k]
    decreases |pulls|
  {
    if pulls != [] {
      var p := pulls[|pulls| - 1];
      OnlyOwnRows(t, p.table, peer, encode, pulls[..|pulls| - 1]);
      forall k | Holds(p.rows[..p.done], k) ensures Pending(p.table, peer, k) {
        var i :| 0 <= i < p.done && p.rows[..p.done][i].key == k;
        assert Pending(p.table, peer, p.rows[i].key);
      }
    }
  }

  lemma PullPassesOversize(peer: NodeId, encode: Frame -> Bytes, p: Pull, t: Table, k: Key)
    requires PullOk(peer, encode, p) && Marks(p.table, t, p.rows[..p.done])
    requires Pending(p.table, peer, k) && !Fits(encode, FrameOf(Item(k, p.table[k])))
    ensures Pending(t, peer, k) && t[k] == p.table[k]
    ensures forall i :: 0 <= i < p.done ==> p.rows[i].row.ts <= p.table[k].ts
  {
    hide Fits;
    forall i | 0 <= i < p.done ensures p.rows[i].key != k {
      assert p.rows[i] == Item(p.rows[i].key, p.table[p.rows[i].key]);
    }
    OldestPrefix(p.table, peer, p.rows, p.done);
    forall i | 0 <= i < p.done ensures p.rows[i].row.ts <= p.table[k].ts {
      assert p.rows[..p.done][i] == p.rows[i];
    }
  }

  /**
   A row whose frame is over the limit is never sent, and no drain gets past it: nothing stamped
   later goes out to this peer, on any channel, whatever is enqueued meanwhile, and no drain
   succeeds, for as long as it is pending.
   */
  lemma {:induction false} OversizeRowBlocksPeer(t: Table, t': Table, peer: NodeId, encode: Frame -> Bytes, pulls: seq<Pull>, k: Key)
    requires Drained(t, t', peer, encode, pulls)
    requires Pending(t, peer, k) && !Fits(encode, FrameOf(Item(k, t[k])))
    ensures Pending(t', peer, k) && t'[k] == t[k]
    ensures forall i :: 0 <= i < |Sent(pulls)| ==> Sent(pulls)[i].row.ts <= t[k].ts
    decreases |pulls|
  {
    hide Fits;
    if pulls == [] {
      MarksNone(t, t', peer, k);
    } else {
      var p := pulls[|pulls| - 1];
      OversizeRowBlocksPeer(t, p.table, peer, encode, pulls[..|pulls| - 1], k);
      PullPassesOversize(peer, encode, p, t', k);
    }
  }
}
