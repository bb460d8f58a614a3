/**
 Per-stream FIFO: on one outbound stream the sequence numbers strictly increase, across batches,
 interleaved channels and concurrent enqueues, as long as the wall clock does not run backwards
 and the query lists rows of one channel with equal timestamps by sequence number.
 */
module DeliveryFifo {
  import opened Basics
  import opened Messages
  import opened Delivery
  import opened DeliveryWake
  import opened DeliveryIntegrity

  // ----- The two assumptions -----

  /** The query lists rows of one channel with equal timestamps by sequence number. */
  ghost predicate TiesBySeq(t: Table, peer: NodeId, rows: seq<Item>) {
    && (forall i, j :: 0 <= i < j < |rows| && rows[i].row.channel == rows[j].row.channel && rows[i].row.ts == rows[j].row.ts ==>
          rows[i].key.num < rows[j].key.num)
    && (forall i, k :: 0 <= i < |rows| && Pending(t, peer, k) && !Holds(rows, k) ==>
          rows[i].row.channel == t[k].channel && rows[i].row.ts == t[k].ts ==>
          rows[i].key.num < k.num)
  }

  /** No row of the install under the same channel id is stamped later than the enqueue at hand. */
  ghost predicate ClockSteady(t: Table, n: NodeId, cid: Bytes, now: nat) {
    forall k :: k in t && k.sender == n && k.cid == cid ==> t[k].ts <= now
  }

  ghost predicate Orderly(h: Hash, s: Sys, a: Action)
    requires Can(s, a)
  {
    && (a.Send? ==> ClockSteady(s.nodes[a.n].table, a.n, h(a.channel), a.now))
    && (a.TaskStep? && a.ev.Fetch? ==> TiesBySeq(s.nodes[a.n].table, s.nodes[a.n].tasks[a.t].peer, a.ev.rows))
  }

  ghost predicate OrderlyRun(h: Hash, s: Sys, acts: seq<Action>)
    requires IsRun(h, s, acts)
    decreases |acts|
  {
    acts == [] || (Orderly(h, s, acts[0]) && OrderlyRun(h, Do(h, s, acts[0]), acts[1..]))
  }

  // ----- The invariant -----

  predicate Increasing(frames: seq<Frame>) {
    forall i, j :: 0 <= i < j < |frames| ==> frames[i].num < frames[j].num
  }

  predicate Below(frames: seq<Frame>, num: nat) {
    forall i :: 0 <= i < |frames| ==> frames[i].num < num
  }

  /** Rows of one channel of install `n` carry timestamps in sequence order. */
  ghost predicate Stamped(n: NodeId, t: Table) {
    forall a, b :: a in t && b in t && a.sender == n && b.sender == n && a.cid == b.cid && a.num < b.num ==> t[a].ts <= t[b].ts
  }

  predicate JustWritten(task: Task, k: Key) {
    task.pc.Mark? && task.pc.rows != [] && task.pc.rows[0].key == k
  }

  /** The batch at hand is pending, in sequence order per channel, and ahead of everything pending outside it. */
  ghost predicate BatchAhead(t: Table, peer: NodeId, rows: seq<Item>) {
    && (forall i :: 0 <= i < |rows| ==> Pending(t, peer, rows[i].key) && t[rows[i].key].channel == rows[i].row.channel)
    && (forall i, j :: 0 <= i < j < |rows| ==> rows[i].key != rows[j].key)
    && (forall i, j :: 0 <= i < j < |rows| && rows[i].row.channel == rows[j].row.channel ==> rows[i].key.num < rows[j].key.num)
    && (forall i, k :: 0 <= i < |rows| && Pending(t, peer, k) && !Holds(rows, k) && t[k].channel == rows[i].row.channel ==>
          rows[i].key.num < k.num)
  }

  /** What is pending for channel `c` comes after everything on the stream held for it. */
  ghost predicate StreamBehind(t: Table, task: Task, net: seq<Stream>, c: string)
    requires c in task.streams
  {
    task.streams[c] < |net| &&
    forall k :: Pending(t, task.peer, k) && t[k].channel == c && !JustWritten(task, k) ==> Below(net[task.streams[c]].written, k.num)
  }

  ghost predicate FifoTask(t: Table, task: Task, net: seq<Stream>) {
    BatchAhead(t, task.peer, Rows(task.pc)) && forall c :: c in task.streams ==> StreamBehind(t, task, net, c)
  }

  ghost predicate FifoInv(s: Sys) {
    && (forall sid :: 0 <= sid < |s.net| ==> Increasing(s.net[sid].written))
    && (forall n :: n in s.nodes ==> Stamped(n, s.nodes[n].table))
    && (forall n, t: nat :: IsTask(s, n, t) && Alive(s.nodes[n].tasks[t]) ==> FifoTask(s.nodes[n].table, s.nodes[n].tasks[t], s.net))
  }

  /** Keys carry the id of their row's channel, and outbox rows the install as sender. */
  ghost predicate KeysMatch(h: Hash, n: NodeId, t: Table) {
    forall k :: k in t ==> k.cid == h(t[k].channel) && (t[k].direction == Out ==> k.sender == n)
  }

  // ----- A task's own steps -----

  lemma FetchAhead(h: Hash, n: NodeId, t: Table, peer: NodeId, rows: seq<Item>)
    requires Stamped(n, t) && OldestPending(t, peer, rows) && TiesBySeq(t, peer, rows)
    requires KeysMatch(h, n, t)
    ensures BatchAhead(t, peer, rows)
  {
    forall i, j | 0 <= i < j < |rows| && rows[i].row.channel == rows[j].row.channel ensures rows[i].key.num < rows[j].key.num {
      assert rows[i].key != rows[j].key;
    }
  }

  lemma WriteKeepsOrder(t: Table, task: Task, net: seq<Stream>)
    requires FifoTask(t, task, net) && HasStream(task)
    requires Increasing(net[task.streams[task.pc.rows[0].row.channel]].written)
    ensures Increasing(net[task.streams[task.pc.rows[0].row.channel]].written + [FrameOf(task.pc.rows[0])])
  {
    assert StreamBehind(t, task, net, task.pc.rows[0].row.channel);
    assert Pending(t, task.peer, task.pc.rows[0].key);
  }

  /** No two channels of one task share a stream. */
  ghost predicate OwnStreams(task: Task, net: seq<Stream>) {
    forall c :: c in task.streams ==> task.streams[c] < |net| && net[task.streams[c]].channel == c
  }

  lemma FifoAfterOpen(me: NodeId, l: Local)
    requires FifoTask(l.table, l.task, l.net) && OwnStreams(l.task, l.net) && CanTask(l, Open)
    ensures var l' := DoTask(me, l, Open); FifoTask(l'.table, l'.task, l'.net)
  {
    var l' := DoTask(me, l, Open);
    forall c | c in l'.task.streams ensures StreamBehind(l'.table, l'.task, l'.net, c) {
      if c in l.task.streams {
        assert StreamBehind(l.table, l.task, l.net, c);
      }
    }
  }

  lemma FifoAfterWrite(me: NodeId, l: Local)
    requires FifoTask(l.table, l.task, l.net) && OwnStreams(l.task, l.net) && CanTask(l, Write)
    ensures var l' := DoTask(me, l, Write); FifoTask(l'.table, l'.task, l'.net)
  {
    var l', rows := DoTask(me, l, Write), l.task.pc.rows;
    forall c | c in l'.task.streams ensures StreamBehind(l'.table, l'.task, l'.net, c) {
      assert StreamBehind(l.table, l.task, l.net, c);
      forall k | Pending(l.table, l.task.peer, k) && l.table[k].channel == c && !JustWritten(l'.task, k)
        ensures Below(l'.net[l.task.streams[c]].written, k.num)
      {
        assert Below(l.net[l.task.streams[c]].written, k.num);
        if c == rows[0].row.channel {
          HeldOrAhead(l.table, l.task.peer, rows, k);
        }
      }
    }
  }

  lemma HeldOrAhead(t: Table, peer: NodeId, rows: seq<Item>, k: Key)
    requires BatchAhead(t, peer, rows) && rows != [] && Pending(t, peer, k) && k != rows[0].key
    requires t[k].channel == rows[0].row.channel
    ensures rows[0].key.num < k.num
  {
    if Holds(rows, k) {
      var i :| 0 <= i < |rows| && rows[i].key == k;
      assert i > 0;
    }
  }

  lemma PendingAfterOwnMark(t: Table, peer: NodeId, k: Key, now: nat)
    requires Pending(t, peer, k)
    ensures forall x :: Pending(MarkDelivered(t, k, now), peer, x) <==> Pending(t, peer, x) && x != k
    ensures forall x :: x in t <==> x in MarkDelivered(t, k, now)
    ensures forall x :: x in t ==> MarkDelivered(t, k, now)[x].channel == t[x].channel
    ensures forall x :: Pending(t, peer, x) ==> x in t
  {
  }

  /** The rest of a batch stays ahead once its first row is no longer pending. */
  lemma RestAhead(t: Table, t': Table, peer: NodeId, rows: seq<Item>)
    requires BatchAhead(t, peer, rows) && rows != []
    requires forall x :: Pending(t', peer, x) <==> Pending(t, peer, x) && x != rows[0].key
    requires forall x :: x in t <==> x in t'
    requires forall x :: x in t ==> t'[x].channel == t[x].channel
    ensures BatchAhead(t', peer, rows[1..])
  {
    var rest := rows[1..];
    forall i, k | 0 <= i < |rest| && Pending(t', peer, k) && !Holds(rest, k) && t'[k].channel == rest[i].row.channel
      ensures rest[i].key.num < k.num
    {
      if Holds(rows, k) {
        HeldLater(rows, k);
      }
      assert rest[i] == rows[i + 1];
    }
  }

  lemma MarkedStreamBehind(t: Table, t': Table, task: Task, task': Task, net: seq<Stream>, c: string)
    requires c in task.streams && StreamBehind(t, task, net, c) && task.pc.Mark? && task.pc.rows != []
    requires task'.streams == task.streams && task'.peer == task.peer
    requires forall x :: Pending(t', task.peer, x) ==> Pending(t, task.peer, x) && x != task.pc.rows[0].key && t'[x].channel == t[x].channel
    ensures StreamBehind(t', task', net, c)
  {
  }

  lemma FifoAfterMark(me: NodeId, l: Local, now: nat)
    requires FifoTask(l.table, l.task, l.net) && CanTask(l, MarkOk(now))
    ensures var l' := DoTask(me, l, MarkOk(now)); FifoTask(l'.table, l'.task, l'.net)
  {
    hide StreamBehind, Pending, MarkDelivered;
    var l', rows := DoTask(me, l, MarkOk(now)), l.task.pc.rows;
    assert Pending(l.table, l.task.peer, rows[0].key);
    PendingAfterOwnMark(l.table, l.task.peer, rows[0].key, now);
    RestAhead(l.table, l'.table, l.task.peer, rows);
    forall c | c in l'.task.streams ensures StreamBehind(l'.table, l'.task, l'.net, c) {
      MarkedStreamBehind(l.table, l'.table, l.task, l'.task, l.net, c);
    }
  }

  lemma HeldLater(rows: seq<Item>, k: Key)
    requires Holds(rows, k) && k != rows[0].key
    ensures Holds(rows[1..], k)
  {
    var i :| 0 <= i < |rows| && rows[i].key == k;
    assert rows[1..][i - 1].key == k;
  }

  lemma FifoQuiet(t: Table, task: Task, task': Task, net: seq<Stream>)
    requires FifoTask(t, task, net) && task'.peer == task.peer && BatchAhead(t, task.peer, Rows(task'.pc))
    requires task'.streams == map[] || (task'.streams == task.streams && !task.pc.Mark? && !task'.pc.Mark?)
    ensures FifoTask(t, task', net)
  {
    forall c | c in task'.streams ensures StreamBehind(t, task', net, c) {
      assert StreamBehind(t, task, net, c);
    }
  }

  lemma FifoAfterFetch(h: Hash, n: NodeId, l: Local, rows: seq<Item>)
    requires FifoTask(l.table, l.task, l.net) && Stamped(n, l.table) && CanTask(l, Fetch(rows)) && TiesBySeq(l.table, l.task.peer, rows)
    requires KeysMatch(h, n, l.table)
    ensures var l' := DoTask(n, l, Fetch(rows)); FifoTask(l'.table, l'.task, l'.net)
  {
    FetchAhead(h, n, l.table, l.task.peer, rows);
    hide BatchAhead, StreamBehind, Stamped, TiesBySeq, OldestPending;
    EmptyAhead(l.table, l.task.peer);
    FifoQuiet(l.table, l.task, DoTask(n, l, Fetch(rows)).task, l.net);
  }

  lemma EmptyAhead(t: Table, peer: NodeId)
    ensures BatchAhead(t, peer, [])
  {
  }

  lemma FifoAfterQuiet(n: NodeId, l: Local, ev: TaskEvent)
    requires FifoTask(l.table, l.task, l.net) && CanTask(l, ev) && !ev.Open? && !ev.Write? && !ev.MarkOk? && !ev.Fetch?
    ensures var l' := DoTask(n, l, ev); FifoTask(l'.table, l'.task, l'.net)
  {
    hide BatchAhead, StreamBehind;
    EmptyAhead(l.table, l.task.peer);
    FifoQuiet(l.table, l.task, DoTask(n, l, ev).task, l.net);
  }

  lemma FifoAfterOwnStep(h: Hash, n: NodeId, l: Local, ev: TaskEvent)
    requires FifoTask(l.table, l.task, l.net) && OwnStreams(l.task, l.net) && Stamped(n, l.table) && CanTask(l, ev)
    requires KeysMatch(h, n, l.table)
    requires ev.Fetch? ==> TiesBySeq(l.table, l.task.peer, ev.rows)
    ensures var l' := DoTask(n, l, ev); FifoTask(l'.table, l'.task, l'.net)
  {
    hide FifoTask, OwnStreams, Stamped, KeysMatch, TiesBySeq, CanTask;
    match ev
    case Open => FifoAfterOpen(n, l);
    case Write => FifoAfterWrite(n, l);
    case MarkOk(now) => FifoAfterMark(n, l, now);
    case Fetch(rows) => FifoAfterFetch(h, n, l, rows);
    case _ => FifoAfterQuiet(n, l, ev);
  }

  // ----- Everybody else's steps -----

  /** What is pending now was pending before, or is a fresh row whose number tops its channel id. */
  ghost predicate PendingFrom(t: Table, t': Table, peer: NodeId) {
    forall k :: Pending(t', peer, k) ==>
      (Pending(t, peer, k) && t'[k].channel == t[k].channel) ||
      (forall x :: x in t && x.sender == k.sender && x.cid == k.cid ==> x.num < k.num)
  }

  /** Frames on the streams of `task` are numbers of rows of its install. */
  ghost predicate FramesInTable(h: Hash, n: NodeId, t: Table, task: Task, net: seq<Stream>) {
    forall c, i :: c in task.streams && task.streams[c] < |net| && 0 <= i < |net[task.streams[c]].written| ==>
      Key(n, h(c), net[task.streams[c]].written[i].num) in t
  }

  lemma BatchCarries(h: Hash, n: NodeId, t: Table, t': Table, peer: NodeId, rows: seq<Item>)
    requires BatchAhead(t, peer, rows) && Grows(t, t') && PendingFrom(t, t', peer)
    requires forall i :: 0 <= i < |rows| ==> Pending(t', peer, rows[i].key)
    requires KeysMatch(h, n, t')
    ensures BatchAhead(t', peer, rows)
  {
    forall i, k | 0 <= i < |rows| && Pending(t', peer, k) && !Holds(rows, k) && t'[k].channel == rows[i].row.channel
      ensures rows[i].key.num < k.num
    {
      assert Pending(t, peer, rows[i].key) && rows[i].key.cid == k.cid;
    }
  }

  lemma FifoCarries(h: Hash, n: NodeId, t: Table, t': Table, task: Task, task': Task, net: seq<Stream>, net': seq<Stream>)
    requires FifoTask(t, task, net) && Grows(t, t') && PendingFrom(t, t', task.peer) && FramesInTable(h, n, t, task, net)
    requires task'.pc == task.pc && task'.peer == task.peer && task'.streams == task.streams
    requires forall i :: 0 <= i < |Rows(task.pc)| ==> Pending(t', task.peer, Rows(task.pc)[i].key)
    requires KeysMatch(h, n, t')
    requires |net| <= |net'| && forall c :: c in task.streams && task.streams[c] < |net| ==>
      net'[task.streams[c]].written == net[task.streams[c]].written
    ensures FifoTask(t', task', net')
  {
    BatchCarries(h, n, t, t', task.peer, Rows(task.pc));
    forall c | c in task.streams ensures StreamBehind(t', task', net', c) {
      assert StreamBehind(t, task, net, c);
      var frames := net[task.streams[c]].written;
      forall k | Pending(t', task.peer, k) && t'[k].channel == c && !JustWritten(task', k) ensures Below(frames, k.num) {
        if Pending(t, task.peer, k) && t'[k].channel == t[k].channel {
          assert !JustWritten(task, k);
        } else {
          forall i | 0 <= i < |frames| ensures frames[i].num < k.num {
            assert Key(n, h(c), frames[i].num) in t;
          }
        }
      }
    }
  }

  // ----- The whole system -----

  ghost predicate Good(h: Hash, s: Sys) {
    StreamsOk(h, s) && TasksOk(s) && RowsOk(h, s) && AllWake(s)
  }

  lemma RowFacts(h: Hash, s: Sys, n: NodeId)
    requires RowsOk(h, s) && n in s.nodes
    ensures KeysMatch(h, n, s.nodes[n].table)
  {
    forall k | k in s.nodes[n].table
      ensures k.cid == h(s.nodes[n].table[k].channel) && (s.nodes[n].table[k].direction == Out ==> k.sender == n)
    {
      assert RowOk(h, s, n, k);
    }
  }

  lemma TaskFacts(h: Hash, s: Sys, n: NodeId, t: nat)
    requires Good(h, s) && IsTask(s, n, t)
    ensures OwnStreams(s.nodes[n].tasks[t], s.net)
    ensures FramesInTable(h, n, s.nodes[n].table, s.nodes[n].tasks[t], s.net)
  {
    var task := s.nodes[n].tasks[t];
    assert TaskOk(s, n, task);
    forall c | c in task.streams ensures OpenFor(s, n, task.peer, c, task.streams[c]) {
    }
    forall c, i | c in task.streams && task.streams[c] < |s.net| && 0 <= i < |s.net[task.streams[c]].written|
      ensures Key(n, h(c), s.net[task.streams[c]].written[i].num) in s.nodes[n].table
    {
      var st := s.net[task.streams[c]];
      assert OpenFor(s, n, task.peer, c, task.streams[c]) && StreamOk(h, s, st) && Backed(h, s, st, st.written[i]);
    }
  }

  /** Single flight at work: the row a task marks, and the stream it writes, belong to no other running task. */
  lemma OtherPeer(s: Sys, n: NodeId, t: nat, u: nat)
    requires AllWake(s) && IsTask(s, n, t) && IsTask(s, n, u) && t != u
    requires Alive(s.nodes[n].tasks[t]) && Alive(s.nodes[n].tasks[u])
    ensures s.nodes[n].tasks[t].peer != s.nodes[n].tasks[u].peer
  {
    assert WakeInv(s.nodes[n]);
  }

  ghost predicate StillPending(t: Table, t': Table, peer: NodeId) {
    forall k :: Pending(t, peer, k) ==> Pending(t', peer, k)
  }

  lemma PendingAfterEnqueue(h: Hash, t: Table, n: NodeId, to: NodeId, channel: string, payload: Bytes, now: nat, peer: NodeId)
    ensures PendingFrom(t, Enqueue(h, t, n, to, channel, payload, now), peer)
    ensures StillPending(t, Enqueue(h, t, n, to, channel, payload, now), peer)
  {
    NextKeyIsNew(h, t, n, channel);
  }

  lemma PendingAfterMark(t: Table, k: Key, now: nat, peer: NodeId)
    requires k in t && t[k].peer != peer
    ensures PendingFrom(t, MarkDelivered(t, k, now), peer)
    ensures StillPending(t, MarkDelivered(t, k, now), peer)
  {
  }

  lemma PendingAfterRecord(t: Table, k: Key, row: Row, from: NodeId, peer: NodeId)
    requires Received(t, from, k, row)
    ensures PendingFrom(t, t[k := row], peer) && StillPending(t, t[k := row], peer)
  {
  }

  lemma OthersPending(h: Hash, s: Sys, a: Action, n: NodeId, t: nat)
    requires Good(h, s) && Can(s, a) && IsTask(s, n, t) && Alive(s.nodes[n].tasks[t])
    requires !(a.TaskStep? && a.n == n && a.t == t) && n in Do(h, s, a).nodes
    ensures PendingFrom(s.nodes[n].table, Do(h, s, a).nodes[n].table, s.nodes[n].tasks[t].peer)
    ensures StillPending(s.nodes[n].table, Do(h, s, a).nodes[n].table, s.nodes[n].tasks[t].peer)
  {
    hide Do, StreamsOk, RowsOk, IsQuery;
    var was, peer := s.nodes[n].table, s.nodes[n].tasks[t].peer;
    TableSteps(h, s, a, n);
    if a.TaskStep? && a.n == n && a.ev.MarkOk? {
      OtherPeer(s, n, t, a.t);
      assert TaskOk(s, n, s.nodes[n].tasks[a.t]);
      var item := Rows(s.nodes[n].tasks[a.t].pc)[0];
      assert ItemOk(was, s.nodes[n].tasks[a.t].peer, item);
      PendingAfterMark(was, item.key, a.ev.now, peer);
    } else if a.Send? && a.n == n {
      PendingAfterEnqueue(h, was, n, a.peer, a.channel, a.payload, a.now, peer);
    } else if Do(h, s, a).nodes[n].table != was {
      var k, row :| Received(was, s.net[a.sid].from, k, row) && Do(h, s, a).nodes[n].table == was[k := row];
      PendingAfterRecord(was, k, row, s.net[a.sid].from, peer);
    }
  }

  /** What a task writes goes to a stream of its own. */
  lemma WritesElsewhere(h: Hash, s: Sys, m: NodeId, u: nat, n: NodeId, t: nat, c: string)
    requires Good(h, s) && Can(s, TaskStep(m, u, Write)) && IsTask(s, n, t) && Alive(s.nodes[n].tasks[t]) && !(m == n && u == t)
    requires c in s.nodes[n].tasks[t].streams
    ensures var actor := s.nodes[m].tasks[u];
            s.nodes[n].tasks[t].streams[c] != actor.streams[actor.pc.rows[0].row.channel]
  {
    var task, actor := s.nodes[n].tasks[t], s.nodes[m].tasks[u];
    var channel := actor.pc.rows[0].row.channel;
    assert TaskOk(s, n, task) && OpenFor(s, n, task.peer, c, task.streams[c]);
    assert TaskOk(s, m, actor) && OpenFor(s, m, actor.peer, channel, actor.streams[channel]);
    if m == n {
      OtherPeer(s, n, t, u);
    }
  }

  lemma NetTaskStep(me: NodeId, l: Local, ev: TaskEvent, sid: nat)
    requires CanTask(l, ev) && sid < |l.net|
    requires ev.Write? ==> l.task.streams[l.task.pc.rows[0].row.channel] != sid
    ensures |l.net| <= |DoTask(me, l, ev).net| && DoTask(me, l, ev).net[sid] == l.net[sid]
  {
  }

  lemma OthersNet(h: Hash, s: Sys, a: Action, n: NodeId, t: nat, c: string)
    requires Good(h, s) && Can(s, a) && IsTask(s, n, t) && Alive(s.nodes[n].tasks[t])
    requires !(a.TaskStep? && a.n == n && a.t == t) && c in s.nodes[n].tasks[t].streams
    ensures var sid := s.nodes[n].tasks[t].streams[c];
            sid < |s.net| <= |Do(h, s, a).net| && Do(h, s, a).net[sid].written == s.net[sid].written
  {
    var task := s.nodes[n].tasks[t];
    var sid := task.streams[c];
    assert TaskOk(s, n, task) && OpenFor(s, n, task.peer, c, sid);
    if a.TaskStep? {
      if a.ev.Write? {
        WritesElsewhere(h, s, a.n, a.t, n, t, c);
      }
      NetTaskStep(a.n, View(s, a.n, a.t), a.ev, sid);
    } else {
      NetOther(h, s, a);
      assert StreamMoves(s.net[sid], Do(h, s, a).net[sid]);
    }
  }

  lemma OthersKeepGoing(h: Hash, s: Sys, a: Action, n: NodeId, t: nat)
    requires Good(h, s) && Can(s, a) && IsTask(s, n, t) && IsTask(Do(h, s, a), n, t) && Alive(Do(h, s, a).nodes[n].tasks[t])
    requires !(a.TaskStep? && a.n == n && a.t == t)
    ensures var task, task' := s.nodes[n].tasks[t], Do(h, s, a).nodes[n].tasks[t];
            Alive(task) && task'.pc == task.pc && task'.peer == task.peer && task'.streams == task.streams
  {
    hide StreamsOk, TasksOk, RowsOk, IsQuery, CanTask, DoTask, CanRx, DoRx, AllWake;
    if a.TaskClosed? {
      NeverClosed(h, s, a.n, a.t);
    } else if !TouchesTasks(a, n) {
      TasksElsewhere(h, s, a, n);
    } else {
      TasksOther(h, s, a, n, t);
    }
  }

  /** No running task ever finds its wake channel closed. */
  lemma NeverClosed(h: Hash, s: Sys, n: NodeId, t: nat)
    requires Good(h, s)
    ensures !Can(s, TaskClosed(n, t))
  {
    if IsTask(s, n, t) && s.nodes[n].tasks[t].pc.Waiting? {
      assert WakeInv(s.nodes[n]);
      HandleNeverDropped(s.nodes[n], t);
    }
  }

  lemma FifoOther(h: Hash, s: Sys, a: Action, n: NodeId, t: nat)
    requires Good(h, s) && FifoInv(s) && Can(s, a) && RowsOk(h, Do(h, s, a))
    requires IsTask(s, n, t) && IsTask(Do(h, s, a), n, t) && Alive(Do(h, s, a).nodes[n].tasks[t])
    requires !(a.TaskStep? && a.n == n && a.t == t)
    ensures var s' := Do(h, s, a); FifoTask(s'.nodes[n].table, s'.nodes[n].tasks[t], s'.net)
  {
    var s', task := Do(h, s, a), s.nodes[n].tasks[t];
    OthersKeepGoing(h, s, a, n, t);
    StepEvolves(h, s, a);
    OthersPending(h, s, a, n, t);
    forall c | c in task.streams
      ensures task.streams[c] < |s.net| <= |s'.net| && s'.net[task.streams[c]].written == s.net[task.streams[c]].written
    {
      OthersNet(h, s, a, n, t, c);
    }
    TaskFacts(h, s, n, t);
    RowFacts(h, s', n);
    FifoCarries(h, n, s.nodes[n].table, s'.nodes[n].table, task, s'.nodes[n].tasks[t], s.net, s'.net);
  }

  lemma FifoOwn(h: Hash, s: Sys, n: NodeId, t: nat, ev: TaskEvent)
    requires Good(h, s) && FifoInv(s) && Can(s, TaskStep(n, t, ev)) && Orderly(h, s, TaskStep(n, t, ev))
    ensures var s' := Do(h, s, TaskStep(n, t, ev)); FifoTask(s'.nodes[n].table, s'.nodes[n].tasks[t], s'.net)
  {
    hide FifoTask, StreamsOk, TasksOk, RowsOk, AllWake, OwnStreams, FramesInTable, CanTask, TiesBySeq, Increasing;
    TaskFacts(h, s, n, t);
    RowFacts(h, s, n);
    AliveWhenStepping(s, n, t, ev);
    FifoAfterOwnStep(h, n, View(s, n, t), ev);
  }

  lemma WriteIncreases(me: NodeId, l: Local, sid: nat)
    requires CanTask(l, Write) && FifoTask(l.table, l.task, l.net) && sid < |l.net|
    requires forall i :: 0 <= i < |l.net| ==> Increasing(l.net[i].written)
    ensures Increasing(DoTask(me, l, Write).net[sid].written)
  {
    hide Increasing, FifoTask;
    assert Increasing(l.net[l.task.streams[l.task.pc.rows[0].row.channel]].written) && Increasing(l.net[sid].written);
    WriteKeepsOrder(l.table, l.task, l.net);
  }

  /** Only writing adds to a stream. */
  lemma NoWriteNoChange(me: NodeId, l: Local, ev: TaskEvent, sid: nat)
    requires CanTask(l, ev) && !ev.Write? && sid < |DoTask(me, l, ev).net|
    ensures DoTask(me, l, ev).net[sid].written == if sid < |l.net| then l.net[sid].written else []
  {
  }

  lemma StreamsIncrease(h: Hash, s: Sys, a: Action, sid: nat)
    requires FifoInv(s) && Can(s, a) && sid < |Do(h, s, a).net|
    ensures Increasing(Do(h, s, a).net[sid].written)
  {
    hide FifoTask, Stamped, CanTask;
    if !a.TaskStep? {
      NetOther(h, s, a);
      assert StreamMoves(s.net[sid], Do(h, s, a).net[sid]) && Increasing(s.net[sid].written);
    } else if a.ev.Write? {
      AliveWhenStepping(s, a.n, a.t, a.ev);
      assert FifoTask(s.nodes[a.n].table, s.nodes[a.n].tasks[a.t], s.net);
      WriteNoNewStream(a.n, View(s, a.n, a.t));
      WriteIncreases(a.n, View(s, a.n, a.t), sid);
    } else {
      NoWriteNoChange(a.n, View(s, a.n, a.t), a.ev, sid);
      assert sid < |s.net| ==> Increasing(s.net[sid].written);
    }
  }

  lemma WriteNoNewStream(me: NodeId, l: Local)
    requires CanTask(l, Write)
    ensures |DoTask(me, l, Write).net| == |l.net|
  {
  }

  lemma AliveWhenStepping(s: Sys, n: NodeId, t: nat, ev: TaskEvent)
    requires IsTask(s, n, t) && CanTask(View(s, n, t), ev)
    ensures Alive(s.nodes[n].tasks[t])
  {
  }

  lemma StampedEnqueue(h: Hash, t: Table, n: NodeId, to: NodeId, channel: string, payload: Bytes, now: nat)
    requires Stamped(n, t) && ClockSteady(t, n, h(channel), now)
    ensures Stamped(n, Enqueue(h, t, n, to, channel, payload, now))
  {
    NextKeyIsNew(h, t, n, channel);
  }

  lemma StampedStep(h: Hash, s: Sys, a: Action, n: NodeId)
    requires Good(h, s) && FifoInv(s) && Can(s, a) && Orderly(h, s, a) && n in s.nodes && n in Do(h, s, a).nodes
    ensures Stamped(n, Do(h, s, a).nodes[n].table)
  {
    hide Do, TasksOk, RowsOk, AllWake, FifoTask, Increasing;
    TableSteps(h, s, a, n);
    if a.Send? && a.n == n {
      StampedEnqueue(h, s.nodes[n].table, n, a.peer, a.channel, a.payload, a.now);
    } else if a.RxStep? {
      assert StreamOk(h, s, s.net[a.sid]);
    }
  }

  lemma FifoTasksStep(h: Hash, s: Sys, a: Action, n: NodeId, t: nat)
    requires Good(h, s) && FifoInv(s) && Can(s, a) && Orderly(h, s, a) && RowsOk(h, Do(h, s, a))
    requires IsTask(Do(h, s, a), n, t) && Alive(Do(h, s, a).nodes[n].tasks[t])
    ensures var s' := Do(h, s, a); FifoTask(s'.nodes[n].table, s'.nodes[n].tasks[t], s'.net)
  {
    if a.TaskStep? && a.n == n && a.t == t {
      FifoOwn(h, s, n, t, a.ev);
    } else {
      hide Good, FifoInv, Orderly, Can, RowsOk, StreamBehind;
      if IsTask(s, n, t) {
        FifoOther(h, s, a, n, t);
      } else {
        TasksOther(h, s, a, n, t);
        EmptyAhead(Do(h, s, a).nodes[n].table, Do(h, s, a).nodes[n].tasks[t].peer);
      }
    }
  }

  lemma FifoStep(h: Hash, s: Sys, a: Action)
    requires Good(h, s) && FifoInv(s) && Can(s, a) && Orderly(h, s, a) && RowsOk(h, Do(h, s, a))
    ensures FifoInv(Do(h, s, a))
  {
    StepEvolves(h, s, a);
    hide Do, Good, RowsOk, Orderly, FifoTask, Stamped, Increasing;
    var s' := Do(h, s, a);
    forall sid | 0 <= sid < |s'.net| ensures Increasing(s'.net[sid].written) {
      StreamsIncrease(h, s, a, sid);
    }
    forall n | n in s'.nodes ensures Stamped(n, s'.nodes[n].table) {
      StampedStep(h, s, a, n);
    }
    forall n, t: nat | IsTask(s', n, t) && Alive(s'.nodes[n].tasks[t])
      ensures FifoTask(s'.nodes[n].table, s'.nodes[n].tasks[t], s'.net)
    {
      FifoTasksStep(h, s, a, n, t);
    }
  }

  lemma {:induction false} FifoRun(h: Hash, s: Sys, acts: seq<Action>)
    requires Good(h, s) && FifoInv(s) && IsRun(h, s, acts) && OrderlyRun(h, s, acts)
    ensures Good(h, Run(h, s, acts)) && FifoInv(Run(h, s, acts))
    decreases |acts|
  {
    if acts != [] {
      var s' := Do(h, s, acts[0]);
      if acts[0].TaskStep? {
        StreamsTaskStep(h, s, acts[0].n, acts[0].t, acts[0].ev);
      } else {
        StreamsOther(h, s, acts[0]);
      }
      TasksStep(h, s, acts[0]);
      RowsStep(h, s, acts[0]);
      WakeStep(h, s, acts[0]);
      FifoStep(h, s, acts[0]);
      FifoRun(h, s', acts[1..]);
    }
  }

  // ----- Main results -----

  /** On every stream the sequence numbers written strictly increase. */
  lemma PerStreamFifo(h: Hash, s: Sys, acts: seq<Action>, sid: nat)
    requires Init(s) && IsRun(h, s, acts) && OrderlyRun(h, s, acts) && sid < |Run(h, s, acts).net|
    ensures Increasing(Run(h, s, acts).net[sid].written)
  {
    InitWake(s);
    FifoRun(h, s, acts);
  }

  /** Every row of the peer's channel is stamped no later than the rows numbered after it. */
  ghost predicate ClockRanForward(t: Table, peer: NodeId) {
    forall a, b :: Pending(t, peer, a) && Pending(t, peer, b) && t[a].channel == t[b].channel && a.num < b.num ==> t[a].ts <= t[b].ts
  }

  ghost predicate InSeqOrder(rows: seq<Item>) {
    forall i, j :: 0 <= i < j < |rows| && rows[i].row.channel == rows[j].row.channel ==> rows[i].key.num < rows[j].key.num
  }

  lemma InOrderMeansClockForward(t: Table, peer: NodeId, rows: seq<Item>)
    requires OldestPending(t, peer, rows) && InSeqOrder(rows) && forall k :: Pending(t, peer, k) ==> Holds(rows, k)
    ensures ClockRanForward(t, peer)
  {
    hide RestNotOlder;
    forall a, b | Pending(t, peer, a) && Pending(t, peer, b) && t[a].channel == t[b].channel && a.num < b.num
      ensures t[a].ts <= t[b].ts
    {
      assert Holds(rows, a) && Holds(rows, b);
      var i :| 0 <= i < |rows| && rows[i].key == a;
      var j :| 0 <= j < |rows| && rows[j].key == b;
      assert i < j;
    }
  }

  lemma ClockForwardMeansInOrder(t: Table, peer: NodeId, rows: seq<Item>)
    requires OldestPending(t, peer, rows) && TiesBySeq(t, peer, rows) && ClockRanForward(t, peer)
    requires forall a, b :: Pending(t, peer, a) && Pending(t, peer, b) && t[a].channel == t[b].channel && a.num == b.num ==> a == b
    ensures InSeqOrder(rows)
  {
    forall i, j | 0 <= i < j < |rows| && rows[i].row.channel == rows[j].row.channel ensures rows[i].key.num < rows[j].key.num {
      assert Pending(t, peer, rows[i].key) && Pending(t, peer, rows[j].key) && rows[i].key != rows[j].key;
    }
  }

  /**
   Exactly when the order of the query is the sequence order of each channel: iff the clock did
   not run backwards between two pending rows of one channel. Timestamps are all the query sorts by.
   */
  lemma QueryInSeqOrderIffClockForward(t: Table, peer: NodeId, rows: seq<Item>)
    requires OldestPending(t, peer, rows) && TiesBySeq(t, peer, rows) && forall k :: Pending(t, peer, k) ==> Holds(rows, k)
    requires forall a, b :: Pending(t, peer, a) && Pending(t, peer, b) && t[a].channel == t[b].channel && a.num == b.num ==> a == b
    ensures InSeqOrder(rows) <==> ClockRanForward(t, peer)
  {
    if InSeqOrder(rows) {
      InOrderMeansClockForward(t, peer, rows);
    } else if ClockRanForward(t, peer) {
      ClockForwardMeansInOrder(t, peer, rows);
    }
  }
}
