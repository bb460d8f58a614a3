/**
 Durable peer delivery as a transition system over any number of installs: outbox tables, one
 lazily spawned delivery task per peer, framed streams that can break, receive loops and
 deduplicating inboxes (crates/wt-daemon/src/state.rs).

 All choices of the environment (which task runs, what fails, what crashes, how a query breaks
 ties) are in the action, so a run is a sequence of actions and every step is a function of it.
 */
module Delivery {
  import opened Basics
  import opened Messages
  import Framing

  /** How many outbox rows a task pulls per batch. */
  const DELIVERY_BATCH: nat := 64

  // ----- Streams -----

  datatype Frame = Frame(num: nat, ts: nat, payload: Bytes)

  /**
   The receiving end: not yet accepted, accepted, refused by the receiver's token check, cut off
   (what was already read is still processed), or gone with the receiver's process.
   */
  datatype Rx = Arriving | Live | Refused | Broken | Crashed

  /**
   One outbound stream. `from`, `to` and `channel` are the two ends and its StreamOpen frame;
   `written` are the frames fully written so far. A cut stream delivers a prefix of them
   (`Framing.BrokenStreamDeliversPrefix`). The receiver has read `got` of them and finished with
   `done`; `won` says that frame `done` was new to its inbox and is about to be broadcast.
   */
  datatype Stream = Stream(
    from: NodeId, to: NodeId, channel: string, written: seq<Frame>, got: nat, done: nat, won: bool, rx: Rx)

  function FrameOf(item: Item): Frame {
    Frame(item.key.num, item.row.ts, item.row.payload)
  }

  /** The frame writer accepts the frame, given how frames are encoded. */
  predicate Fits(encode: Frame -> Bytes, f: Frame) {
    |encode(f)| <= Framing.MAX_FRAME_BYTES
  }

  function FrameKey(h: Hash, s: Stream, f: Frame): Key {
    InboxKey(h, s.from, s.channel, f.num)
  }

  // ----- One delivery task -----

  /**
   Where a task is: at its query, about to deliver the first row of a batch, about to mark it,
   waiting in its select after a pass that went well or not, on its way out, or gone.
   */
  datatype Pc = Query | Deliver(rows: seq<Item>) | Mark(rows: seq<Item>) | Waiting(ok: bool) | Exiting | Gone

  /** `token` is the wake channel of capacity one; `stop` a shutdown signal not yet seen. */
  datatype Task = Task(peer: NodeId, pc: Pc, token: bool, stop: bool, streams: map<string, nat>)

  function NewTask(peer: NodeId): Task {
    Task(peer, Query, false, false, map[])
  }

  predicate Alive(t: Task) {
    !t.pc.Gone?
  }

  /** The part of the world one task touches. */
  datatype Local = Local(table: Table, task: Task, net: seq<Stream>)

  datatype TaskEvent =
    | Fetch(rows: seq<Item>)
    | FetchFail
    | Open
    | OpenFail
    | Write
    | WriteFail
    | MarkOk(now: nat)
    | MarkFail
    | Wake
    | Timer
    | Stop

  /** The channel of the row at hand has an open stream. */
  predicate HasStream(t: Task) {
    t.pc.Deliver? && t.pc.rows != [] && t.pc.rows[0].row.channel in t.streams
  }

  predicate NeedsStream(t: Task) {
    t.pc.Deliver? && t.pc.rows != [] && t.pc.rows[0].row.channel !in t.streams
  }

  ghost predicate CanTask(l: Local, ev: TaskEvent) {
    match ev
    case Fetch(rows) => l.task.pc.Query? && IsQuery(l.table, l.task.peer, DELIVERY_BATCH, rows)
    case FetchFail => l.task.pc.Query?
    case Open => NeedsStream(l.task)
    case OpenFail => NeedsStream(l.task)
    case Write => HasStream(l.task) && l.task.streams[l.task.pc.rows[0].row.channel] < |l.net|
    case WriteFail => HasStream(l.task)
    case MarkOk(now) => l.task.pc.Mark? && l.task.pc.rows != []
    case MarkFail => l.task.pc.Mark?
    case Wake => l.task.pc.Waiting? && l.task.token
    case Timer => l.task.pc.Waiting?
    case Stop => l.task.pc.Waiting? && l.task.stop
  }

  /** A failed pass drops every stream of the task and backs off. */
  function Fail(t: Task): Task {
    t.(pc := Waiting(false), streams := map[])
  }

  function NextRow(rows: seq<Item>): Pc
    requires rows != []
  {
    if rows[1..] == [] then Query else Deliver(rows[1..])
  }

  function Append(s: Stream, f: Frame): Stream {
    s.(written := s.written + [f])
  }

  ghost function DoTask(me: NodeId, l: Local, ev: TaskEvent): Local
    requires CanTask(l, ev)
  {
    var t := l.task;
    match ev
    case Fetch(rows) => l.(task := t.(pc := if rows == [] then Waiting(true) else Deliver(rows)))
    case FetchFail => l.(task := Fail(t))
    case Open =>
      var channel := t.pc.rows[0].row.channel;
      l.(task := t.(streams := t.streams[channel := |l.net|]),
         net := l.net + [Stream(me, t.peer, channel, [], 0, 0, false, Arriving)])
    case OpenFail => l.(task := Fail(t))
    case Write =>
      var sid := t.streams[t.pc.rows[0].row.channel];
      l.(task := t.(pc := Mark(t.pc.rows)), net := l.net[sid := Append(l.net[sid], FrameOf(t.pc.rows[0]))])
    case WriteFail => l.(task := Fail(t))
    case MarkOk(now) =>
      l.(task := t.(pc := NextRow(t.pc.rows)), table := MarkDelivered(l.table, t.pc.rows[0].key, now))
    case MarkFail => l.(task := Fail(t))
    case Wake => l.(task := t.(pc := Query, token := false))
    case Timer => l.(task := t.(pc := Query))
    case Stop => l.(task := t.(pc := Exiting))
  }

  // ----- One install -----

  /** Where in the network a frame sits. */
  datatype At = At(sid: nat, idx: nat)

  /** One broadcast of an inbound message; `persisted` unless `inbox_record` itself failed. */
  datatype Emission = Emission(key: Key, at: At, persisted: bool, channel: string, payload: Bytes, ts: nat)

  /**
   `table`, `wakers` and `tasks` are the daemon's state (a task is named by its index), `resume`
   the peers a startup scan has yet to notify. The rest is history: `notified` are rows whose
   notify has completed in this process (and no panic of that peer's task since), `owed` the rows
   the startup scan found, `winner` the frame that created each inbox row, `emitted` every
   broadcast made, `down` whether shutdown was signalled.
   */
  datatype Node = Node(
    table: Table, wakers: map<NodeId, nat>, tasks: seq<Task>, resume: set<NodeId>,
    notified: set<Key>, owed: set<Key>, winner: map<Key, At>, emitted: seq<Emission>, down: bool)

  function EmptyNode(): Node {
    Node(map[], map[], [], {}, {}, {}, map[], [], false)
  }

  function PendingKeys(t: Table, peer: NodeId): set<Key> {
    set k | k in t && Pending(t, peer, k)
  }

  /** The peer has a wake handle whose receiving task still runs. */
  predicate Reachable(n: Node, peer: NodeId) {
    peer in n.wakers && n.wakers[peer] < |n.tasks| && Alive(n.tasks[n.wakers[peer]])
  }

  /** `notify_peer`: queue a wake for the running task, or replace a missing or closed handle by a fresh task. */
  function NotifyTables(n: Node, peer: NodeId): Node {
    if Reachable(n, peer) then
      var t := n.wakers[peer];
      n.(tasks := n.tasks[t := n.tasks[t].(token := true)])
    else
      n.(wakers := n.wakers[peer := |n.tasks|], tasks := n.tasks + [NewTask(peer)])
  }

  function Notify(n: Node, peer: NodeId): Node {
    NotifyTables(n, peer).(notified := n.notified + PendingKeys(n.table, peer))
  }

  function NotPeers(t: Table, keys: set<Key>, peer: NodeId): set<Key> {
    set k | k in keys && !(k in t && t[k].peer == peer)
  }

  /** The last step of a task: it removes its peer's wake handle, whatever that is by now. */
  function ExitTask(n: Node, t: nat): Node
    requires t < |n.tasks|
  {
    n.(tasks := n.tasks[t := n.tasks[t].(pc := Gone)], wakers := n.wakers - {n.tasks[t].peer})
  }

  function PanicTask(n: Node, t: nat): Node
    requires t < |n.tasks|
  {
    var peer := n.tasks[t].peer;
    n.(tasks := n.tasks[t := n.tasks[t].(pc := Gone)],
       notified := NotPeers(n.table, n.notified, peer), owed := NotPeers(n.table, n.owed, peer))
  }

  function AllGone(tasks: seq<Task>): (r: seq<Task>)
    ensures |r| == |tasks|
  {
    seq(|tasks|, i requires 0 <= i < |tasks| => tasks[i].(pc := Gone))
  }

  function AllStop(tasks: seq<Task>): (r: seq<Task>)
    ensures |r| == |tasks|
  {
    seq(|tasks|, i requires 0 <= i < |tasks| => tasks[i].(stop := true))
  }

  // ----- The whole system -----

  datatype Sys = Sys(nodes: map<NodeId, Node>, net: seq<Stream>)

  datatype RxEvent = Accept | Refuse | Break | Read | Record(now: nat) | RecordFail | Emit

  datatype Action =
    | Send(n: NodeId, peer: NodeId, channel: string, payload: Bytes, now: nat)
    | NotifyPeer(n: NodeId, peer: NodeId)
    | TaskStep(n: NodeId, t: nat, ev: TaskEvent)
    | TaskClosed(n: NodeId, t: nat)
    | TaskExit(n: NodeId, t: nat)
    | TaskPanic(n: NodeId, t: nat)
    | RxStep(sid: nat, rev: RxEvent)
    | Shutdown(n: NodeId)
    | Crash(n: NodeId)
    | ResumeScan(n: NodeId)
    | ResumeNext(n: NodeId, peer: NodeId)

  predicate IsTask(s: Sys, n: NodeId, t: nat) {
    n in s.nodes && t < |s.nodes[n].tasks|
  }

  function View(s: Sys, n: NodeId, t: nat): Local
    requires IsTask(s, n, t)
  {
    Local(s.nodes[n].table, s.nodes[n].tasks[t], s.net)
  }

  /** The receiver still processes what it has read. */
  predicate Consuming(s: Stream) {
    (s.rx.Live? || s.rx.Broken?) && s.done < s.got <= |s.written|
  }

  ghost predicate CanRx(s: Sys, sid: nat, ev: RxEvent) {
    && sid < |s.net| && s.net[sid].to in s.nodes
    && var st := s.net[sid];
       match ev
       case Accept => st.rx.Arriving?
       case Refuse => st.rx.Arriving?
       case Break => st.rx.Arriving? || st.rx.Live?
       case Read => st.rx.Live? && st.got < |st.written|
       case Record(now) => Consuming(st) && !st.won
       case RecordFail => Consuming(st) && !st.won
       case Emit => Consuming(st) && st.won
  }

  ghost predicate Can(s: Sys, a: Action) {
    match a
    case Send(n, peer, channel, payload, now) => n in s.nodes && n != peer
    case NotifyPeer(n, peer) => n in s.nodes
    case TaskStep(n, t, ev) =>
      IsTask(s, n, t) && CanTask(View(s, n, t), ev) && (ev.Open? ==> s.nodes[n].tasks[t].peer in s.nodes)
    case TaskClosed(n, t) =>
      // `wake.recv()` yields None: nothing queued and every sender dropped
      IsTask(s, n, t) && s.nodes[n].tasks[t].pc.Waiting? && !s.nodes[n].tasks[t].token && t !in s.nodes[n].wakers.Values
    case TaskExit(n, t) => IsTask(s, n, t) && s.nodes[n].tasks[t].pc.Exiting?
    case TaskPanic(n, t) => IsTask(s, n, t) && Alive(s.nodes[n].tasks[t])
    case RxStep(sid, ev) => CanRx(s, sid, ev)
    case Shutdown(n) => n in s.nodes
    case Crash(n) => n in s.nodes
    case ResumeScan(n) => n in s.nodes
    case ResumeNext(n, peer) => n in s.nodes && peer in s.nodes[n].resume
  }

  function SetNode(s: Sys, n: NodeId, node: Node): Sys {
    s.(nodes := s.nodes[n := node])
  }

  function EmissionOf(h: Hash, st: Stream, sid: nat, persisted: bool): Emission
    requires st.done < |st.written|
  {
    var f := st.written[st.done];
    Emission(FrameKey(h, st, f), At(sid, st.done), persisted, st.channel, f.payload, f.ts)
  }

  ghost function DoRx(h: Hash, s: Sys, sid: nat, ev: RxEvent): Sys
    requires CanRx(s, sid, ev)
  {
    var st := s.net[sid];
    var node := s.nodes[st.to];
    match ev
    case Accept => s.(net := s.net[sid := st.(rx := Live)])
    case Refuse => s.(net := s.net[sid := st.(rx := Refused)])
    case Break => s.(net := s.net[sid := st.(rx := Broken)])
    case Read => s.(net := s.net[sid := st.(got := st.got + 1)])
    case Record(now) =>
      var f := st.written[st.done];
      var k := FrameKey(h, st, f);
      if k in node.table then s.(net := s.net[sid := st.(done := st.done + 1)])
      else
        var table := InboxRecord(h, node.table, st.from, st.channel, f.num, f.payload, f.ts, now);
        SetNode(s, st.to, node.(table := table, winner := node.winner[k := At(sid, st.done)]))
        .(net := s.net[sid := st.(won := true)])
    case RecordFail =>
      SetNode(s, st.to, node.(emitted := node.emitted + [EmissionOf(h, st, sid, false)]))
      .(net := s.net[sid := st.(done := st.done + 1)])
    case Emit =>
      SetNode(s, st.to, node.(emitted := node.emitted + [EmissionOf(h, st, sid, true)]))
      .(net := s.net[sid := st.(done := st.done + 1, won := false)])
  }

  /** A crash takes the receiving end of every stream to the install with it. */
  function CutTo(net: seq<Stream>, n: NodeId): (r: seq<Stream>)
    ensures |r| == |net|
  {
    seq(|net|, i requires 0 <= i < |net| => if net[i].to == n then net[i].(rx := Crashed) else net[i])
  }

  ghost function Do(h: Hash, s: Sys, a: Action): Sys
    requires Can(s, a)
  {
    match a
    case Send(n, peer, channel, payload, now) =>
      SetNode(s, n, s.nodes[n].(table := Enqueue(h, s.nodes[n].table, n, peer, channel, payload, now)))
    case NotifyPeer(n, peer) => SetNode(s, n, Notify(s.nodes[n], peer))
    case TaskStep(n, t, ev) =>
      var l := DoTask(n, View(s, n, t), ev);
      SetNode(s, n, s.nodes[n].(table := l.table, tasks := s.nodes[n].tasks[t := l.task])).(net := l.net)
    case TaskClosed(n, t) =>
      SetNode(s, n, s.nodes[n].(tasks := s.nodes[n].tasks[t := s.nodes[n].tasks[t].(pc := Exiting)]))
    case TaskExit(n, t) => SetNode(s, n, ExitTask(s.nodes[n], t))
    case TaskPanic(n, t) => SetNode(s, n, PanicTask(s.nodes[n], t))
    case RxStep(sid, ev) => DoRx(h, s, sid, ev)
    case Shutdown(n) => SetNode(s, n, s.nodes[n].(tasks := AllStop(s.nodes[n].tasks), down := true))
    case Crash(n) =>
      SetNode(s, n, s.nodes[n].(tasks := AllGone(s.nodes[n].tasks), wakers := map[], resume := {},
                                notified := {}, owed := {}, down := false)).(net := CutTo(s.net, n))
    case ResumeScan(n) =>
      var t := s.nodes[n].table;
      SetNode(s, n, s.nodes[n].(resume := PendingPeers(t), owed := set k | k in t && Pending(t, t[k].peer, k)))
    case ResumeNext(n, peer) =>
      SetNode(s, n, Notify(s.nodes[n], peer).(resume := s.nodes[n].resume - {peer}))
  }

  /** Any installs, with nothing sent yet. */
  predicate Init(s: Sys) {
    s.net == [] && forall n :: n in s.nodes ==> s.nodes[n] == EmptyNode()
  }

  ghost predicate IsRun(h: Hash, s: Sys, acts: seq<Action>)
    decreases |acts|
  {
    acts == [] || (Can(s, acts[0]) && IsRun(h, Do(h, s, acts[0]), acts[1..]))
  }

  ghost function Run(h: Hash, s: Sys, acts: seq<Action>): Sys
    requires IsRun(h, s, acts)
    decreases |acts|
  {
    if acts == [] then s else Run(h, Do(h, s, acts[0]), acts[1..])
  }

  /** `acts` is a run from `s` to `s'`. */
  ghost predicate Reaches(h: Hash, s: Sys, acts: seq<Action>, s': Sys) {
    IsRun(h, s, acts) && Run(h, s, acts) == s'
  }

  lemma {:induction false} ReachesOn(h: Hash, s: Sys, acts: seq<Action>, s1: Sys, a: Action)
    requires Reaches(h, s, acts, s1) && Can(s1, a)
    ensures Reaches(h, s, acts + [a], Do(h, s1, a))
    decreases |acts|
  {
    hide Can, Do;
    if acts == [] {
      assert acts + [a] == [a] && [a][1..] == [];
      assert IsRun(h, Do(h, s, a), []) && Run(h, Do(h, s, a), []) == Do(h, s, a);
    } else {
      assert (acts + [a])[1..] == acts[1..] + [a];
      ReachesOn(h, Do(h, s, acts[0]), acts[1..], s1, a);
    }
  }

  lemma {:induction false} ReachesThrough(h: Hash, s: Sys, acts: seq<Action>, s1: Sys, more: seq<Action>, s2: Sys)
    requires Reaches(h, s, acts, s1) && Reaches(h, s1, more, s2)
    ensures Reaches(h, s, acts + more, s2)
    decreases |acts|
  {
    hide Can, Do;
    if acts == [] {
      assert acts + more == more;
    } else {
      assert (acts + more)[1..] == acts[1..] + more;
      ReachesThrough(h, Do(h, s, acts[0]), acts[1..], s1, more, s2);
    }
  }

  // ----- What may happen -----

  /** At any time an install may crash, be shut down, be notified or scan its outbox, and any running task of it may panic. */
  lemma MayHappen(s: Sys, n: NodeId, peer: NodeId, t: nat)
    requires n in s.nodes
    ensures Can(s, Crash(n)) && Can(s, Shutdown(n)) && Can(s, NotifyPeer(n, peer)) && Can(s, ResumeScan(n))
    ensures t < |s.nodes[n].tasks| && !s.nodes[n].tasks[t].pc.Gone? ==> Can(s, TaskPanic(n, t))
  {
  }

  /** A stream may be refused before it is accepted, and cut at any time until its receiver is gone. */
  lemma MayBreak(s: Sys, sid: nat)
    requires sid < |s.net| && s.net[sid].to in s.nodes
    ensures s.net[sid].rx.Arriving? ==> Can(s, RxStep(sid, Accept)) && Can(s, RxStep(sid, Refuse))
    ensures s.net[sid].rx.Arriving? || s.net[sid].rx.Live? ==> Can(s, RxStep(sid, Break))
  {
  }

  /** At any point of a pass something may fail, whatever the rows at hand. */
  lemma MayFail(l: Local)
    ensures l.task.pc.Query? ==> CanTask(l, FetchFail)
    ensures l.task.pc.Deliver? && l.task.pc.rows != [] ==>
              CanTask(l, if l.task.pc.rows[0].row.channel in l.task.streams then WriteFail else OpenFail)
    ensures l.task.pc.Mark? ==> CanTask(l, MarkFail)
    ensures l.task.pc.Waiting? ==> CanTask(l, Timer)
  {
  }

  /** A crash keeps the table and what is in the network, and loses the rest: tasks, handles, and every receiving end. */
  lemma CrashLoses(h: Hash, s: Sys, n: NodeId)
    requires n in s.nodes
    ensures var e := Do(h, s, Crash(n));
            && e.nodes[n].table == s.nodes[n].table && e.nodes[n].wakers == map[] && e.nodes.Keys == s.nodes.Keys
            && |e.nodes[n].tasks| == |s.nodes[n].tasks| && (forall t :: 0 <= t < |e.nodes[n].tasks| ==> e.nodes[n].tasks[t].pc.Gone?)
            && (forall m :: m in s.nodes && m != n ==> e.nodes[m] == s.nodes[m])
            && |e.net| == |s.net|
            && forall i :: 0 <= i < |s.net| ==> e.net[i] == if s.net[i].to == n then s.net[i].(rx := Crashed) else s.net[i]
  {
  }
}
