/**
 End-to-end integrity, at-most-once emission and conservation of messages: what every step keeps
 in the outboxes, streams and inboxes of all installs, retries, crashes, overlapping streams and
 colliding channel ids included.
 */
module DeliveryIntegrity {
  import opened Basics
  import opened Messages
  import opened Delivery

  // ----- What never changes -----

  /** The stream is the same one, with nothing written to it taken back. */
  predicate SameStream(a: Stream, b: Stream) {
    && a.from == b.from && a.to == b.to && a.channel == b.channel
    && a.written <= b.written
  }

  ghost predicate NetGrows(net: seq<Stream>, net': seq<Stream>) {
    |net| <= |net'| && forall i :: 0 <= i < |net| ==> SameStream(net[i], net'[i])
  }

  ghost predicate Evolves(s: Sys, s': Sys) {
    && s.nodes.Keys == s'.nodes.Keys
    && (forall n :: n in s.nodes ==> Grows(s.nodes[n].table, s'.nodes[n].table))
    && NetGrows(s.net, s'.net)
  }

  lemma TaskEvolves(me: NodeId, l: Local, ev: TaskEvent)
    requires CanTask(l, ev)
    ensures Grows(l.table, DoTask(me, l, ev).table)
    ensures NetGrows(l.net, DoTask(me, l, ev).net)
  {
  }

  lemma EvolvesTo(s: Sys, n: NodeId, node: Node, net: seq<Stream>)
    requires n in s.nodes && Grows(s.nodes[n].table, node.table) && NetGrows(s.net, net)
    ensures Evolves(s, SetNode(s, n, node).(net := net))
  {
  }

  lemma RxEvolves(h: Hash, s: Sys, sid: nat, ev: RxEvent)
    requires CanRx(s, sid, ev)
    ensures Evolves(s, DoRx(h, s, sid, ev))
  {
    var s' := DoRx(h, s, sid, ev);
    assert NetGrows(s.net, s'.net);
    EvolvesTo(s, s.net[sid].to, s'.nodes[s.net[sid].to], s'.net);
    assert s' == SetNode(s, s.net[sid].to, s'.nodes[s.net[sid].to]).(net := s'.net);
  }

  /** No step loses or rewrites a message, takes back a delivery mark, or rewrites a stream. */
  lemma StepEvolves(h: Hash, s: Sys, a: Action)
    requires Can(s, a)
    ensures Evolves(s, Do(h, s, a))
  {
    if a.RxStep? {
      RxEvolves(h, s, a.sid, a.rev);
    } else {
      var s', n := Do(h, s, a), a.n;
      if a.TaskStep? {
        TaskEvolves(n, View(s, n, a.t), a.ev);
      } else if a.Send? {
        NextKeyIsNew(h, s.nodes[n].table, n, a.channel);
      }
      assert s' == SetNode(s, n, s'.nodes[n]).(net := s'.net);
      EvolvesTo(s, n, s'.nodes[n], s'.net);
    }
  }

  lemma {:induction false} RunEvolves(h: Hash, s: Sys, acts: seq<Action>)
    requires IsRun(h, s, acts)
    ensures forall n :: n in s.nodes ==> n in Run(h, s, acts).nodes && Grows(s.nodes[n].table, Run(h, s, acts).nodes[n].table)
    decreases |acts|
  {
    hide Can, Do;
    if acts != [] {
      StepEvolves(h, s, acts[0]);
      RunEvolves(h, Do(h, s, acts[0]), acts[1..]);
    }
  }

  // ----- The invariant -----

  /** The outbox row behind a frame: same key, channel, payload and timestamp, addressed to the stream's receiver. */
  ghost predicate Backed(h: Hash, s: Sys, st: Stream, f: Frame) {
    var k := FrameKey(h, st, f);
    && st.from in s.nodes && k in s.nodes[st.from].table
    && var row := s.nodes[st.from].table[k];
       row.direction == Out && row.channel == st.channel && row.peer == st.to && row.payload == f.payload && row.ts == f.ts
  }

  predicate Bounds(s: Stream) {
    && s.done <= s.got <= |s.written| && (s.won ==> s.done < s.got)
    && (s.rx.Arriving? || s.rx.Refused? ==> s.got == 0)
  }

  ghost predicate StreamOk(h: Hash, s: Sys, st: Stream) {
    && st.from != st.to && st.from in s.nodes && st.to in s.nodes
    && Bounds(st)
    && forall i :: 0 <= i < |st.written| ==> Backed(h, s, st, st.written[i])
  }

  /** Frame `idx` of stream `sid` is the message of row `k` of install `n`, on a stream to its own peer for its own channel. */
  ghost predicate CarriedAt(s: Sys, n: NodeId, k: Key, sid: nat, idx: nat) {
    && n in s.nodes && k in s.nodes[n].table && sid < |s.net| && idx < |s.net[sid].written|
    && var row := s.nodes[n].table[k];
       && s.net[sid].from == n && s.net[sid].to == row.peer && s.net[sid].channel == row.channel
       && s.net[sid].written[idx] == Frame(k.num, row.ts, row.payload)
  }

  ghost predicate Carried(s: Sys, n: NodeId, k: Key) {
    exists sid: nat, idx: nat :: CarriedAt(s, n, k, sid, idx)
  }

  /** The batch rows a task holds are rows of its own outbox for its own peer. */
  ghost predicate ItemOk(t: Table, peer: NodeId, item: Item) {
    && item.key in t && SameMessage(item.row, t[item.key])
    && item.row.direction == Out && item.row.peer == peer
  }

  function Rows(pc: Pc): seq<Item> {
    match pc
    case Deliver(rows) => rows
    case Mark(rows) => rows
    case _ => []
  }

  ghost predicate OpenFor(s: Sys, n: NodeId, peer: NodeId, channel: string, sid: nat) {
    sid < |s.net| && s.net[sid].from == n && s.net[sid].to == peer && s.net[sid].channel == channel
  }

  ghost predicate TaskOk(s: Sys, n: NodeId, t: Task) {
    && n in s.nodes
    && (forall c :: c in t.streams ==> OpenFor(s, n, t.peer, c, t.streams[c]))
    && (forall i :: 0 <= i < |Rows(t.pc)| ==> ItemOk(s.nodes[n].table, t.peer, Rows(t.pc)[i]))
    && (t.pc.Mark? && t.pc.rows != [] ==> Carried(s, n, t.pc.rows[0].key))
    && (t.pc.Deliver? || t.pc.Mark? ==> t.pc.rows != [])
  }

  /** The sender's outbox row for an inbox row of install `r`. */
  ghost predicate FromSender(s: Sys, r: NodeId, k: Key, row: Row) {
    && k.sender in s.nodes && k in s.nodes[k.sender].table
    && var o := s.nodes[k.sender].table[k];
       o.direction == Out && o.peer == r && o.channel == row.channel && o.payload == row.payload && o.ts == row.ts
  }

  ghost predicate RowOk(h: Hash, s: Sys, n: NodeId, k: Key)
    requires n in s.nodes && k in s.nodes[n].table
  {
    var row := s.nodes[n].table[k];
    && k.cid == h(row.channel)
    && (row.direction == Out ==> k.sender == n && row.peer != n && (row.delivered.Some? ==> Carried(s, n, k)))
    && (row.direction == In ==> k.sender != n && row.peer == k.sender && row.delivered.Some? && FromSender(s, n, k, row))
  }

  ghost predicate StreamsOk(h: Hash, s: Sys) {
    forall sid :: 0 <= sid < |s.net| ==> StreamOk(h, s, s.net[sid])
  }

  ghost predicate TasksOk(s: Sys) {
    forall n, t: nat :: IsTask(s, n, t) ==> TaskOk(s, n, s.nodes[n].tasks[t])
  }

  ghost predicate RowsOk(h: Hash, s: Sys) {
    forall n, k :: n in s.nodes && k in s.nodes[n].table ==> RowOk(h, s, n, k)
  }

  // ----- Facts carry over when the world grows -----

  lemma BackedCarries(h: Hash, s: Sys, s': Sys, a: Stream, b: Stream, f: Frame)
    requires Evolves(s, s') && SameStream(a, b) && Backed(h, s, a, f)
    ensures Backed(h, s', b, f)
  {
    assert Grows(s.nodes[a.from].table, s'.nodes[a.from].table);
  }

  lemma CarriedCarries(s: Sys, s': Sys, n: NodeId, k: Key)
    requires Evolves(s, s') && Carried(s, n, k)
    ensures Carried(s', n, k)
  {
    var sid: nat, idx: nat :| CarriedAt(s, n, k, sid, idx);
    assert SameStream(s.net[sid], s'.net[sid]);
    assert Grows(s.nodes[n].table, s'.nodes[n].table);
    assert CarriedAt(s', n, k, sid, idx);
  }

  lemma StreamCarries(h: Hash, s: Sys, s': Sys, a: Stream, b: Stream)
    requires Evolves(s, s') && SameStream(a, b) && StreamOk(h, s, a)
    requires Bounds(b)
    requires |b.written| == |a.written| || (|b.written| == |a.written| + 1 && Backed(h, s', b, b.written[|a.written|]))
    ensures StreamOk(h, s', b)
  {
    forall i | 0 <= i < |b.written| ensures Backed(h, s', b, b.written[i]) {
      if i < |a.written| {
        assert b.written[i] == a.written[i];
        BackedCarries(h, s, s', a, b, a.written[i]);
      }
    }
  }

  lemma TaskCarries(s: Sys, s': Sys, n: NodeId, t: Task)
    requires Evolves(s, s') && TaskOk(s, n, t)
    ensures TaskOk(s', n, t)
  {
    assert Grows(s.nodes[n].table, s'.nodes[n].table);
    forall c | c in t.streams ensures OpenFor(s', n, t.peer, c, t.streams[c]) {
      assert OpenFor(s, n, t.peer, c, t.streams[c]);
      assert SameStream(s.net[t.streams[c]], s'.net[t.streams[c]]);
    }
    if t.pc.Mark? && t.pc.rows != [] {
      CarriedCarries(s, s', n, t.pc.rows[0].key);
    }
  }

  lemma RowCarries(h: Hash, s: Sys, s': Sys, n: NodeId, k: Key)
    requires Evolves(s, s') && n in s.nodes && k in s.nodes[n].table && RowOk(h, s, n, k)
    requires s'.nodes[n].table[k].direction == Out && s'.nodes[n].table[k].delivered.Some? ==> Carried(s', n, k)
    ensures RowOk(h, s', n, k)
  {
    assert Grows(s.nodes[n].table, s'.nodes[n].table);
    if s.nodes[n].table[k].direction == In {
      assert Grows(s.nodes[k.sender].table, s'.nodes[k.sender].table);
    }
  }

  // ----- Streams -----

  /** What a task writes is the row it holds, on a stream opened for that row's channel and peer. */
  lemma WriteIsBacked(h: Hash, s: Sys, n: NodeId, t: nat)
    requires RowsOk(h, s) && IsTask(s, n, t) && TaskOk(s, n, s.nodes[n].tasks[t]) && CanTask(View(s, n, t), Write)
    ensures var task := s.nodes[n].tasks[t];
            var sid := task.streams[task.pc.rows[0].row.channel];
            && Backed(h, s, s.net[sid], FrameOf(task.pc.rows[0]))
            && FrameKey(h, s.net[sid], FrameOf(task.pc.rows[0])) == task.pc.rows[0].key
  {
    var task := s.nodes[n].tasks[t];
    var item := task.pc.rows[0];
    assert ItemOk(s.nodes[n].table, task.peer, Rows(task.pc)[0]);
    assert OpenFor(s, n, task.peer, item.row.channel, task.streams[item.row.channel]);
    assert RowOk(h, s, n, item.key);
  }

  lemma OpenedIsOk(h: Hash, s: Sys, n: NodeId, t: nat)
    requires TasksOk(s) && RowsOk(h, s) && Can(s, TaskStep(n, t, Open))
    ensures var s' := Do(h, s, TaskStep(n, t, Open)); |s'.net| == |s.net| + 1 && StreamOk(h, s', s'.net[|s.net|])
  {
    var task := s.nodes[n].tasks[t];
    assert TaskOk(s, n, task) && ItemOk(s.nodes[n].table, task.peer, Rows(task.pc)[0]);
    assert RowOk(h, s, n, task.pc.rows[0].key);
  }

  /** What one step of a task does to a stream: nothing, or one more frame. */
  lemma StreamAfterTask(me: NodeId, l: Local, ev: TaskEvent, sid: nat)
    requires CanTask(l, ev) && sid < |l.net|
    ensures sid < |DoTask(me, l, ev).net| <= |l.net| + (if ev.Open? then 1 else 0) && (ev.Write? ==> HasStream(l.task))
    ensures DoTask(me, l, ev).net[sid] ==
              if ev.Write? && sid == l.task.streams[l.task.pc.rows[0].row.channel] then Append(l.net[sid], FrameOf(l.task.pc.rows[0]))
              else l.net[sid]
  {
  }

  lemma StreamTaskStep(h: Hash, s: Sys, n: NodeId, t: nat, ev: TaskEvent, sid: nat)
    requires StreamsOk(h, s) && TasksOk(s) && RowsOk(h, s) && Can(s, TaskStep(n, t, ev)) && sid < |s.net|
    ensures var s' := Do(h, s, TaskStep(n, t, ev)); sid < |s'.net| && StreamOk(h, s', s'.net[sid])
  {
    hide TasksOk, RowsOk, CanTask, Backed;
    var s', task := Do(h, s, TaskStep(n, t, ev)), s.nodes[n].tasks[t];
    StepEvolves(h, s, TaskStep(n, t, ev));
    StreamAfterTask(n, View(s, n, t), ev, sid);
    if s'.net[sid] != s.net[sid] {
      TaskIsOk(s, n, t);
      WriteIsBacked(h, s, n, t);
      BackedCarries(h, s, s', s.net[sid], s'.net[sid], FrameOf(task.pc.rows[0]));
    }
    StreamCarries(h, s, s', s.net[sid], s'.net[sid]);
  }

  lemma TaskIsOk(s: Sys, n: NodeId, t: nat)
    requires TasksOk(s) && IsTask(s, n, t)
    ensures TaskOk(s, n, s.nodes[n].tasks[t])
  {
  }

  lemma NoOpenNoStream(me: NodeId, l: Local, ev: TaskEvent)
    requires CanTask(l, ev) && !ev.Open?
    ensures |DoTask(me, l, ev).net| == |l.net|
  {
  }

  lemma StreamsTaskStep(h: Hash, s: Sys, n: NodeId, t: nat, ev: TaskEvent)
    requires StreamsOk(h, s) && TasksOk(s) && RowsOk(h, s) && Can(s, TaskStep(n, t, ev))
    ensures StreamsOk(h, Do(h, s, TaskStep(n, t, ev)))
  {
    hide TasksOk, RowsOk, StreamOk, CanTask;
    var s' := Do(h, s, TaskStep(n, t, ev));
    forall sid | 0 <= sid < |s'.net| ensures StreamOk(h, s', s'.net[sid]) {
      if sid < |s.net| {
        StreamTaskStep(h, s, n, t, ev, sid);
      } else if ev.Open? {
        OpenedIsOk(h, s, n, t);
      } else {
        NoOpenNoStream(n, View(s, n, t), ev);
      }
    }
  }

  /** Outside a task's own steps a stream only moves along at its receiving end. */
  predicate StreamMoves(a: Stream, b: Stream) {
    b == a.(got := b.got, done := b.done, won := b.won, rx := b.rx) && (Bounds(a) ==> Bounds(b))
  }

  lemma NetRx(h: Hash, s: Sys, sid: nat, ev: RxEvent)
    requires CanRx(s, sid, ev)
    ensures |DoRx(h, s, sid, ev).net| == |s.net| && StreamMoves(s.net[sid], DoRx(h, s, sid, ev).net[sid])
    ensures forall i :: 0 <= i < |s.net| && i != sid ==> DoRx(h, s, sid, ev).net[i] == s.net[i]
  {
  }

  lemma NetOther(h: Hash, s: Sys, a: Action)
    requires Can(s, a) && !a.TaskStep?
    ensures |Do(h, s, a).net| == |s.net|
    ensures forall sid :: 0 <= sid < |s.net| ==> StreamMoves(s.net[sid], Do(h, s, a).net[sid])
  {
    if a.RxStep? {
      hide CanRx;
      NetRx(h, s, a.sid, a.rev);
    }
  }

  lemma StreamsOther(h: Hash, s: Sys, a: Action)
    requires StreamsOk(h, s) && Can(s, a) && !a.TaskStep?
    ensures StreamsOk(h, Do(h, s, a))
  {
    var s' := Do(h, s, a);
    StepEvolves(h, s, a);
    NetOther(h, s, a);
    forall sid | 0 <= sid < |s'.net| ensures StreamOk(h, s', s'.net[sid]) {
      assert StreamMoves(s.net[sid], s'.net[sid]);
      StreamCarries(h, s, s', s.net[sid], s'.net[sid]);
    }
  }

  // ----- Tasks -----

  lemma FetchedRowsOk(s: Sys, n: NodeId, t: nat, rows: seq<Item>)
    requires IsTask(s, n, t) && CanTask(View(s, n, t), Fetch(rows))
    ensures forall i :: 0 <= i < |rows| ==> ItemOk(s.nodes[n].table, s.nodes[n].tasks[t].peer, rows[i])
  {
  }

  lemma TaskAfterOpen(h: Hash, s: Sys, n: NodeId, t: nat)
    requires TasksOk(s) && Can(s, TaskStep(n, t, Open))
    ensures var s' := Do(h, s, TaskStep(n, t, Open)); TaskOk(s', n, s'.nodes[n].tasks[t])
  {
    var s', task := Do(h, s, TaskStep(n, t, Open)), s.nodes[n].tasks[t];
    StepEvolves(h, s, TaskStep(n, t, Open));
    TaskCarries(s, s', n, task);
    assert OpenFor(s', n, task.peer, task.pc.rows[0].row.channel, |s.net|);
  }

  lemma TaskAfterWrite(h: Hash, s: Sys, n: NodeId, t: nat)
    requires TasksOk(s) && Can(s, TaskStep(n, t, Write))
    ensures var s' := Do(h, s, TaskStep(n, t, Write)); TaskOk(s', n, s'.nodes[n].tasks[t])
  {
    var s', task := Do(h, s, TaskStep(n, t, Write)), s.nodes[n].tasks[t];
    StepEvolves(h, s, TaskStep(n, t, Write));
    TaskCarries(s, s', n, task);
    var item := task.pc.rows[0];
    var sid := task.streams[item.row.channel];
    assert ItemOk(s.nodes[n].table, task.peer, Rows(task.pc)[0]);
    assert OpenFor(s, n, task.peer, item.row.channel, sid);
    assert CarriedAt(s', n, item.key, sid, |s.net[sid].written|);
  }

  lemma RestOk(t: Table, peer: NodeId, rows: seq<Item>)
    requires rows != [] && forall i :: 0 <= i < |rows| ==> ItemOk(t, peer, rows[i])
    ensures forall i :: 0 <= i < |rows[1..]| ==> ItemOk(t, peer, rows[1..][i])
  {
    forall i | 0 <= i < |rows[1..]| ensures ItemOk(t, peer, rows[1..][i]) {
      assert rows[1..][i] == rows[i + 1];
    }
  }

  lemma TaskAfterFetch(h: Hash, s: Sys, n: NodeId, t: nat, rows: seq<Item>)
    requires TasksOk(s) && Can(s, TaskStep(n, t, Fetch(rows)))
    ensures var s' := Do(h, s, TaskStep(n, t, Fetch(rows))); TaskOk(s', n, s'.nodes[n].tasks[t])
  {
    hide IsQuery, TasksOk;
    TaskIsOk(s, n, t);
    FetchedRowsOk(s, n, t, rows);
  }

  lemma TaskAfterMark(h: Hash, s: Sys, n: NodeId, t: nat, now: nat)
    requires TasksOk(s) && Can(s, TaskStep(n, t, MarkOk(now)))
    ensures var s' := Do(h, s, TaskStep(n, t, MarkOk(now))); TaskOk(s', n, s'.nodes[n].tasks[t])
  {
    hide TasksOk, Carried, OpenFor, ItemOk;
    var s', task := Do(h, s, TaskStep(n, t, MarkOk(now))), s.nodes[n].tasks[t];
    StepEvolves(h, s, TaskStep(n, t, MarkOk(now)));
    TaskIsOk(s, n, t);
    TaskCarries(s, s', n, task);
    assert Rows(task.pc) == task.pc.rows;
    RestOk(s'.nodes[n].table, task.peer, task.pc.rows);
  }

  /** A task after any other step of its own keeps its streams or drops them all, and has no batch or the one it had. */
  lemma TaskAfterQuiet(me: NodeId, l: Local, ev: TaskEvent)
    requires CanTask(l, ev) && !ev.Open? && !ev.Write? && !ev.Fetch? && !ev.MarkOk?
    ensures var l' := DoTask(me, l, ev);
            && l'.table == l.table && l'.net == l.net && l'.task.peer == l.task.peer && Rows(l'.task.pc) == []
            && !l'.task.pc.Deliver? && !l'.task.pc.Mark? && (l'.task.streams == l.task.streams || l'.task.streams == map[])
  {
  }

  lemma TaskAfterStep(h: Hash, s: Sys, n: NodeId, t: nat, ev: TaskEvent)
    requires TasksOk(s) && Can(s, TaskStep(n, t, ev))
    ensures var s' := Do(h, s, TaskStep(n, t, ev)); TaskOk(s', n, s'.nodes[n].tasks[t])
  {
    hide TasksOk, CanTask;
    if ev.Open? {
      TaskAfterOpen(h, s, n, t);
    } else if ev.Write? {
      TaskAfterWrite(h, s, n, t);
    } else if ev.Fetch? {
      TaskAfterFetch(h, s, n, t, ev.rows);
    } else if ev.MarkOk? {
      TaskAfterMark(h, s, n, t, ev.now);
    } else {
      TaskIsOk(s, n, t);
      TaskAfterQuiet(n, View(s, n, t), ev);
    }
  }

  predicate TaskMoves(t: Task, t': Task) {
    t'.peer == t.peer && t'.streams == t.streams && (t'.pc == t.pc || t'.pc == Gone || t'.pc == Exiting)
  }

  /** The step acts on the tasks of install `n`. */
  predicate TouchesTasks(a: Action, n: NodeId) {
    !a.RxStep? && !a.Send? && !a.ResumeScan? && a.n == n
  }

  lemma TasksElsewhere(h: Hash, s: Sys, a: Action, n: NodeId)
    requires Can(s, a) && n in Do(h, s, a).nodes && !TouchesTasks(a, n)
    ensures n in s.nodes && Do(h, s, a).nodes[n].tasks == s.nodes[n].tasks
  {
  }

  lemma NotifyMoves(n: Node, peer: NodeId, t: nat)
    requires t < |Notify(n, peer).tasks|
    ensures if t < |n.tasks| then TaskMoves(n.tasks[t], Notify(n, peer).tasks[t])
            else Notify(n, peer).tasks[t] == NewTask(peer)
  {
  }

  /** Outside its own steps a task keeps its batch and streams, or is fresh. */
  lemma TasksOther(h: Hash, s: Sys, a: Action, n: NodeId, t: nat)
    requires Can(s, a) && IsTask(Do(h, s, a), n, t) && !(a.TaskStep? && a.n == n && a.t == t)
    ensures if IsTask(s, n, t) then TaskMoves(s.nodes[n].tasks[t], Do(h, s, a).nodes[n].tasks[t])
            else Do(h, s, a).nodes[n].tasks[t] == NewTask(Do(h, s, a).nodes[n].tasks[t].peer)
  {
    if !TouchesTasks(a, n) {
      TasksElsewhere(h, s, a, n);
    } else if a.NotifyPeer? || a.ResumeNext? {
      NotifyMoves(s.nodes[n], a.peer, t);
    }
  }

  lemma TaskStaysOk(h: Hash, s: Sys, a: Action, n: NodeId, t: nat)
    requires TasksOk(s) && Can(s, a) && IsTask(Do(h, s, a), n, t) && !(a.TaskStep? && a.n == n && a.t == t)
    ensures TaskOk(Do(h, s, a), n, Do(h, s, a).nodes[n].tasks[t])
  {
    hide Can, Do, TaskOk, Evolves, TaskMoves;
    StepEvolves(h, s, a);
    TasksOther(h, s, a, n, t);
    if IsTask(s, n, t) {
      TaskCarries(s, Do(h, s, a), n, s.nodes[n].tasks[t]);
      MovedTaskOk(Do(h, s, a), n, s.nodes[n].tasks[t], Do(h, s, a).nodes[n].tasks[t]);
    } else {
      NewTaskOk(Do(h, s, a), n, Do(h, s, a).nodes[n].tasks[t].peer);
    }
  }

  lemma MovedTaskOk(s: Sys, n: NodeId, was: Task, t: Task)
    requires TaskOk(s, n, was) && TaskMoves(was, t)
    ensures TaskOk(s, n, t)
  {
  }

  lemma NewTaskOk(s: Sys, n: NodeId, peer: NodeId)
    requires n in s.nodes
    ensures TaskOk(s, n, NewTask(peer))
  {
  }

  lemma TasksStep(h: Hash, s: Sys, a: Action)
    requires TasksOk(s) && Can(s, a)
    ensures TasksOk(Do(h, s, a))
  {
    hide Can, Do, TaskOk;
    forall n, t: nat | IsTask(Do(h, s, a), n, t) ensures TaskOk(Do(h, s, a), n, Do(h, s, a).nodes[n].tasks[t]) {
      if a.TaskStep? && a.n == n && a.t == t {
        TaskAfterStep(h, s, n, t, a.ev);
      } else {
        TaskStaysOk(h, s, a, n, t);
      }
    }
  }

  // ----- Rows -----

  /** A row a receiver may add. */
  predicate Received(t: Table, from: NodeId, k: Key, row: Row) {
    k !in t && k.sender == from && row.direction == In
  }

  ghost predicate GainsReceived(t: Table, t': Table, from: NodeId) {
    exists k, row :: Received(t, from, k, row) && t' == t[k := row]
  }

  /** What one step can do to the table of install `n`. */
  ghost predicate TableStep(h: Hash, s: Sys, a: Action, n: NodeId, now: Table)
    requires Can(s, a) && n in s.nodes
  {
    var was := s.nodes[n].table;
    || now == was
    || (a.Send? && a.n == n && now == Enqueue(h, was, n, a.peer, a.channel, a.payload, a.now))
    || (a.TaskStep? && a.n == n && a.ev.MarkOk? && now == MarkDelivered(was, s.nodes[n].tasks[a.t].pc.rows[0].key, a.ev.now))
    || (a.RxStep? && a.rev.Record? && s.net[a.sid].to == n && GainsReceived(was, now, s.net[a.sid].from))
  }

  lemma TableRx(h: Hash, s: Sys, sid: nat, ev: RxEvent, n: NodeId)
    requires CanRx(s, sid, ev) && n in s.nodes
    ensures n in DoRx(h, s, sid, ev).nodes
    ensures var was, now := s.nodes[n].table, DoRx(h, s, sid, ev).nodes[n].table;
            now == was || (ev.Record? && s.net[sid].to == n && GainsReceived(was, now, s.net[sid].from))
  {
    if ev.Record? {
      var st := s.net[sid];
      var f := st.written[st.done];
      var k := FrameKey(h, st, f);
      var row := Row(In, st.channel, st.from, f.payload, f.ts, Some(ev.now));
      var t := s.nodes[st.to].table;
      assert k !in t ==> Received(t, st.from, k, row) && InboxRecord(h, t, st.from, st.channel, f.num, f.payload, f.ts, ev.now) == t[k := row];
    }
  }

  lemma TableTask(me: NodeId, l: Local, ev: TaskEvent)
    requires CanTask(l, ev)
    ensures DoTask(me, l, ev).table == if ev.MarkOk? then MarkDelivered(l.table, l.task.pc.rows[0].key, ev.now) else l.table
  {
  }

  lemma TableSteps(h: Hash, s: Sys, a: Action, n: NodeId)
    requires Can(s, a) && n in s.nodes
    ensures n in Do(h, s, a).nodes && TableStep(h, s, a, n, Do(h, s, a).nodes[n].table)
  {
    hide CanTask, CanRx, DoTask, DoRx, MarkDelivered, Enqueue, GainsReceived;
    if a.RxStep? {
      TableRx(h, s, a.sid, a.rev, n);
    } else if a.TaskStep? {
      TableTask(a.n, View(s, a.n, a.t), a.ev);
    }
  }

  /** Only marking by a task changes the delivery state of a row, and only enqueue and record make rows. */
  lemma RowChanges(h: Hash, s: Sys, a: Action, n: NodeId, k: Key)
    requires Can(s, a) && n in s.nodes && n in Do(h, s, a).nodes && k in Do(h, s, a).nodes[n].table
    ensures if k in s.nodes[n].table then
              Do(h, s, a).nodes[n].table[k] == s.nodes[n].table[k] ||
              (a.TaskStep? && a.n == n && a.ev.MarkOk? && k == s.nodes[n].tasks[a.t].pc.rows[0].key)
            else (a.Send? && a.n == n) || (a.RxStep? && a.rev.Record? && s.net[a.sid].to == n)
  {
    hide Do;
    TableSteps(h, s, a, n);
    if a.Send? && a.n == n {
      NextKeyIsNew(h, s.nodes[n].table, n, a.channel);
    }
  }

  /** A row is marked only by the task that has just written it. */
  lemma MarkedIsCarried(h: Hash, s: Sys, a: Action, n: NodeId, k: Key)
    requires TasksOk(s) && Can(s, a) && n in s.nodes && k in s.nodes[n].table && RowOk(h, s, n, k)
    requires var t := Do(h, s, a).nodes[n].table; k in t && t[k].direction == Out && t[k].delivered.Some?
    ensures Carried(Do(h, s, a), n, k)
  {
    StepEvolves(h, s, a);
    RowChanges(h, s, a, n, k);
    if s.nodes[n].table[k].delivered.None? {
      assert TaskOk(s, n, s.nodes[n].tasks[a.t]);
    }
    CarriedCarries(s, Do(h, s, a), n, k);
  }

  lemma SentRowOk(h: Hash, s: Sys, n: NodeId, peer: NodeId, channel: string, payload: Bytes, now: nat, k: Key)
    requires Can(s, Send(n, peer, channel, payload, now)) && k !in s.nodes[n].table
    requires k in Do(h, s, Send(n, peer, channel, payload, now)).nodes[n].table
    ensures RowOk(h, Do(h, s, Send(n, peer, channel, payload, now)), n, k)
  {
  }

  lemma RecordedRowOk(h: Hash, s: Sys, sid: nat, now: nat)
    requires StreamsOk(h, s) && CanRx(s, sid, Record(now))
    ensures var st, s' := s.net[sid], DoRx(h, s, sid, Record(now));
            var k := FrameKey(h, st, st.written[st.done]);
            k !in s.nodes[st.to].table ==> k in s'.nodes[st.to].table && RowOk(h, s', st.to, k)
  {
    var st, s' := s.net[sid], DoRx(h, s, sid, Record(now));
    assert StreamOk(h, s, st);
    var f := st.written[st.done];
    RxEvolves(h, s, sid, Record(now));
    BackedCarries(h, s, s', st, s'.net[sid], f);
  }

  lemma RowsStep(h: Hash, s: Sys, a: Action)
    requires StreamsOk(h, s) && TasksOk(s) && RowsOk(h, s) && Can(s, a)
    ensures RowsOk(h, Do(h, s, a))
  {
    var s' := Do(h, s, a);
    StepEvolves(h, s, a);
    forall n, k | n in s'.nodes && k in s'.nodes[n].table ensures RowOk(h, s', n, k) {
      RowChanges(h, s, a, n, k);
      if k in s.nodes[n].table {
        if s'.nodes[n].table[k].direction == Out && s'.nodes[n].table[k].delivered.Some? {
          MarkedIsCarried(h, s, a, n, k);
        }
        RowCarries(h, s, s', n, k);
      } else if a.Send? {
        SentRowOk(h, s, n, a.peer, a.channel, a.payload, a.now, k);
      } else {
        RecordedRowOk(h, s, a.sid, a.rev.now);
      }
    }
  }
}
