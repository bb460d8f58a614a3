/**
 Single flight and no lost wakeup: what the wake handles and delivery tasks of one install keep
 over every interleaving of notifies, passes, exits, panics, shutdowns, crashes and restarts.
 */
module DeliveryWake {
  import opened Basics
  import opened Messages
  import opened Delivery

  /** Every wake handle leads to a task of its peer, and every running task is the one its peer's handle leads to. */
  ghost predicate HandlesMatch(n: Node) {
    && (forall p :: p in n.wakers ==> n.wakers[p] < |n.tasks| && n.tasks[n.wakers[p]].peer == p)
    && (forall t :: 0 <= t < |n.tasks| && Alive(n.tasks[t]) ==>
          n.tasks[t].peer in n.wakers && n.wakers[n.tasks[t].peer] == t)
  }

  /** Without a shutdown signal no task is stopping. */
  ghost predicate StopsOnlyWhenDown(n: Node) {
    !n.down ==> forall t :: 0 <= t < |n.tasks| && Alive(n.tasks[t]) ==> !n.tasks[t].stop && !n.tasks[t].pc.Exiting?
  }

  /** The task will query the outbox again: a wake is queued, a pass is under way, or a failed pass awaits its retry. */
  predicate WillQuery(t: Task) {
    Alive(t) && !t.pc.Exiting? && (t.token || t.pc.Query? || t.pc.Deliver? || t.pc.Mark? || t.pc == Waiting(false))
  }

  predicate Covered(n: Node, peer: NodeId) {
    Reachable(n, peer) && WillQuery(n.tasks[n.wakers[peer]])
  }

  ghost predicate NoneForgotten(n: Node) {
    && n.notified <= n.table.Keys && n.owed <= n.table.Keys
    && (!n.down ==> forall k :: k in n.notified && Pending(n.table, n.table[k].peer, k) ==> Covered(n, n.table[k].peer))
    && (forall k :: k in n.owed && Pending(n.table, n.table[k].peer, k) ==> n.table[k].peer in n.resume || k in n.notified)
  }

  ghost predicate WakeInv(n: Node) {
    HandlesMatch(n) && StopsOnlyWhenDown(n) && NoneForgotten(n)
  }

  ghost predicate AllWake(s: Sys) {
    forall n :: n in s.nodes ==> WakeInv(s.nodes[n])
  }

  lemma WakeTable(n: Node, table: Table)
    requires WakeInv(n) && Grows(n.table, table)
    ensures WakeInv(n.(table := table))
  {
  }

  /** A step of task `t` that keeps it alive, and stops it querying only once nothing is pending for its peer. */
  ghost predicate GoodStep(n: Node, t: nat, table: Table, task: Task)
    requires t < |n.tasks|
  {
    var was := n.tasks[t];
    && Grows(n.table, table)
    && Alive(was) && Alive(task) && task.peer == was.peer && task.stop == was.stop
    && (task.pc.Exiting? ==> was.stop || was.pc.Exiting?)
    && (!was.stop ==> WillQuery(was) && !WillQuery(task) ==> forall k :: !Pending(table, was.peer, k))
  }

  lemma WakeReplace(n: Node, t: nat, table: Table, task: Task)
    requires WakeInv(n) && t < |n.tasks| && GoodStep(n, t, table, task)
    ensures WakeInv(n.(table := table, tasks := n.tasks[t := task]))
  {
    var n' := n.(table := table, tasks := n.tasks[t := task]);
    WakeTable(n, table);
    assert HandlesMatch(n') && StopsOnlyWhenDown(n');
    forall k | !n.down && k in n.notified && Pending(table, table[k].peer, k) ensures Covered(n', table[k].peer) {
      assert Covered(n.(table := table), table[k].peer);
    }
  }

  lemma TaskStepIsGood(me: NodeId, n: Node, net: seq<Stream>, t: nat, ev: TaskEvent)
    requires t < |n.tasks| && CanTask(Local(n.table, n.tasks[t], net), ev)
    ensures var l := DoTask(me, Local(n.table, n.tasks[t], net), ev);
            GoodStep(n, t, l.table, l.task)
  {
  }

  lemma WakeTaskStep(me: NodeId, n: Node, net: seq<Stream>, t: nat, ev: TaskEvent)
    requires WakeInv(n) && t < |n.tasks| && CanTask(Local(n.table, n.tasks[t], net), ev)
    ensures var l := DoTask(me, Local(n.table, n.tasks[t], net), ev);
            WakeInv(n.(table := l.table, tasks := n.tasks[t := l.task]))
  {
    var l := DoTask(me, Local(n.table, n.tasks[t], net), ev);
    TaskStepIsGood(me, n, net, t, ev);
    WakeReplace(n, t, l.table, l.task);
  }

  /** A queued token always makes the task query again. */
  lemma WakeToken(n: Node, peer: NodeId)
    requires WakeInv(n) && Reachable(n, peer)
    ensures WakeInv(NotifyTables(n, peer))
    ensures !n.down ==> Covered(NotifyTables(n, peer), peer)
  {
    var t := n.wakers[peer];
    WakeReplace(n, t, n.table, n.tasks[t].(token := true));
  }

  /** A missing or closed handle is replaced by the handle of a fresh task; no running task loses its own. */
  lemma WakeSpawn(n: Node, peer: NodeId)
    requires WakeInv(n) && !Reachable(n, peer)
    ensures WakeInv(NotifyTables(n, peer))
    ensures !n.down ==> Covered(NotifyTables(n, peer), peer)
  {
    var n' := NotifyTables(n, peer);
    assert HandlesMatch(n') && StopsOnlyWhenDown(n');
    forall k | !n.down && k in n.notified && Pending(n.table, n.table[k].peer, k) ensures Covered(n', n.table[k].peer) {
      assert Covered(n, n.table[k].peer);
    }
  }

  lemma WakeNotify(n: Node, peer: NodeId)
    requires WakeInv(n)
    ensures WakeInv(Notify(n, peer))
    ensures !n.down ==> Covered(Notify(n, peer), peer)
  {
    if Reachable(n, peer) {
      WakeToken(n, peer);
    } else {
      WakeSpawn(n, peer);
    }
  }

  /** The branch "all wake senders dropped" is never taken: a running task's handle stays in the map. */
  lemma HandleNeverDropped(n: Node, t: nat)
    requires WakeInv(n) && t < |n.tasks| && Alive(n.tasks[t])
    ensures t in n.wakers.Values
  {
    assert n.wakers[n.tasks[t].peer] == t;
  }

  /** The handle an exiting task removes is its own, so a successor always keeps its handle. */
  lemma ExitRemovesOwnHandle(n: Node, t: nat)
    requires WakeInv(n) && t < |n.tasks| && Alive(n.tasks[t])
    ensures n.tasks[t].peer in n.wakers && n.wakers[n.tasks[t].peer] == t
    ensures forall p :: p in n.wakers && p != n.tasks[t].peer ==> ExitTask(n, t).wakers[p] == n.wakers[p]
  {
  }

  lemma WakeExit(n: Node, t: nat)
    requires WakeInv(n) && t < |n.tasks| && n.tasks[t].pc.Exiting?
    ensures WakeInv(ExitTask(n, t))
  {
  }

  lemma WakePanic(n: Node, t: nat)
    requires WakeInv(n) && t < |n.tasks| && Alive(n.tasks[t])
    ensures WakeInv(PanicTask(n, t))
  {
    var n', peer := PanicTask(n, t), n.tasks[t].peer;
    assert HandlesMatch(n') && StopsOnlyWhenDown(n');
    forall k | !n.down && k in n'.notified && Pending(n.table, n.table[k].peer, k) ensures Covered(n', n.table[k].peer) {
      assert Covered(n, n.table[k].peer) && n.table[k].peer != peer;
    }
  }

  lemma WakeShutdown(n: Node)
    requires WakeInv(n)
    ensures WakeInv(n.(tasks := AllStop(n.tasks), down := true))
  {
  }

  lemma WakeRestart(n: Node)
    requires WakeInv(n)
    ensures WakeInv(n.(tasks := AllGone(n.tasks), wakers := map[], resume := {}, notified := {}, owed := {}, down := false))
  {
  }

  lemma WakeScan(n: Node)
    requires WakeInv(n)
    ensures WakeInv(n.(resume := PendingPeers(n.table), owed := set k | k in n.table && Pending(n.table, n.table[k].peer, k)))
  {
  }

  lemma WakeResume(n: Node, peer: NodeId)
    requires WakeInv(n) && peer in n.resume
    ensures WakeInv(Notify(n, peer).(resume := n.resume - {peer}))
  {
    WakeNotify(n, peer);
  }

  // ----- The whole system -----

  lemma AllButOne(s: Sys, n: NodeId, node: Node)
    requires AllWake(s) && n in s.nodes && WakeInv(node)
    ensures AllWake(SetNode(s, n, node))
  {
  }

  lemma WakeRx(h: Hash, s: Sys, sid: nat, ev: RxEvent)
    requires AllWake(s) && CanRx(s, sid, ev)
    ensures AllWake(DoRx(h, s, sid, ev))
  {
    var st := s.net[sid];
    var node := s.nodes[st.to];
    if ev.Record? {
      var f := st.written[st.done];
      var table := InboxRecord(h, node.table, st.from, st.channel, f.num, f.payload, f.ts, ev.now);
      WakeTable(node, table);
    }
    var s' := DoRx(h, s, sid, ev);
    assert s'.nodes == s.nodes[st.to := s'.nodes[st.to]];
    AllButOne(s, st.to, s'.nodes[st.to]);
  }

  lemma WakeStep(h: Hash, s: Sys, a: Action)
    requires AllWake(s) && Can(s, a)
    ensures AllWake(Do(h, s, a))
  {
    match a
    case RxStep(sid, ev) => WakeRx(h, s, sid, ev);
    case Send(n, peer, channel, payload, now) =>
      NextKeyIsNew(h, s.nodes[n].table, n, channel);
      WakeTable(s.nodes[n], Enqueue(h, s.nodes[n].table, n, peer, channel, payload, now));
    case NotifyPeer(n, peer) => WakeNotify(s.nodes[n], peer);
    case TaskStep(n, t, ev) => WakeTaskStep(n, s.nodes[n], s.net, t, ev);
    case TaskClosed(n, t) => HandleNeverDropped(s.nodes[n], t);
    case TaskExit(n, t) => WakeExit(s.nodes[n], t);
    case TaskPanic(n, t) => WakePanic(s.nodes[n], t);
    case Shutdown(n) => WakeShutdown(s.nodes[n]);
    case Crash(n) => WakeRestart(s.nodes[n]);
    case ResumeScan(n) => WakeScan(s.nodes[n]);
    case ResumeNext(n, peer) => WakeResume(s.nodes[n], peer);
  }

  lemma {:induction false} WakeRun(h: Hash, s: Sys, acts: seq<Action>)
    requires AllWake(s) && IsRun(h, s, acts)
    ensures AllWake(Run(h, s, acts))
    decreases |acts|
  {
    if acts != [] {
      WakeStep(h, s, acts[0]);
      WakeRun(h, Do(h, s, acts[0]), acts[1..]);
    }
  }

  lemma InitWake(s: Sys)
    requires Init(s)
    ensures AllWake(s)
  {
  }

  // ----- Main results -----

  /** At most one task is ever alive, and so ever draining, for a given peer. */
  lemma SingleFlight(h: Hash, s: Sys, acts: seq<Action>, n: NodeId, t: nat, u: nat)
    requires Init(s) && IsRun(h, s, acts)
    requires IsTask(Run(h, s, acts), n, t) && IsTask(Run(h, s, acts), n, u)
    requires var tasks := Run(h, s, acts).nodes[n].tasks; Alive(tasks[t]) && Alive(tasks[u]) && tasks[t].peer == tasks[u].peer
    ensures t == u
  {
    InitWake(s);
    WakeRun(h, s, acts);
    assert WakeInv(Run(h, s, acts).nodes[n]);
  }

  /**
   Outside shutdown, a row whose notify has completed and that is still pending is covered: the
   task behind its peer's handle is alive and has a wake queued, is in a pass that will query
   again, or waits for its retry after a failed pass.
   */
  lemma NoLostWakeup(h: Hash, s: Sys, acts: seq<Action>, n: NodeId, k: Key)
    requires Init(s) && IsRun(h, s, acts) && n in s.nodes && n in Run(h, s, acts).nodes
    requires var node := Run(h, s, acts).nodes[n];
             !node.down && k in node.notified && k in node.table && Pending(node.table, node.table[k].peer, k)
    ensures var node := Run(h, s, acts).nodes[n]; Covered(node, node.table[k].peer)
  {
    InitWake(s);
    WakeRun(h, s, acts);
    assert WakeInv(Run(h, s, acts).nodes[n]);
  }

  /** Once the startup scan has notified every peer it found, every row it found pending is covered. */
  lemma NoLostBacklog(h: Hash, s: Sys, acts: seq<Action>, n: NodeId, k: Key)
    requires Init(s) && IsRun(h, s, acts) && n in Run(h, s, acts).nodes
    requires var node := Run(h, s, acts).nodes[n];
             !node.down && node.resume == {} && k in node.owed && k in node.table && Pending(node.table, node.table[k].peer, k)
    ensures var node := Run(h, s, acts).nodes[n]; Covered(node, node.table[k].peer)
  {
    InitWake(s);
    WakeRun(h, s, acts);
    assert WakeInv(Run(h, s, acts).nodes[n]);
  }

  /** What the two histories mean: a completed notify registers every pending row of its peer, a scan every pending row. */
  lemma HistoriesAreComplete(h: Hash, s: Sys, n: NodeId, peer: NodeId, k: Key)
    requires n in s.nodes && Pending(s.nodes[n].table, peer, k)
    ensures k in Do(h, s, NotifyPeer(n, peer)).nodes[n].notified
    ensures k in Do(h, s, ResumeScan(n)).nodes[n].owed && peer in Do(h, s, ResumeScan(n)).nodes[n].resume
  {
    assert k in PendingKeys(s.nodes[n].table, peer);
  }

  /** A crash of the install, or a panic of the task of `k`'s own peer. */
  predicate StrikesOff(s: Sys, a: Action, n: NodeId, k: Key)
    requires n in s.nodes && k in s.nodes[n].table && (a.TaskPanic? ==> IsTask(s, a.n, a.t))
  {
    a == Crash(n) || (a.TaskPanic? && a.n == n && s.nodes[n].tasks[a.t].peer == s.nodes[n].table[k].peer)
  }

  /** A row that was registered, by a notify or by the startup scan, stays so while it is pending, but for a crash or a panic. */
  lemma HistoriesStay(h: Hash, s: Sys, a: Action, n: NodeId, k: Key)
    requires Can(s, a) && n in s.nodes && k in s.nodes[n].table && !StrikesOff(s, a, n, k)
    ensures n in Do(h, s, a).nodes
    ensures k in s.nodes[n].notified ==> k in Do(h, s, a).nodes[n].notified
    ensures k in s.nodes[n].owed && Pending(s.nodes[n].table, s.nodes[n].table[k].peer, k) ==> k in Do(h, s, a).nodes[n].owed
  {
  }

  /**
   The exception is real: a panicking task strands its peer's rows until the next notify, which
   finds the closed handle and replaces the task.
   */
  lemma PanicNeedsNotify(n: Node, t: nat)
    requires WakeInv(n) && t < |n.tasks| && Alive(n.tasks[t]) && !n.down
    ensures !Covered(PanicTask(n, t), n.tasks[t].peer)
    ensures Covered(Notify(PanicTask(n, t), n.tasks[t].peer), n.tasks[t].peer)
  {
    WakePanic(n, t);
    WakeNotify(PanicTask(n, t), n.tasks[t].peer);
  }
}
