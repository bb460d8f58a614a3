/**
 A covered row can still be delivered: from every reachable state the peer's task and the receiver
 alone can put it in the receiver's inbox, whatever streams broke and passes failed before
 (`per_peer_delivery_task` and `drain_peer`, crates/wt-daemon/src/state.rs).
 */
module DeliveryReach {
  import opened Basics
  import opened Messages
  import opened Delivery
  import opened DeliveryWake
  import opened DeliveryIntegrity
  import opened DeliveryEmission
  import opened DeliveryLimits
  import Drain

  // ----- Queries exist -----

  /** Nothing pending for `peer` outside `but` is listed before row `k`. */
  ghost predicate First(code: Code, t: Table, peer: NodeId, k: Key, but: seq<Item>) {
    Pending(t, peer, k) && !Holds(but, k) && forall x :: Pending(t, peer, x) && !Holds(but, x) ==> !Precedes(code, t, x, k)
  }

  /** The order of ties never puts two rows before each other. */
  ghost predicate StrictOrder(ties: (Key, Key) -> bool) {
    (forall a :: !ties(a, a)) && (forall a, b, c :: ties(a, b) && ties(b, c) ==> ties(a, c))
  }

  lemma PrecedesIsStrict(code: Code, t: Table, a: Key, b: Key, c: Key)
    requires StrictOrder(code.ties) && a in t && b in t && c in t
    ensures !Precedes(code, t, a, a)
    ensures Precedes(code, t, a, b) && Precedes(code, t, b, c) ==> Precedes(code, t, a, c)
  {
  }

  /** What is left of `peer`'s pending rows before row `k`. */
  ghost function Before(code: Code, t: Table, peer: NodeId, k: Key, but: seq<Item>): set<Key>
    requires k in t
  {
    set x | x in t && Pending(t, peer, x) && !Holds(but, x) && Precedes(code, t, x, k)
  }

  /** Among what is left, row `k` or something before it comes first. */
  lemma {:induction false} FirstExists(code: Code, t: Table, peer: NodeId, k: Key, but: seq<Item>) returns (m: Key)
    requires StrictOrder(code.ties) && Pending(t, peer, k) && !Holds(but, k)
    ensures First(code, t, peer, m, but) && (m == k || Precedes(code, t, m, k))
    decreases |Before(code, t, peer, k, but)|
  {
    m := k;
    if x :| Pending(t, peer, x) && !Holds(but, x) && Precedes(code, t, x, k) {
      forall y | y in Before(code, t, peer, x, but) ensures y in Before(code, t, peer, k, but) - {x} {
        PrecedesIsStrict(code, t, y, x, k);
        PrecedesIsStrict(code, t, x, x, k);
      }
      assert x in Before(code, t, peer, k, but);
      Drain.FewerElements(Before(code, t, peer, x, but), Before(code, t, peer, k, but) - {x});
      m := FirstExists(code, t, peer, x, but);
      PrecedesIsStrict(code, t, m, x, k);
    }
  }

  lemma ExtendOldest(code: Code, t: Table, peer: NodeId, rows: seq<Item>, k: Key)
    requires OldestPending(t, peer, rows) && First(code, t, peer, k, rows)
    ensures OldestPending(t, peer, rows + [Item(k, t[k])])
  {
    var more := rows + [Item(k, t[k])];
    forall i, x | 0 <= i < |more| && Pending(t, peer, x) && !Holds(more, x) ensures more[i].row.ts <= t[x].ts {
      assert forall j :: 0 <= j < |rows| && rows[j].key == x ==> more[j].key == x;
      assert !Holds(rows, x);
    }
  }

  lemma ExtendByTies(code: Code, t: Table, peer: NodeId, rows: seq<Item>, k: Key)
    requires ByTies(code, t, peer, rows) && First(code, t, peer, k, rows)
    ensures ByTies(code, t, peer, rows + [Item(k, t[k])])
  {
    var more := rows + [Item(k, t[k])];
    forall i, x | 0 <= i < |more| && Pending(t, peer, x) && !Holds(more, x) ensures !Precedes(code, t, x, more[i].key) {
      assert forall j :: 0 <= j < |rows| && rows[j].key == x ==> more[j].key == x;
      assert !Holds(rows, x);
    }
  }

  /** A batch that starts the order can be completed to a query result. */
  lemma {:induction false} CompleteQuery(code: Code, t: Table, peer: NodeId, rows: seq<Item>) returns (full: seq<Item>)
    requires StrictOrder(code.ties) && OldestPending(t, peer, rows) && ByTies(code, t, peer, rows) && 0 < |rows| <= DELIVERY_BATCH
    ensures IsQuery(t, peer, DELIVERY_BATCH, full) && ByTies(code, t, peer, full) && full != [] && full[0] == rows[0]
    decreases DELIVERY_BATCH - |rows|
  {
    hide OldestPending, ByTies, First, StrictOrder;
    if |rows| == DELIVERY_BATCH || forall x :: Pending(t, peer, x) ==> Holds(rows, x) {
      full := rows;
    } else {
      var x :| Pending(t, peer, x) && !Holds(rows, x);
      var k := FirstExists(code, t, peer, x, rows);
      FirstIsPending(code, t, peer, k, rows);
      ExtendOldest(code, t, peer, rows, k);
      ExtendByTies(code, t, peer, rows, k);
      full := CompleteQuery(code, t, peer, rows + [Item(k, t[k])]);
    }
  }

  lemma FirstIsPending(code: Code, t: Table, peer: NodeId, k: Key, but: seq<Item>)
    requires First(code, t, peer, k, but)
    ensures Pending(t, peer, k)
  {
  }

  lemma QueryWithHead(code: Code, t: Table, peer: NodeId, k: Key) returns (rows: seq<Item>)
    requires StrictOrder(code.ties) && First(code, t, peer, k, [])
    ensures IsQuery(t, peer, DELIVERY_BATCH, rows) && ByTies(code, t, peer, rows) && rows != [] && rows[0] == Item(k, t[k])
  {
    assert OldestPending(t, peer, []);
    ExtendOldest(code, t, peer, [], k);
    ExtendByTies(code, t, peer, [], k);
    assert [] + [Item(k, t[k])] == [Item(k, t[k])];
    rows := CompleteQuery(code, t, peer, [Item(k, t[k])]);
  }

  // ----- What the code of one task can get to -----

  ghost predicate ObeysNow(code: Code, l: Local, ev: TaskEvent) {
    && (ev.Write? && HasStream(l.task) ==> Fits(code.encode, FrameOf(l.task.pc.rows[0])))
    && (ev.Fetch? ==> ByTies(code, l.table, l.task.peer, ev.rows))
  }

  /** `evs` are steps of the code of one task that lead from `l` to `l'`. */
  ghost predicate LeadsByCode(code: Code, me: NodeId, l: Local, evs: seq<TaskEvent>, l': Local)
    decreases |evs|
  {
    if evs == [] then l == l'
    else CanTask(l, evs[0]) && ObeysNow(code, l, evs[0]) && LeadsByCode(code, me, DoTask(me, l, evs[0]), evs[1..], l')
  }

  ghost predicate CanGet(code: Code, me: NodeId, l: Local, l': Local) {
    exists evs :: LeadsByCode(code, me, l, evs, l')
  }

  lemma IsThere(code: Code, me: NodeId, l: Local)
    ensures CanGet(code, me, l, l)
  {
    assert LeadsByCode(code, me, l, [], l);
  }

  lemma GetBy(code: Code, me: NodeId, l: Local, ev: TaskEvent, l': Local)
    requires CanTask(l, ev) && ObeysNow(code, l, ev) && CanGet(code, me, DoTask(me, l, ev), l')
    ensures CanGet(code, me, l, l')
  {
    hide CanTask, DoTask;
    var evs :| LeadsByCode(code, me, DoTask(me, l, ev), evs, l');
    assert ([ev] + evs)[1..] == evs;
    assert LeadsByCode(code, me, l, [ev] + evs, l');
  }

  /** The task about to query, with no streams left. */
  function Fresh(l: Local): Local {
    l.(task := l.task.(pc := Query, streams := map[]))
  }

  /** The task can run and has a row in hand where the code does. */
  predicate CanRun(t: Task) {
    Alive(t) && !t.pc.Exiting? && (t.pc.Deliver? || t.pc.Mark? ==> t.pc.rows != [])
  }

  /** From anywhere a failure and the retry timer bring the task back to its query, with every stream dropped. */
  lemma StartOver(code: Code, me: NodeId, l: Local, l': Local)
    requires CanRun(l.task) && CanGet(code, me, Fresh(l), l')
    ensures CanGet(code, me, l, l')
  {
    hide CanGet;
    var failed := l.(task := Fail(l.task));
    GetBy(code, me, failed, Timer, l');
    match l.task.pc
    case Query => GetBy(code, me, l, FetchFail, l');
    case Deliver(_) => GetBy(code, me, l, if HasStream(l.task) then WriteFail else OpenFail, l');
    case Mark(_) => GetBy(code, me, l, MarkFail, l');
    case Waiting(_) =>
      GetBy(code, me, l.(task := l.task.(pc := Query)), FetchFail, l');
      GetBy(code, me, l, Timer, l');
  }

  /** The stream a fresh task opens for row `k`, once the row is written. */
  function Carrying(me: NodeId, peer: NodeId, item: Item): Stream {
    Stream(me, peer, item.row.channel, [FrameOf(item)], 0, 0, false, Arriving)
  }

  function AfterWrite(me: NodeId, l: Local, rows: seq<Item>): Local
    requires rows != []
  {
    l.(task := l.task.(pc := Mark(rows), streams := map[rows[0].row.channel := |l.net|]),
       net := l.net + [Carrying(me, l.task.peer, rows[0])])
  }

  lemma WriteFirst(code: Code, me: NodeId, l: Local, rows: seq<Item>, l': Local)
    requires l == Fresh(l) && IsQuery(l.table, l.task.peer, DELIVERY_BATCH, rows) && ByTies(code, l.table, l.task.peer, rows)
    requires rows != [] && Fits(code.encode, FrameOf(rows[0]))
    requires CanGet(code, me, AfterWrite(me, l, rows), l')
    ensures CanGet(code, me, l, l')
  {
    hide CanGet, IsQuery, ByTies, Fits;
    var l1 := DoTask(me, l, Fetch(rows));
    var l2 := DoTask(me, l1, Open);
    assert DoTask(me, l2, Write).net == AfterWrite(me, l, rows).net by {
      assert l2.net[|l.net|] == Stream(me, l.task.peer, rows[0].row.channel, [], 0, 0, false, Arriving);
      assert [] + [FrameOf(rows[0])] == [FrameOf(rows[0])];
    }
    GetBy(code, me, l2, Write, l');
    GetBy(code, me, l1, Open, l');
    GetBy(code, me, l, Fetch(rows), l');
  }

  /** Pending row `k` and every pending row of the peer listed before it are within the limit. */
  ghost predicate NothingInTheWay(code: Code, t: Table, peer: NodeId, k: Key) {
    Pending(t, peer, k) && forall x :: Pending(t, peer, x) && (x == k || Precedes(code, t, x, k)) ==> Fits(code.encode, FrameOf(Item(x, t[x])))
  }

  lemma MarkShrinks(t: Table, peer: NodeId, x: Key)
    requires Pending(t, peer, x)
    ensures |PendingKeys(MarkDelivered(t, x, 0), peer)| < |PendingKeys(t, peer)|
  {
    assert PendingKeys(MarkDelivered(t, x, 0), peer) == PendingKeys(t, peer) - {x};
  }

  /** Round by round the task writes and marks the first row, each time on a new stream, until row `k` is the first. */
  lemma {:induction false} GetsToWrite(code: Code, me: NodeId, l: Local, k: Key) returns (l': Local)
    requires StrictOrder(code.ties) && l == Fresh(l) && NothingInTheWay(code, l.table, l.task.peer, k)
    ensures CanGet(code, me, l, l')
    ensures l'.net != [] && l'.net[|l'.net| - 1] == Carrying(me, l.task.peer, Item(k, l.table[k]))
    decreases |PendingKeys(l.table, l.task.peer)|
  {
    hide CanGet, IsQuery, ByTies, Fits;
    var peer := l.task.peer;
    var x := FirstExists(code, l.table, peer, k, []);
    hide StrictOrder;
    var rows := QueryWithHead(code, l.table, peer, x);
    var l1 := AfterWrite(me, l, rows);
    if x == k {
      l' := l1;
      IsThere(code, me, l');
    } else {
      var l2 := DoTask(me, l1, MarkOk(0));
      MarkShrinks(l.table, peer, x);
      l' := GetsToWrite(code, me, Fresh(l2), k);
      StartOver(code, me, l2, l');
      GetBy(code, me, l1, MarkOk(0), l');
    }
    WriteFirst(code, me, l, rows, l');
  }

  // ----- In the whole system -----

  /** A run of the code to `s'`. */
  ghost predicate ReachesByCode(h: Hash, code: Code, s: Sys, acts: seq<Action>, s': Sys) {
    Reaches(h, s, acts, s') && CodeRun(h, code, s, acts)
  }

  function TaskSteps(n: NodeId, t: nat, evs: seq<TaskEvent>): seq<Action> {
    if evs == [] then [] else [TaskStep(n, t, evs[0])] + TaskSteps(n, t, evs[1..])
  }

  /** What the code of one task can get to is within reach of the whole system. */
  lemma {:induction false} CodeLifts(h: Hash, code: Code, s: Sys, n: NodeId, t: nat, evs: seq<TaskEvent>, l': Local)
    requires IsTask(s, n, t) && s.nodes[n].tasks[t].peer in s.nodes && LeadsByCode(code, n, View(s, n, t), evs, l')
    ensures ReachesByCode(h, code, s, TaskSteps(n, t, evs), Drain.WithLocal(s, n, t, l'))
    decreases |evs|
  {
    if evs == [] {
      assert s.nodes[n].tasks[t := l'.task] == s.nodes[n].tasks;
      assert s.nodes[n := s.nodes[n]] == s.nodes;
    } else {
      var l1 := DoTask(n, View(s, n, t), evs[0]);
      Drain.MoveIsAStep(h, s, n, t, Drain.Own(evs[0]));
      Drain.WithLocalTwice(s, n, t, l1, l');
      Drain.WithLocalHas(s, n, t, l1);
      assert Obeys(code, s, TaskStep(n, t, evs[0]));
      hide Can, Do, CanTask, DoTask, Drain.WithLocal, Obeys, ObeysNow;
      CodeLifts(h, code, Drain.WithLocal(s, n, t, l1), n, t, evs[1..], l');
      assert TaskSteps(n, t, evs)[0] == TaskStep(n, t, evs[0]) && TaskSteps(n, t, evs)[1..] == TaskSteps(n, t, evs[1..]);
    }
  }

  lemma {:induction false} CodeOn(h: Hash, code: Code, s: Sys, acts: seq<Action>, s1: Sys, a: Action)
    requires ReachesByCode(h, code, s, acts, s1) && Can(s1, a) && Obeys(code, s1, a)
    ensures ReachesByCode(h, code, s, acts + [a], Do(h, s1, a))
    decreases |acts|
  {
    hide Can, Do, Obeys;
    ReachesOn(h, s, acts, s1, a);
    if acts == [] {
      assert (acts + [a])[1..] == [] && (acts + [a])[0] == a;
      assert CodeRun(h, code, Do(h, s, a), []);
    } else {
      assert (acts + [a])[1..] == acts[1..] + [a];
      CodeOn(h, code, Do(h, s, acts[0]), acts[1..], s1, a);
    }
  }

  /** The receiver accepts the last stream, whose first frame is row `k`, reads it and records it. */
  lemma Receives(h: Hash, code: Code, s: Sys, acts: seq<Action>, s1: Sys, n: NodeId, k: Key, row: Row)
    returns (more: seq<Action>)
    requires Inv(h, s) && ReachesByCode(h, code, s, acts, s1)
    requires n in s1.nodes && k in s1.nodes[n].table && s1.nodes[n].table[k].direction == Out && SameMessage(row, s1.nodes[n].table[k])
    requires row.peer in s1.nodes && s1.net != [] && s1.net[|s1.net| - 1] == Carrying(n, row.peer, Item(k, row))
    ensures acts <= more && more[|acts|..] == [RxStep(|s1.net| - 1, Accept), RxStep(|s1.net| - 1, Read), RxStep(|s1.net| - 1, Record(0))]
    ensures IsRun(h, s, more) && CodeRun(h, code, s, more)
    ensures row.peer in Run(h, s, more).nodes && InInbox(Run(h, s, more).nodes[row.peer].table, k)
  {
    hide Inv, CodeRun, InInbox;
    var sid := |s1.net| - 1;
    InvRun(h, s, acts);
    KeyIsFree(h, s1, n, k, row);
    CodeOn(h, code, s, acts, s1, RxStep(sid, Accept));
    var s2 := Do(h, s1, RxStep(sid, Accept));
    CodeOn(h, code, s, acts + [RxStep(sid, Accept)], s2, RxStep(sid, Read));
    var s3 := Do(h, s2, RxStep(sid, Read));
    more := acts + [RxStep(sid, Accept)] + [RxStep(sid, Read)];
    CodeOn(h, code, s, more, s3, RxStep(sid, Record(0)));
    more := more + [RxStep(sid, Record(0))];
    Recorded(h, s3, sid, k);
  }

  /** The receiver has no row of its own under the key of a row addressed to it. */
  lemma KeyIsFree(h: Hash, s: Sys, n: NodeId, k: Key, row: Row)
    requires Inv(h, s) && n in s.nodes && k in s.nodes[n].table && s.nodes[n].table[k].direction == Out && SameMessage(row, s.nodes[n].table[k])
    ensures k == InboxKey(h, n, row.channel, k.num)
    ensures row.peer in s.nodes && k in s.nodes[row.peer].table ==> InInbox(s.nodes[row.peer].table, k)
  {
    hide Inv;
    InvGives(h, s);
    assert RowOk(h, s, n, k);
    if row.peer in s.nodes && k in s.nodes[row.peer].table {
      assert RowOk(h, s, row.peer, k);
    }
  }

  lemma Recorded(h: Hash, s: Sys, sid: nat, k: Key)
    requires Can(s, RxStep(sid, Record(0))) && k == FrameKey(h, s.net[sid], s.net[sid].written[s.net[sid].done])
    requires k in s.nodes[s.net[sid].to].table ==> InInbox(s.nodes[s.net[sid].to].table, k)
    ensures var s' := Do(h, s, RxStep(sid, Record(0)));
            s.net[sid].to in s'.nodes && InInbox(s'.nodes[s.net[sid].to].table, k)
  {
  }

  /** Steps of task `t` of install `n` and of the receiving end of stream `sid`, and of nothing else. */
  predicate OnlyTheseTwo(acts: seq<Action>, n: NodeId, t: nat, sid: nat) {
    forall i :: 0 <= i < |acts| ==>
      (acts[i].TaskStep? && acts[i].n == n && acts[i].t == t) || (acts[i].RxStep? && acts[i].sid == sid)
  }

  lemma {:induction false} StepsAreOnlyThese(n: NodeId, t: nat, evs: seq<TaskEvent>, sid: nat)
    ensures OnlyTheseTwo(TaskSteps(n, t, evs), n, t, sid)
  {
    if evs != [] {
      StepsAreOnlyThese(n, t, evs[1..], sid);
    }
  }

  lemma CoveredCanRun(h: Hash, s: Sys, n: NodeId, peer: NodeId)
    requires Inv(h, s) && AllWake(s) && n in s.nodes && Covered(s.nodes[n], peer)
    ensures peer in s.nodes[n].wakers
    ensures var t := s.nodes[n].wakers[peer]; IsTask(s, n, t) && s.nodes[n].tasks[t].peer == peer && CanRun(s.nodes[n].tasks[t])
  {
    hide Inv;
    InvGives(h, s);
    assert WakeInv(s.nodes[n]);
    assert TaskOk(s, n, s.nodes[n].tasks[s.nodes[n].wakers[peer]]);
  }

  lemma TaskGetsToWrite(h: Hash, code: Code, s: Sys, n: NodeId, t: nat, k: Key) returns (acts: seq<Action>, s1: Sys)
    requires StrictOrder(code.ties) && IsTask(s, n, t) && CanRun(s.nodes[n].tasks[t]) && s.nodes[n].tasks[t].peer in s.nodes
    requires NothingInTheWay(code, s.nodes[n].table, s.nodes[n].tasks[t].peer, k)
    ensures ReachesByCode(h, code, s, acts, s1) && s1.nodes.Keys == s.nodes.Keys && s1.net != []
    ensures s1.net[|s1.net| - 1] == Carrying(n, s.nodes[n].tasks[t].peer, Item(k, s.nodes[n].table[k]))
    ensures OnlyTheseTwo(acts, n, t, |s1.net| - 1)
  {
    hide CanGet, Fits, NothingInTheWay, Can, Do;
    var l := View(s, n, t);
    assert NothingInTheWay(code, l.table, l.task.peer, k) && Fresh(l).table == l.table && Fresh(l).task.peer == l.task.peer;
    var l' := GetsToWrite(code, n, Fresh(l), k);
    StartOver(code, n, l, l');
    var evs := EventsTo(code, n, l, l');
    CodeLifts(h, code, s, n, t, evs, l');
    acts, s1 := TaskSteps(n, t, evs), Drain.WithLocal(s, n, t, l');
    StepsAreOnlyThese(n, t, evs, |s1.net| - 1);
  }

  lemma EventsTo(code: Code, me: NodeId, l: Local, l': Local) returns (evs: seq<TaskEvent>)
    requires CanGet(code, me, l, l')
    ensures LeadsByCode(code, me, l, evs, l')
  {
    evs :| LeadsByCode(code, me, l, evs, l');
  }

  // ----- Main result -----

  /**
   Delivery is always within reach. In every reachable state, whatever was cut, refused, failed or
   crashed before, a pending row of a covered peer can get to the receiver's inbox by steps of the
   peer's own task and of the receiving end of one stream alone, provided its frame and those of the
   rows for that peer listed before it are within the limit of the frame writer.
   */
  lemma DeliveryWithinReach(h: Hash, code: Code, s: Sys, acts: seq<Action>, n: NodeId, peer: NodeId, k: Key)
    returns (more: seq<Action>, sid: nat)
    requires StrictOrder(code.ties) && Init(s) && IsRun(h, s, acts) && n in Run(h, s, acts).nodes && peer in Run(h, s, acts).nodes
    requires Covered(Run(h, s, acts).nodes[n], peer) && NothingInTheWay(code, Run(h, s, acts).nodes[n].table, peer, k)
    ensures IsRun(h, Run(h, s, acts), more) && CodeRun(h, code, Run(h, s, acts), more)
    ensures OnlyTheseTwo(more, n, Run(h, s, acts).nodes[n].wakers[peer], sid)
    ensures var e := Run(h, Run(h, s, acts), more); peer in e.nodes && InInbox(e.nodes[peer].table, k)
  {
    hide Inv, AllWake, Covered, Fits, Can, Do, InInbox, StrictOrder, CodeRun, CanRun;
    var s0 := Run(h, s, acts);
    ReachableInv(h, s, acts);
    InitWake(s);
    WakeRun(h, s, acts);
    CoveredCanRun(h, s0, n, peer);
    var t := s0.nodes[n].wakers[peer];
    var row := s0.nodes[n].table[k];
    var steps, s1 := TaskGetsToWrite(h, code, s0, n, t, k);
    RunEvolves(h, s0, steps);
    more := Receives(h, code, s0, steps, s1, n, k, row);
    sid := |s1.net| - 1;
    assert more == steps + more[|steps|..];
  }

  /** Some run of the code takes row `k` to its addressee's inbox. */
  ghost predicate CanArrive(h: Hash, code: Code, s: Sys, n: NodeId, k: Key) {
    exists more :: IsRun(h, s, more) && CodeRun(h, code, s, more) && Arrived(Run(h, s, more), n, k)
  }

  lemma BlockedCannotArrive(h: Hash, code: Code, s: Sys, acts: seq<Action>, n: NodeId, peer: NodeId, k: Key, x: Key)
    requires Init(s) && IsRun(h, s, acts) && CodeRun(h, code, s, acts) && n in Run(h, s, acts).nodes
    requires var t := Run(h, s, acts).nodes[n].table;
             && Pending(t, peer, k) && Pending(t, peer, x) && (x == k || Precedes(code, t, x, k))
             && !Fits(code.encode, FrameOf(Item(x, t[x]))) && !Underway(Run(h, s, acts), n, k)
    ensures !CanArrive(h, code, Run(h, s, acts), n, k)
  {
    hide Fits, Can, Do, InInbox, Arrived, Underway;
    var s1 := Run(h, s, acts);
    assert Oversize(code, s1, n, x);
    forall more | IsRun(h, s1, more) && CodeRun(h, code, s1, more) ensures !Arrived(Run(h, s1, more), n, k) {
      OversizeBlocks(h, code, s, acts, more, n, x, k);
      RunEvolves(h, s1, more);
    }
  }

  /**
   Exactly when a row can arrive. In every state the code can reach, a pending row of a covered peer
   that is not underway yet can get to its addressee exactly if neither it nor any pending row of
   the peer that the database lists before it, at an earlier timestamp or in the order of ties, is
   over the limit of the frame writer.
   */
  lemma CanArriveIffFits(h: Hash, code: Code, s: Sys, acts: seq<Action>, n: NodeId, peer: NodeId, k: Key)
    requires StrictOrder(code.ties) && Init(s) && IsRun(h, s, acts) && CodeRun(h, code, s, acts)
    requires n in Run(h, s, acts).nodes && peer in Run(h, s, acts).nodes && Covered(Run(h, s, acts).nodes[n], peer)
    requires Pending(Run(h, s, acts).nodes[n].table, peer, k) && !Underway(Run(h, s, acts), n, k)
    ensures CanArrive(h, code, Run(h, s, acts), n, k) <==> NothingInTheWay(code, Run(h, s, acts).nodes[n].table, peer, k)
  {
    hide Covered, Fits, Can, Do, InInbox, StrictOrder, Underway;
    var s1 := Run(h, s, acts);
    var t := s1.nodes[n].table;
    if NothingInTheWay(code, t, peer, k) {
      var more, sid := DeliveryWithinReach(h, code, s, acts, n, peer, k);
      RunEvolves(h, s1, more);
      assert Arrived(Run(h, s1, more), n, k);
    } else {
      var x :| Pending(t, peer, x) && (x == k || Precedes(code, t, x, k)) && !Fits(code.encode, FrameOf(Item(x, t[x])));
      BlockedCannotArrive(h, code, s, acts, n, peer, k, x);
    }
  }
}
