/**
 Frames over the size limit: the frame writer refuses them, so their rows are never sent, and
 every row enqueued later for the same peer, with a later timestamp, stays behind them
 (`drain_peer`, crates/wt-daemon/src/state.rs, and `write_cbor_frame`, crates/wt-core/src/framing.rs).
 */
module DeliveryLimits {
  import opened Basics
  import opened Messages
  import Framing
  import opened Delivery
  import opened DeliveryIntegrity
  import opened DeliveryEmission

  /**
   What the code adds to the transition system: how frames are encoded for its writer, which refuses
   those over the limit, and how its database lists rows of equal timestamp: `ties(a, b)` says that
   `a` comes before `b` (never, if nothing is known about it).
   */
  datatype Code = Code(encode: Frame -> Bytes, ties: (Key, Key) -> bool)

  /** Every query that lists row `b` lists row `a` before it. */
  predicate Precedes(code: Code, t: Table, a: Key, b: Key)
    requires a in t && b in t
  {
    t[a].ts < t[b].ts || (t[a].ts == t[b].ts && code.ties(a, b))
  }

  /** A query result that keeps to the order of ties. */
  ghost predicate ByTies(code: Code, t: Table, peer: NodeId, rows: seq<Item>) {
    && (forall i :: 0 <= i < |rows| ==> rows[i].key in t)
    && (forall i, j :: 0 <= i < j < |rows| ==> !Precedes(code, t, rows[j].key, rows[i].key))
    && (forall i, x :: 0 <= i < |rows| && Pending(t, peer, x) && !Holds(rows, x) ==> !Precedes(code, t, x, rows[i].key))
  }

  /** Whatever the step writes is within the limit, and whatever it queries comes in the order of ties. */
  ghost predicate Obeys(code: Code, s: Sys, a: Action) {
    a.TaskStep? && IsTask(s, a.n, a.t) ==>
      && (a.ev.Write? && HasStream(s.nodes[a.n].tasks[a.t]) ==> Fits(code.encode, FrameOf(s.nodes[a.n].tasks[a.t].pc.rows[0])))
      && (a.ev.Fetch? ==> ByTies(code, s.nodes[a.n].table, s.nodes[a.n].tasks[a.t].peer, a.ev.rows))
  }

  /** A run of the code: every frame written is within the limit, and every query keeps to the order of ties. */
  ghost predicate CodeRun(h: Hash, code: Code, s: Sys, acts: seq<Action>)
    requires IsRun(h, s, acts)
    decreases |acts|
  {
    acts == [] || (Obeys(code, s, acts[0]) && CodeRun(h, code, Do(h, s, acts[0]), acts[1..]))
  }

  // ----- Everything written fits -----

  predicate FramesFit(code: Code, frames: seq<Frame>) {
    forall i :: 0 <= i < |frames| ==> Fits(code.encode, frames[i])
  }

  /** A row about to be marked was written, so it fits. */
  predicate MarkFits(code: Code, t: Task) {
    t.pc.Mark? && t.pc.rows != [] ==> Fits(code.encode, FrameOf(t.pc.rows[0]))
  }

  ghost predicate AllFit(code: Code, s: Sys) {
    && (forall sid :: 0 <= sid < |s.net| ==> FramesFit(code, s.net[sid].written))
    && (forall n, t: nat :: IsTask(s, n, t) ==> MarkFits(code, s.nodes[n].tasks[t]))
  }

  lemma FramesFitStep(h: Hash, code: Code, s: Sys, a: Action, sid: nat)
    requires AllFit(code, s) && Can(s, a) && Obeys(code, s, a) && sid < |Do(h, s, a).net|
    ensures FramesFit(code, Do(h, s, a).net[sid].written)
  {
    hide MarkFits, CanTask;
    if !a.TaskStep? {
      NetOther(h, s, a);
      assert StreamMoves(s.net[sid], Do(h, s, a).net[sid]);
    } else if sid < |s.net| {
      StreamAfterTask(a.n, View(s, a.n, a.t), a.ev, sid);
    } else {
      NewStreamIsEmpty(a.n, View(s, a.n, a.t), a.ev, sid);
    }
  }

  lemma NewStreamIsEmpty(me: NodeId, l: Local, ev: TaskEvent, sid: nat)
    requires CanTask(l, ev) && |l.net| <= sid < |DoTask(me, l, ev).net|
    ensures DoTask(me, l, ev).net[sid].written == []
  {
  }

  lemma MarkFitsOwn(code: Code, me: NodeId, l: Local, ev: TaskEvent)
    requires CanTask(l, ev) && MarkFits(code, l.task) && (ev.Write? ==> Fits(code.encode, FrameOf(l.task.pc.rows[0])))
    ensures MarkFits(code, DoTask(me, l, ev).task)
  {
  }

  lemma MarkFitsStep(h: Hash, code: Code, s: Sys, a: Action, n: NodeId, t: nat)
    requires AllFit(code, s) && Can(s, a) && Obeys(code, s, a) && IsTask(Do(h, s, a), n, t)
    ensures MarkFits(code, Do(h, s, a).nodes[n].tasks[t])
  {
    hide FramesFit;
    if a.TaskStep? && a.n == n && a.t == t {
      MarkFitsOwn(code, n, View(s, n, t), a.ev);
    } else {
      TasksOther(h, s, a, n, t);
    }
  }

  lemma AllFitStep(h: Hash, code: Code, s: Sys, a: Action)
    requires AllFit(code, s) && Can(s, a) && Obeys(code, s, a)
    ensures AllFit(code, Do(h, s, a))
  {
    hide Do, Can, FramesFit, MarkFits, Obeys;
    forall sid | 0 <= sid < |Do(h, s, a).net| ensures FramesFit(code, Do(h, s, a).net[sid].written) {
      FramesFitStep(h, code, s, a, sid);
    }
    forall n, t: nat | IsTask(Do(h, s, a), n, t) ensures MarkFits(code, Do(h, s, a).nodes[n].tasks[t]) {
      MarkFitsStep(h, code, s, a, n, t);
    }
  }

  // ----- What an oversize row holds back -----

  /** Row `k` of install `n` is pending and its frame is over the limit. */
  ghost predicate Oversize(code: Code, s: Sys, n: NodeId, k: Key) {
    && n in s.nodes && k in s.nodes[n].table && Pending(s.nodes[n].table, s.nodes[n].table[k].peer, k)
    && !Fits(code.encode, FrameOf(Item(k, s.nodes[n].table[k])))
  }

  /** `x` is another row for the peer of row `k`, listed after it, and not one of `ahead`. */
  predicate Behind(code: Code, t: Table, ahead: set<Key>, k: Key, x: Key)
    requires k in t
  {
    x in t && x != k && x !in ahead && t[x].direction == Out && t[x].peer == t[k].peer && Precedes(code, t, k, x)
  }

  /** In a batch, whatever is behind `k` comes after `k`. */
  ghost predicate KeptBack(code: Code, t: Table, ahead: set<Key>, k: Key, rows: seq<Item>)
    requires k in t
  {
    forall i :: 0 <= i < |rows| && Behind(code, t, ahead, k, rows[i].key) ==> Holds(rows[..i], k)
  }

  ghost predicate TasksKeepBack(code: Code, s: Sys, n: NodeId, ahead: set<Key>, k: Key)
    requires n in s.nodes && k in s.nodes[n].table
  {
    forall t: nat :: IsTask(s, n, t) ==> KeptBack(code, s.nodes[n].table, ahead, k, Rows(s.nodes[n].tasks[t].pc))
  }

  /** Nothing behind `k` has been sent or marked. */
  ghost predicate NoneSent(code: Code, s: Sys, n: NodeId, ahead: set<Key>, k: Key)
    requires n in s.nodes && k in s.nodes[n].table
  {
    forall x :: Behind(code, s.nodes[n].table, ahead, k, x) ==> s.nodes[n].table[x].delivered.None? && !Carried(s, n, x)
  }

  ghost predicate Blocked(code: Code, s: Sys, n: NodeId, ahead: set<Key>, k: Key) {
    Oversize(code, s, n, k) && TasksKeepBack(code, s, n, ahead, k) && NoneSent(code, s, n, ahead, k)
  }

  // ----- The row itself -----

  /** A row in hand stands for its row of the table. */
  lemma InHandIsRow(s: Sys, n: NodeId, t: nat, i: nat)
    requires TasksOk(s) && IsTask(s, n, t) && i < |Rows(s.nodes[n].tasks[t].pc)|
    ensures var item := Rows(s.nodes[n].tasks[t].pc)[i];
            && item.key in s.nodes[n].table && FrameOf(item) == FrameOf(Item(item.key, s.nodes[n].table[item.key]))
            && s.nodes[n].table[item.key].direction == Out
  {
    assert TaskOk(s, n, s.nodes[n].tasks[t]);
    assert ItemOk(s.nodes[n].table, s.nodes[n].tasks[t].peer, Rows(s.nodes[n].tasks[t].pc)[i]);
  }

  /** What a task marks fits, so it is not an oversize row. */
  lemma MarkedIsNotOversize(code: Code, s: Sys, n: NodeId, t: nat, k: Key)
    requires TasksOk(s) && AllFit(code, s) && Oversize(code, s, n, k) && IsTask(s, n, t)
    requires s.nodes[n].tasks[t].pc.Mark? && s.nodes[n].tasks[t].pc.rows != []
    ensures s.nodes[n].tasks[t].pc.rows[0].key != k
  {
    hide Fits;
    InHandIsRow(s, n, t, 0);
    assert MarkFits(code, s.nodes[n].tasks[t]);
  }

  lemma OversizeStays(h: Hash, code: Code, s: Sys, a: Action, n: NodeId, k: Key)
    requires Inv(h, s) && AllFit(code, s) && Can(s, a) && Oversize(code, s, n, k)
    ensures Oversize(code, Do(h, s, a), n, k) && Do(h, s, a).nodes[n].table[k] == s.nodes[n].table[k]
  {
    hide Do, Can, Inv, AllFit, Fits;
    PendingSurvives(h, s, a, n, k);
    if Do(h, s, a).nodes[n].table[k] != s.nodes[n].table[k] {
      InvGives(h, s);
      IsTaskWhenStepping(s, n, a.t, a.ev);
      MarkedIsNotOversize(code, s, n, a.t, k);
    }
  }

  lemma InvGives(h: Hash, s: Sys)
    requires Inv(h, s)
    ensures StreamsOk(h, s) && TasksOk(s) && RowsOk(h, s)
  {
  }

  lemma IsTaskWhenStepping(s: Sys, n: NodeId, t: nat, ev: TaskEvent)
    requires Can(s, TaskStep(n, t, ev))
    ensures IsTask(s, n, t)
  {
  }

  // ----- Batches -----

  /** A query lists an oversize row before everything behind it. */
  lemma QueryKeepsBack(code: Code, t: Table, ahead: set<Key>, peer: NodeId, k: Key, rows: seq<Item>)
    requires ArePending(t, peer, rows) && ByTies(code, t, peer, rows) && k in t && Pending(t, t[k].peer, k)
    ensures KeptBack(code, t, ahead, k, rows)
  {
    forall i | 0 <= i < |rows| && Behind(code, t, ahead, k, rows[i].key) ensures Holds(rows[..i], k) {
      assert Pending(t, peer, rows[i].key) && peer == t[k].peer;
      assert Holds(rows, k);
      var j :| 0 <= j < |rows| && rows[j].key == k;
      assert j < i && rows[..i][j].key == k;
    }
  }

  lemma RestKeepsBack(code: Code, t: Table, ahead: set<Key>, k: Key, rows: seq<Item>)
    requires k in t && rows != [] && rows[0].key != k && KeptBack(code, t, ahead, k, rows)
    ensures KeptBack(code, t, ahead, k, rows[1..])
  {
    var rest := rows[1..];
    forall i | 0 <= i < |rest| && Behind(code, t, ahead, k, rest[i].key) ensures Holds(rest[..i], k) {
      assert rest[i] == rows[i + 1] && Holds(rows[..i + 1], k);
      var j :| 0 <= j < i + 1 && rows[..i + 1][j].key == k;
      assert rest[..i][j - 1].key == k;
    }
  }

  /** A row at the head of a batch is not behind `k`. */
  lemma HeadIsNotBehind(code: Code, t: Table, ahead: set<Key>, k: Key, rows: seq<Item>)
    requires k in t && rows != [] && KeptBack(code, t, ahead, k, rows)
    ensures !Behind(code, t, ahead, k, rows[0].key)
  {
    assert Behind(code, t, ahead, k, rows[0].key) ==> Holds(rows[..0], k);
  }

  /** Nothing gets behind `k` that was in the table before. */
  lemma BehindStays(code: Code, t: Table, t': Table, ahead: set<Key>, k: Key, rows: seq<Item>)
    requires k in t && Grows(t, t') && KeptBack(code, t, ahead, k, rows) && forall i :: 0 <= i < |rows| ==> rows[i].key in t
    ensures KeptBack(code, t', ahead, k, rows)
  {
    forall i | 0 <= i < |rows| && Behind(code, t', ahead, k, rows[i].key) ensures Holds(rows[..i], k) {
      assert Behind(code, t, ahead, k, rows[i].key);
    }
  }

  /** What one step of a task does to the rows it has in hand. */
  lemma RowsAfterTask(me: NodeId, l: Local, ev: TaskEvent)
    requires CanTask(l, ev)
    ensures ev.MarkOk? ==> l.task.pc.Mark? && l.task.pc.rows != []
    ensures Rows(DoTask(me, l, ev).task.pc) ==
              if ev.Fetch? then ev.rows else if ev.Open? || ev.Write? then Rows(l.task.pc) else if ev.MarkOk? then Rows(l.task.pc)[1..] else []
    ensures ev.Fetch? ==> ArePending(l.table, l.task.peer, ev.rows)
  {
  }

  lemma OwnKeepsBack(h: Hash, code: Code, s: Sys, n: NodeId, t: nat, ev: TaskEvent, ahead: set<Key>, k: Key)
    requires Inv(h, s) && AllFit(code, s) && Blocked(code, s, n, ahead, k) && Can(s, TaskStep(n, t, ev)) && Obeys(code, s, TaskStep(n, t, ev))
    ensures var task' := Do(h, s, TaskStep(n, t, ev)).nodes[n].tasks[t];
            KeptBack(code, s.nodes[n].table, ahead, k, Rows(task'.pc)) && forall i :: 0 <= i < |Rows(task'.pc)| ==> Rows(task'.pc)[i].key in s.nodes[n].table
  {
    hide Inv, AllFit, NoneSent, ArePending, ByTies, CanTask, Fits;
    var task := s.nodes[n].tasks[t];
    InvGives(h, s);
    hide StreamsOk, TasksOk, RowsOk;
    assert KeptBack(code, s.nodes[n].table, ahead, k, Rows(task.pc));
    hide KeptBack;
    RowsAfterTask(n, View(s, n, t), ev);
    RowsInTable(s, n, t);
    if ev.Fetch? {
      QueryKeepsBack(code, s.nodes[n].table, ahead, task.peer, k, ev.rows);
      FetchedInTable(s.nodes[n].table, task.peer, ev.rows);
    } else if ev.MarkOk? {
      MarkedIsNotOversize(code, s, n, t, k);
      RestKeepsBack(code, s.nodes[n].table, ahead, k, task.pc.rows);
    } else {
      NoneKeepsBack(code, s.nodes[n].table, ahead, k);
    }
  }

  lemma RowsInTable(s: Sys, n: NodeId, t: nat)
    requires TasksOk(s) && IsTask(s, n, t)
    ensures forall i :: 0 <= i < |Rows(s.nodes[n].tasks[t].pc)| ==> Rows(s.nodes[n].tasks[t].pc)[i].key in s.nodes[n].table
  {
    forall i | 0 <= i < |Rows(s.nodes[n].tasks[t].pc)| ensures Rows(s.nodes[n].tasks[t].pc)[i].key in s.nodes[n].table {
      InHandIsRow(s, n, t, i);
    }
  }

  lemma FetchedInTable(t: Table, peer: NodeId, rows: seq<Item>)
    requires ArePending(t, peer, rows)
    ensures forall i :: 0 <= i < |rows| ==> rows[i].key in t
  {
  }

  lemma NoneKeepsBack(code: Code, t: Table, ahead: set<Key>, k: Key)
    requires k in t
    ensures KeptBack(code, t, ahead, k, [])
  {
  }

  lemma OtherKeepsBack(h: Hash, code: Code, s: Sys, a: Action, n: NodeId, ahead: set<Key>, k: Key, t: nat)
    requires Inv(h, s) && Blocked(code, s, n, ahead, k) && Can(s, a) && IsTask(Do(h, s, a), n, t)
    requires !(a.TaskStep? && a.n == n && a.t == t)
    ensures var task' := Do(h, s, a).nodes[n].tasks[t];
            KeptBack(code, s.nodes[n].table, ahead, k, Rows(task'.pc)) && forall i :: 0 <= i < |Rows(task'.pc)| ==> Rows(task'.pc)[i].key in s.nodes[n].table
  {
    hide Do, Can, Inv, NoneSent, Fits;
    TasksOther(h, s, a, n, t);
    NoneKeepsBack(code, s.nodes[n].table, ahead, k);
    if IsTask(s, n, t) {
      InvGives(h, s);
      hide StreamsOk, TasksOk, RowsOk;
      RowsInTable(s, n, t);
    }
  }

  lemma KeptBackStep(h: Hash, code: Code, s: Sys, a: Action, n: NodeId, ahead: set<Key>, k: Key, t: nat)
    requires Inv(h, s) && AllFit(code, s) && Blocked(code, s, n, ahead, k) && Can(s, a) && Obeys(code, s, a) && IsTask(Do(h, s, a), n, t)
    requires k in Do(h, s, a).nodes[n].table
    ensures KeptBack(code, Do(h, s, a).nodes[n].table, ahead, k, Rows(Do(h, s, a).nodes[n].tasks[t].pc))
  {
    StepEvolves(h, s, a);
    KInTable(code, s, n, ahead, k);
    hide Do, Can, Inv, AllFit, KeptBack, Blocked;
    if a.TaskStep? && a.n == n && a.t == t {
      OwnKeepsBack(h, code, s, n, t, a.ev, ahead, k);
    } else {
      OtherKeepsBack(h, code, s, a, n, ahead, k, t);
    }
    BehindStays(code, s.nodes[n].table, Do(h, s, a).nodes[n].table, ahead, k, Rows(Do(h, s, a).nodes[n].tasks[t].pc));
  }

  lemma KInTable(code: Code, s: Sys, n: NodeId, ahead: set<Key>, k: Key)
    requires Blocked(code, s, n, ahead, k)
    ensures n in s.nodes && k in s.nodes[n].table
  {
  }

  // ----- Streams -----

  /** The frame that carries a row bears the row's key. */
  lemma CarrierBearsKey(h: Hash, s: Sys, n: NodeId, x: Key, sid: nat, idx: nat)
    requires RowsOk(h, s) && CarriedAt(s, n, x, sid, idx) && s.nodes[n].table[x].direction == Out
    ensures FrameKey(h, s.net[sid], s.net[sid].written[idx]) == x
  {
    assert RowOk(h, s, n, x);
  }

  /** A frame that a step has just written is the first row in hand of the task that took the step. */
  lemma WrittenNow(h: Hash, s: Sys, a: Action, sid: nat, idx: nat)
    requires Inv(h, s) && Can(s, a) && sid < |Do(h, s, a).net| && idx < |Do(h, s, a).net[sid].written|
    requires !(sid < |s.net| && idx < |s.net[sid].written|)
    ensures a.TaskStep? && a.ev.Write? && IsTask(s, a.n, a.t) && s.nodes[a.n].tasks[a.t].pc.Deliver? && s.nodes[a.n].tasks[a.t].pc.rows != []
    ensures FrameKey(h, Do(h, s, a).net[sid], Do(h, s, a).net[sid].written[idx]) == s.nodes[a.n].tasks[a.t].pc.rows[0].key
    ensures Do(h, s, a).net[sid].from == a.n
  {
    hide CanTask, Inv;
    if !a.TaskStep? {
      NetOther(h, s, a);
    } else if sid < |s.net| {
      StreamAfterTask(a.n, View(s, a.n, a.t), a.ev, sid);
      InvGives(h, s);
      TaskIsOk(s, a.n, a.t);
      WriteIsBacked(h, s, a.n, a.t);
      WritesOwnStream(s, a.n, a.t);
    } else {
      NewStreamIsEmpty(a.n, View(s, a.n, a.t), a.ev, sid);
    }
  }

  lemma WritesOwnStream(s: Sys, n: NodeId, t: nat)
    requires TasksOk(s) && Can(s, TaskStep(n, t, Write))
    ensures var task := s.nodes[n].tasks[t]; s.net[task.streams[task.pc.rows[0].row.channel]].from == n
  {
    var task := s.nodes[n].tasks[t];
    assert TaskOk(s, n, task);
    assert OpenFor(s, n, task.peer, task.pc.rows[0].row.channel, task.streams[task.pc.rows[0].row.channel]);
  }

  /** The first row in hand of the task that takes the step. */
  predicate InHandAt(s: Sys, a: Action, n: NodeId, x: Key) {
    a.TaskStep? && a.n == n && IsTask(s, n, a.t) && Rows(s.nodes[n].tasks[a.t].pc) != [] && Rows(s.nodes[n].tasks[a.t].pc)[0].key == x
  }

  /** What carries a row after a step carried it before, or was the first row in hand of the task that took the step. */
  lemma WhoCarries(h: Hash, s: Sys, a: Action, n: NodeId, x: Key, sid: nat, idx: nat)
    requires Inv(h, s) && Can(s, a) && RowsOk(h, Do(h, s, a)) && CarriedAt(Do(h, s, a), n, x, sid, idx)
    requires Do(h, s, a).nodes[n].table[x].direction == Out
    ensures n in s.nodes && x in s.nodes[n].table
    ensures Carried(s, n, x) || InHandAt(s, a, n, x)
  {
    hide Do, Can, Inv;
    StepEvolves(h, s, a);
    InvGives(h, s);
    CarrierBearsKey(h, Do(h, s, a), n, x, sid, idx);
    if sid < |s.net| && idx < |s.net[sid].written| {
      WasCarried(h, s, Do(h, s, a), n, x, sid, idx);
    } else {
      IsCarriedAt(Do(h, s, a), n, x, sid, idx);
      NewlyCarried(h, s, a, n, x, sid, idx);
    }
  }

  lemma NewlyCarried(h: Hash, s: Sys, a: Action, n: NodeId, x: Key, sid: nat, idx: nat)
    requires Inv(h, s) && Can(s, a) && sid < |Do(h, s, a).net| && idx < |Do(h, s, a).net[sid].written|
    requires !(sid < |s.net| && idx < |s.net[sid].written|) && Do(h, s, a).net[sid].from == n
    requires FrameKey(h, Do(h, s, a).net[sid], Do(h, s, a).net[sid].written[idx]) == x
    ensures n in s.nodes && x in s.nodes[n].table && InHandAt(s, a, n, x)
  {
    InvGives(h, s);
    hide Inv, StreamsOk, TasksOk, RowsOk, Can, Do, FrameKey;
    WrittenNow(h, s, a, sid, idx);
    InHandIsRow(s, n, a.t, 0);
  }

  lemma IsCarriedAt(s: Sys, n: NodeId, x: Key, sid: nat, idx: nat)
    requires CarriedAt(s, n, x, sid, idx)
    ensures n in s.nodes && x in s.nodes[n].table && sid < |s.net| && idx < |s.net[sid].written| && s.net[sid].from == n
  {
  }

  lemma WasCarried(h: Hash, s: Sys, s': Sys, n: NodeId, x: Key, sid: nat, idx: nat)
    requires StreamsOk(h, s) && Evolves(s, s') && CarriedAt(s', n, x, sid, idx) && sid < |s.net| && idx < |s.net[sid].written|
    requires FrameKey(h, s'.net[sid], s'.net[sid].written[idx]) == x
    ensures n in s.nodes && x in s.nodes[n].table && Carried(s, n, x)
  {
    assert SameStream(s.net[sid], s'.net[sid]) && StreamOk(h, s, s.net[sid]);
    assert s'.net[sid].written[idx] == s.net[sid].written[idx];
    assert Backed(h, s, s.net[sid], s.net[sid].written[idx]);
    assert Grows(s.nodes[n].table, s'.nodes[n].table);
    assert CarriedAt(s, n, x, sid, idx);
  }

  lemma NotSentStep(h: Hash, code: Code, s: Sys, a: Action, n: NodeId, ahead: set<Key>, k: Key, x: Key)
    requires Inv(h, s) && Blocked(code, s, n, ahead, k) && Can(s, a) && RowsOk(h, Do(h, s, a))
    requires n in Do(h, s, a).nodes && k in Do(h, s, a).nodes[n].table && Behind(code, Do(h, s, a).nodes[n].table, ahead, k, x)
    ensures !Carried(Do(h, s, a), n, x)
  {
    StepEvolves(h, s, a);
    hide Do, Can, Inv, RowsOk, CarriedAt, Fits;
    forall sid: nat, idx: nat ensures !CarriedAt(Do(h, s, a), n, x, sid, idx) {
      if CarriedAt(Do(h, s, a), n, x, sid, idx) {
        WhoCarries(h, s, a, n, x, sid, idx);
        WasBehind(code, s.nodes[n].table, Do(h, s, a).nodes[n].table, ahead, k, x);
        if a.TaskStep? && a.n == n && IsTask(s, n, a.t) && Rows(s.nodes[n].tasks[a.t].pc) != [] {
          HeadIsNotBehind(code, s.nodes[n].table, ahead, k, Rows(s.nodes[n].tasks[a.t].pc));
        }
      }
    }
  }

  lemma WasBehind(code: Code, t: Table, t': Table, ahead: set<Key>, k: Key, x: Key)
    requires k in t && x in t && Grows(t, t') && Behind(code, t', ahead, k, x)
    ensures Behind(code, t, ahead, k, x)
  {
  }

  lemma NoneSentStep(h: Hash, code: Code, s: Sys, a: Action, n: NodeId, ahead: set<Key>, k: Key)
    requires Inv(h, s) && Blocked(code, s, n, ahead, k) && Can(s, a) && RowsOk(h, Do(h, s, a))
    requires n in Do(h, s, a).nodes && k in Do(h, s, a).nodes[n].table
    ensures NoneSent(code, Do(h, s, a), n, ahead, k)
  {
    hide Do, Can, Inv, Blocked, Carried;
    var s' := Do(h, s, a);
    forall x | Behind(code, s'.nodes[n].table, ahead, k, x) ensures s'.nodes[n].table[x].delivered.None? && !Carried(s', n, x) {
      NotSentStep(h, code, s, a, n, ahead, k, x);
      assert RowOk(h, s', n, x);
    }
  }

  lemma BlockedStep(h: Hash, code: Code, s: Sys, a: Action, n: NodeId, ahead: set<Key>, k: Key)
    requires Inv(h, s) && AllFit(code, s) && Blocked(code, s, n, ahead, k) && Can(s, a) && Obeys(code, s, a) && RowsOk(h, Do(h, s, a))
    ensures Blocked(code, Do(h, s, a), n, ahead, k)
  {
    hide Do, Can, Inv, AllFit, KeptBack, NoneSent, Fits;
    var s' := Do(h, s, a);
    OversizeStays(h, code, s, a, n, k);
    forall t: nat | IsTask(s', n, t) ensures KeptBack(code, s'.nodes[n].table, ahead, k, Rows(s'.nodes[n].tasks[t].pc)) {
      KeptBackStep(h, code, s, a, n, ahead, k, t);
    }
    NoneSentStep(h, code, s, a, n, ahead, k);
  }

  lemma {:induction false} BlockedRun(h: Hash, code: Code, s: Sys, acts: seq<Action>, n: NodeId, ahead: set<Key>, k: Key)
    requires Inv(h, s) && AllFit(code, s) && Blocked(code, s, n, ahead, k) && IsRun(h, s, acts) && CodeRun(h, code, s, acts)
    ensures Blocked(code, Run(h, s, acts), n, ahead, k) && AllFit(code, Run(h, s, acts)) && Inv(h, Run(h, s, acts))
    decreases |acts|
  {
    hide Can, Do, AllFit, Blocked, Obeys;
    if acts != [] {
      InvStep(h, s, acts[0]);
      InvGives(h, Do(h, s, acts[0]));
      hide Inv;
      AllFitStep(h, code, s, acts[0]);
      BlockedStep(h, code, s, acts[0], n, ahead, k);
      BlockedRun(h, code, Do(h, s, acts[0]), acts[1..], n, ahead, k);
    }
  }

  lemma {:induction false} AllFitRun(h: Hash, code: Code, s: Sys, acts: seq<Action>)
    requires AllFit(code, s) && IsRun(h, s, acts) && CodeRun(h, code, s, acts)
    ensures AllFit(code, Run(h, s, acts))
    decreases |acts|
  {
    hide Can, Do, AllFit, Obeys;
    if acts != [] {
      AllFitStep(h, code, s, acts[0]);
      AllFitRun(h, code, Do(h, s, acts[0]), acts[1..]);
    }
  }

  /** A task has the row in hand. */
  ghost predicate InHand(s: Sys, n: NodeId, x: Key) {
    exists t: nat :: IsTask(s, n, t) && Holds(Rows(s.nodes[n].tasks[t].pc), x)
  }

  /** The row is on its way already: a task has it in hand, or it has been written to a stream. */
  ghost predicate Underway(s: Sys, n: NodeId, x: Key) {
    InHand(s, n, x) || Carried(s, n, x)
  }

  ghost function Ahead(s: Sys, n: NodeId): set<Key>
    requires n in s.nodes
  {
    set x | x in s.nodes[n].table && Underway(s, n, x)
  }

  lemma BlocksFromNow(h: Hash, code: Code, s: Sys, n: NodeId, k: Key)
    requires Inv(h, s) && Oversize(code, s, n, k)
    ensures Blocked(code, s, n, Ahead(s, n), k)
  {
    hide Inv, Fits;
    InvGives(h, s);
    var ahead := Ahead(s, n);
    forall t: nat, i | IsTask(s, n, t) && 0 <= i < |Rows(s.nodes[n].tasks[t].pc)|
      ensures !Behind(code, s.nodes[n].table, ahead, k, Rows(s.nodes[n].tasks[t].pc)[i].key)
    {
      assert Holds(Rows(s.nodes[n].tasks[t].pc), Rows(s.nodes[n].tasks[t].pc)[i].key);
      assert InHand(s, n, Rows(s.nodes[n].tasks[t].pc)[i].key);
    }
    forall x | Behind(code, s.nodes[n].table, ahead, k, x) ensures s.nodes[n].table[x].delivered.None? && !Carried(s, n, x) {
      assert RowOk(h, s, n, x);
    }
  }

  lemma OversizeNotCarried(h: Hash, code: Code, s: Sys, n: NodeId, k: Key)
    requires AllFit(code, s) && Oversize(code, s, n, k)
    ensures !Carried(s, n, k)
  {
    hide Fits;
    forall sid: nat, idx: nat ensures !CarriedAt(s, n, k, sid, idx) {
      assert sid < |s.net| && idx < |s.net[sid].written| ==> Fits(code.encode, s.net[sid].written[idx]);
    }
  }

  /** No encoding that contains the payload brings a payload over the limit through: sending one leaves an oversize row. */
  lemma HugePayloadIsOversize(h: Hash, code: Code, s: Sys, n: NodeId, peer: NodeId, channel: string, payload: Bytes, now: nat)
    requires Can(s, Send(n, peer, channel, payload, now)) && |payload| > Framing.MAX_FRAME_BYTES
    requires forall f: Frame :: |code.encode(f)| >= |f.payload|
    ensures Oversize(code, Do(h, s, Send(n, peer, channel, payload, now)), n, NextKey(h, s.nodes[n].table, n, channel))
  {
    var k := NextKey(h, s.nodes[n].table, n, channel);
    assert FrameOf(Item(k, Row(Out, channel, peer, payload, now, None))).payload == payload;
  }

  /** Row `k` of install `n` is in the inbox of the install it is addressed to. */
  ghost predicate Arrived(s: Sys, n: NodeId, k: Key) {
    && n in s.nodes && k in s.nodes[n].table && s.nodes[n].table[k].direction == Out
    && s.nodes[n].table[k].peer in s.nodes && InInbox(s.nodes[s.nodes[n].table[k].peer].table, k)
  }

  /** What arrived was carried by a stream. */
  lemma ArrivedWasCarried(h: Hash, s: Sys, n: NodeId, k: Key)
    requires Inv(h, s) && Arrived(s, n, k)
    ensures Carried(s, n, k)
  {
    var peer := s.nodes[n].table[k].peer;
    var node := s.nodes[peer];
    assert EmitInv(h, peer, node, s.net);
    assert k in node.winner && WinnerOk(h, peer, node, s.net, k, node.winner[k]);
    var at := node.winner[k];
    var st := s.net[at.sid];
    assert StreamOk(h, s, st) && Backed(h, s, st, st.written[at.idx]);
    assert RowOk(h, s, n, k) && RowOk(h, s, st.from, k);
    assert CarriedAt(s, n, k, at.sid, at.idx);
  }

  // ----- Main result -----

  /** Row `x` has not arrived and never left the outbox. */
  ghost predicate StaysBehind(s: Sys, n: NodeId, x: Key) {
    n in s.nodes && x in s.nodes[n].table && Pending(s.nodes[n].table, s.nodes[n].table[x].peer, x) && !Carried(s, n, x) && !Arrived(s, n, x)
  }

  /**
   An oversize row blocks its peer. From any reachable state, over every run of the code, crashes
   and restarts included, a pending row whose frame is over the limit stays pending, is never on a
   stream and never arrives; and so does every row for the same peer that is listed after it, on
   whatever channel, be it enqueued later or in the outbox already, unless it was underway by then.
   */
  lemma OversizeBlocks(h: Hash, code: Code, s: Sys, acts: seq<Action>, more: seq<Action>, n: NodeId, k: Key, x: Key)
    requires Init(s) && IsRun(h, s, acts) && CodeRun(h, code, s, acts) && Oversize(code, Run(h, s, acts), n, k)
    requires IsRun(h, Run(h, s, acts), more) && CodeRun(h, code, Run(h, s, acts), more)
    ensures var s1, e := Run(h, s, acts), Run(h, Run(h, s, acts), more);
            && Oversize(code, e, n, k) && StaysBehind(e, n, k)
            && (Behind(code, e.nodes[n].table, Ahead(s1, n), k, x) ==> StaysBehind(e, n, x))
  {
    var s1 := Run(h, s, acts);
    ReachableInv(h, s, acts);
    AllFitRun(h, code, s, acts);
    hide Inv, AllFit, Fits, TasksKeepBack, Carried, Arrived, Do, Can, Ahead;
    BlocksFromNow(h, code, s1, n, k);
    BlockedRun(h, code, s1, more, n, Ahead(s1, n), k);
    var e := Run(h, s1, more);
    OversizeNotCarried(h, code, e, n, k);
    forall y | Arrived(e, n, y) ensures Carried(e, n, y) {
      ArrivedWasCarried(h, e, n, y);
    }
  }
}
