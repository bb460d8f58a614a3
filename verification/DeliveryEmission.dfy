/**
 At-most-once emission and conservation on the receiving side: every inbox row is broadcast for
 exactly the frame that created it, and every processed frame is accounted for.
 */
module DeliveryEmission {
  import opened Basics
  import opened Messages
  import opened Delivery
  import opened DeliveryIntegrity

  /** The emission is the content of frame `e.at`, a processed frame of a stream to `r`. */
  ghost predicate EmissionOk(h: Hash, r: NodeId, n: Node, net: seq<Stream>, e: Emission) {
    && e.at.sid < |net| && net[e.at.sid].to == r
    && var st := net[e.at.sid];
       && e.at.idx < st.done && e.at.idx < |st.written|
       && e.key == FrameKey(h, st, st.written[e.at.idx])
       && e.channel == st.channel && e.payload == st.written[e.at.idx].payload && e.ts == st.written[e.at.idx].ts
       && (e.persisted ==> e.key in n.winner && n.winner[e.key] == e.at)
  }

  ghost predicate EmittedAt(n: Node, at: At, persisted: bool) {
    exists i :: 0 <= i < |n.emitted| && n.emitted[i].at == at && n.emitted[i].persisted == persisted
  }

  /** The frame that created inbox row `k`: still to be broadcast, or broadcast. */
  ghost predicate WinnerOk(h: Hash, r: NodeId, n: Node, net: seq<Stream>, k: Key, at: At) {
    && at.sid < |net| && net[at.sid].to == r
    && var st := net[at.sid];
       && at.idx < |st.written| && FrameKey(h, st, st.written[at.idx]) == k
       && at.idx <= st.done && (at.idx == st.done ==> st.won)
       && (at.idx < st.done ==> EmittedAt(n, at, true))
  }

  predicate InInbox(t: Table, k: Key) {
    k in t && t[k].direction == In
  }

  /** A processed frame is in the inbox, or its record failed and it was emitted without one. */
  ghost predicate Settled(h: Hash, n: Node, net: seq<Stream>, sid: nat, idx: nat)
    requires sid < |net| && idx < |net[sid].written|
  {
    InInbox(n.table, FrameKey(h, net[sid], net[sid].written[idx])) || EmittedAt(n, At(sid, idx), false)
  }

  predicate Processed(net: seq<Stream>, r: NodeId, sid: nat, idx: nat) {
    sid < |net| && net[sid].to == r && idx < net[sid].done && idx < |net[sid].written|
  }

  ghost predicate EmissionsOk(h: Hash, r: NodeId, n: Node, net: seq<Stream>) {
    && (forall i :: 0 <= i < |n.emitted| ==> EmissionOk(h, r, n, net, n.emitted[i]))
    && (forall i, j :: 0 <= i < j < |n.emitted| ==> n.emitted[i].at != n.emitted[j].at)
  }

  ghost predicate WinnersOk(h: Hash, r: NodeId, n: Node, net: seq<Stream>) {
    && (forall k :: k in n.winner <==> InInbox(n.table, k))
    && (forall k :: k in n.winner ==> WinnerOk(h, r, n, net, k, n.winner[k]))
    && (forall sid :: 0 <= sid < |net| && net[sid].to == r && net[sid].won ==> WonOk(h, n, net, sid))
  }

  ghost predicate AllSettled(h: Hash, r: NodeId, n: Node, net: seq<Stream>) {
    forall sid: nat, idx: nat :: Processed(net, r, sid, idx) ==> Settled(h, n, net, sid, idx)
  }

  ghost predicate EmitInv(h: Hash, r: NodeId, n: Node, net: seq<Stream>) {
    EmissionsOk(h, r, n, net) && WinnersOk(h, r, n, net) && AllSettled(h, r, n, net)
  }

  ghost predicate WonOk(h: Hash, n: Node, net: seq<Stream>, sid: nat)
    requires sid < |net|
  {
    var st := net[sid];
    st.done < |st.written| && FrameKey(h, st, st.written[st.done]) in n.winner &&
    n.winner[FrameKey(h, st, st.written[st.done])] == At(sid, st.done)
  }

  ghost predicate AllEmit(h: Hash, s: Sys) {
    forall r :: r in s.nodes ==> EmitInv(h, r, s.nodes[r], s.net)
  }

  /** Nothing happened at the receiving ends of streams to `r`. */
  ghost predicate QuietFor(r: NodeId, net: seq<Stream>, net': seq<Stream>) {
    && NetGrows(net, net')
    && (forall i :: 0 <= i < |net| && net[i].to == r ==> net'[i].done == net[i].done && net'[i].won == net[i].won)
    && (forall i :: |net| <= i < |net'| ==> net'[i].done == 0 && !net'[i].won)
  }

  /** The history of `r`'s inbox is the same. */
  ghost predicate SameInbox(n: Node, n': Node) {
    && n'.emitted == n.emitted && n'.winner == n.winner
    && (forall k :: InInbox(n'.table, k) <==> InInbox(n.table, k))
  }

  lemma EmissionsCarry(h: Hash, r: NodeId, n: Node, n': Node, net: seq<Stream>, net': seq<Stream>)
    requires EmissionsOk(h, r, n, net) && QuietFor(r, net, net') && SameInbox(n, n')
    ensures EmissionsOk(h, r, n', net')
  {
    forall i | 0 <= i < |n.emitted| ensures EmissionOk(h, r, n', net', n.emitted[i]) {
      assert EmissionOk(h, r, n, net, n.emitted[i]);
      assert SameStream(net[n.emitted[i].at.sid], net'[n.emitted[i].at.sid]);
    }
  }

  lemma WinnersCarry(h: Hash, r: NodeId, n: Node, n': Node, net: seq<Stream>, net': seq<Stream>)
    requires WinnersOk(h, r, n, net) && QuietFor(r, net, net') && SameInbox(n, n')
    ensures WinnersOk(h, r, n', net')
  {
    forall k | k in n.winner ensures WinnerOk(h, r, n', net', k, n.winner[k]) {
      assert WinnerOk(h, r, n, net, k, n.winner[k]);
      assert SameStream(net[n.winner[k].sid], net'[n.winner[k].sid]);
    }
    forall sid | 0 <= sid < |net'| && net'[sid].to == r && net'[sid].won ensures WonOk(h, n', net', sid) {
      assert SameStream(net[sid], net'[sid]) && WonOk(h, n, net, sid);
    }
  }

  lemma SettledCarry(h: Hash, r: NodeId, n: Node, n': Node, net: seq<Stream>, net': seq<Stream>)
    requires AllSettled(h, r, n, net) && QuietFor(r, net, net') && SameInbox(n, n')
    requires forall i :: 0 <= i < |net| ==> net[i].done <= |net[i].written|
    ensures AllSettled(h, r, n', net')
  {
    forall sid: nat, idx: nat | Processed(net', r, sid, idx) ensures Settled(h, n', net', sid, idx) {
      assert SameStream(net[sid], net'[sid]) && Processed(net, r, sid, idx);
      assert Settled(h, n, net, sid, idx);
    }
  }

  lemma EmitCarries(h: Hash, r: NodeId, n: Node, n': Node, net: seq<Stream>, net': seq<Stream>)
    requires EmitInv(h, r, n, net) && QuietFor(r, net, net') && SameInbox(n, n')
    requires forall i :: 0 <= i < |net| ==> net[i].done <= |net[i].written|
    ensures EmitInv(h, r, n', net')
  {
    EmissionsCarry(h, r, n, n', net, net');
    WinnersCarry(h, r, n, n', net, net');
    SettledCarry(h, r, n, n', net, net');
  }

  // ----- Steps at the receiving end of a stream -----

  /** The stream at hand moves on past one frame that is settled. */
  ghost predicate MovesOn(net: seq<Stream>, net': seq<Stream>, sid: nat) {
    && sid < |net| && |net'| == |net| && net[sid].done < |net[sid].written|
    && net' == net[sid := net'[sid]]
    && SameStream(net[sid], net'[sid]) && |net'[sid].written| == |net[sid].written|
    && net'[sid].done == net[sid].done + 1 && !net'[sid].won
  }

  lemma EmitDuplicate(h: Hash, r: NodeId, n: Node, net: seq<Stream>, net': seq<Stream>, sid: nat)
    requires EmitInv(h, r, n, net) && MovesOn(net, net', sid) && net[sid].to == r && !net[sid].won
    requires InInbox(n.table, FrameKey(h, net[sid], net[sid].written[net[sid].done]))
    ensures EmitInv(h, r, n, net')
  {
    forall i | 0 <= i < |n.emitted| ensures EmissionOk(h, r, n, net', n.emitted[i]) {
      assert EmissionOk(h, r, n, net, n.emitted[i]);
    }
    forall k | k in n.winner ensures WinnerOk(h, r, n, net', k, n.winner[k]) {
      assert WinnerOk(h, r, n, net, k, n.winner[k]);
    }
    forall i | 0 <= i < |net'| && net'[i].to == r && net'[i].won ensures WonOk(h, n, net', i) {
      assert WonOk(h, n, net, i);
    }
    forall i: nat, idx: nat | Processed(net', r, i, idx) ensures Settled(h, n, net', i, idx) {
      if !(i == sid && idx == net[sid].done) {
        assert Processed(net, r, i, idx) && Settled(h, n, net, i, idx);
      }
    }
  }

  /** Broadcasting frame `done`, either because it won or because its record failed. */
  lemma EmitBroadcast(h: Hash, r: NodeId, n: Node, net: seq<Stream>, net': seq<Stream>, sid: nat)
    requires EmitInv(h, r, n, net) && MovesOn(net, net', sid) && net[sid].to == r
    ensures EmitInv(h, r, n.(emitted := n.emitted + [EmissionOf(h, net[sid], sid, net[sid].won)]), net')
  {
    var e := EmissionOf(h, net[sid], sid, net[sid].won);
    var n' := n.(emitted := n.emitted + [e]);
    if net[sid].won {
      assert WonOk(h, n, net, sid);
    }
    forall i | 0 <= i < |n'.emitted| ensures EmissionOk(h, r, n', net', n'.emitted[i]) {
      if i < |n.emitted| {
        assert EmissionOk(h, r, n, net, n.emitted[i]);
      }
    }
    BroadcastIsNew(h, r, n, net, sid, e);
    OlderEmissionsStay(n, e);
    assert EmittedAt(n', e.at, e.persisted) by {
      assert n'.emitted[|n.emitted|] == e;
    }
    forall k | k in n.winner ensures WinnerOk(h, r, n', net', k, n.winner[k]) {
      assert WinnerOk(h, r, n, net, k, n.winner[k]);
    }
    forall i | 0 <= i < |net'| && net'[i].to == r && net'[i].won ensures WonOk(h, n', net', i) {
      assert WonOk(h, n, net, i);
    }
    forall i: nat, idx: nat | Processed(net', r, i, idx) ensures Settled(h, n', net', i, idx) {
      if !(i == sid && idx == net[sid].done) {
        assert Processed(net, r, i, idx) && Settled(h, n, net, i, idx);
      }
    }
  }

  lemma BroadcastIsNew(h: Hash, r: NodeId, n: Node, net: seq<Stream>, sid: nat, e: Emission)
    requires EmissionsOk(h, r, n, net) && sid < |net| && e.at == At(sid, net[sid].done)
    ensures forall i :: 0 <= i < |n.emitted| ==> n.emitted[i].at != e.at
  {
    forall i | 0 <= i < |n.emitted| ensures n.emitted[i].at != e.at {
      assert EmissionOk(h, r, n, net, n.emitted[i]);
    }
  }

  lemma OlderEmissionsStay(n: Node, e: Emission)
    ensures forall at, p :: EmittedAt(n, at, p) ==> EmittedAt(n.(emitted := n.emitted + [e]), at, p)
  {
    var n' := n.(emitted := n.emitted + [e]);
    forall at, p | EmittedAt(n, at, p) ensures EmittedAt(n', at, p) {
      var i :| 0 <= i < |n.emitted| && n.emitted[i].at == at && n.emitted[i].persisted == p;
      assert n'.emitted[i] == n.emitted[i];
    }
  }

  /** Frame `done` of stream `sid` is new to the inbox of `n`. */
  ghost predicate NewTo(h: Hash, r: NodeId, n: Node, net: seq<Stream>, sid: nat, k: Key) {
    && sid < |net| && net[sid].to == r && !net[sid].won && net[sid].done < |net[sid].written|
    && k == FrameKey(h, net[sid], net[sid].written[net[sid].done]) && k !in n.table
  }

  function Recorded(n: Node, k: Key, row: Row, at: At): Node {
    n.(table := n.table[k := row], winner := n.winner[k := at])
  }

  lemma RecordedEmissions(h: Hash, r: NodeId, n: Node, net: seq<Stream>, sid: nat, k: Key, row: Row)
    requires EmitInv(h, r, n, net) && NewTo(h, r, n, net, sid, k)
    ensures EmissionsOk(h, r, Recorded(n, k, row, At(sid, net[sid].done)), net[sid := net[sid].(won := true)])
  {
    var n', net' := Recorded(n, k, row, At(sid, net[sid].done)), net[sid := net[sid].(won := true)];
    assert k !in n.winner;
    forall i | 0 <= i < |n.emitted| ensures EmissionOk(h, r, n', net', n.emitted[i]) {
      assert EmissionOk(h, r, n, net, n.emitted[i]);
    }
  }

  lemma RecordedWinner(h: Hash, r: NodeId, n: Node, net: seq<Stream>, sid: nat, k: Key, row: Row, x: Key)
    requires WinnersOk(h, r, n, net) && NewTo(h, r, n, net, sid, k) && row.direction == In
    requires x in Recorded(n, k, row, At(sid, net[sid].done)).winner
    ensures var n' := Recorded(n, k, row, At(sid, net[sid].done));
            WinnerOk(h, r, n', net[sid := net[sid].(won := true)], x, n'.winner[x])
  {
    if x != k {
      assert WinnerOk(h, r, n, net, x, n.winner[x]);
    }
  }

  lemma RecordedWinners(h: Hash, r: NodeId, n: Node, net: seq<Stream>, sid: nat, k: Key, row: Row)
    requires WinnersOk(h, r, n, net) && NewTo(h, r, n, net, sid, k) && row.direction == In
    ensures WinnersOk(h, r, Recorded(n, k, row, At(sid, net[sid].done)), net[sid := net[sid].(won := true)])
  {
    var n', net' := Recorded(n, k, row, At(sid, net[sid].done)), net[sid := net[sid].(won := true)];
    assert k !in n.winner;
    forall x | x in n'.winner ensures WinnerOk(h, r, n', net', x, n'.winner[x]) {
      RecordedWinner(h, r, n, net, sid, k, row, x);
    }
    hide WinnerOk;
    forall i | 0 <= i < |net'| && net'[i].to == r && net'[i].won ensures WonOk(h, n', net', i) {
      if i != sid {
        assert WonOk(h, n, net, i);
      }
    }
  }

  lemma RecordedSettled(h: Hash, r: NodeId, n: Node, net: seq<Stream>, sid: nat, k: Key, row: Row)
    requires AllSettled(h, r, n, net) && NewTo(h, r, n, net, sid, k)
    ensures AllSettled(h, r, Recorded(n, k, row, At(sid, net[sid].done)), net[sid := net[sid].(won := true)])
  {
    var n', net' := Recorded(n, k, row, At(sid, net[sid].done)), net[sid := net[sid].(won := true)];
    forall i: nat, idx: nat | Processed(net', r, i, idx) ensures Settled(h, n', net', i, idx) {
      assert Processed(net, r, i, idx) && Settled(h, n, net, i, idx);
    }
  }

  /** A frame that is new to the inbox becomes the winner of its key. */
  lemma EmitRecorded(h: Hash, r: NodeId, n: Node, net: seq<Stream>, sid: nat, k: Key, row: Row)
    requires EmitInv(h, r, n, net) && NewTo(h, r, n, net, sid, k) && row.direction == In
    ensures EmitInv(h, r, Recorded(n, k, row, At(sid, net[sid].done)), net[sid := net[sid].(won := true)])
  {
    RecordedEmissions(h, r, n, net, sid, k, row);
    RecordedWinners(h, r, n, net, sid, k, row);
    RecordedSettled(h, r, n, net, sid, k, row);
  }

  predicate Consumes(s: Sys, a: Action, r: NodeId)
    requires a.RxStep? ==> a.sid < |s.net|
  {
    a.RxStep? && s.net[a.sid].to == r && (a.rev.Record? || a.rev.RecordFail? || a.rev.Emit?)
  }

  lemma QuietTaskStep(me: NodeId, l: Local, ev: TaskEvent, r: NodeId)
    requires CanTask(l, ev)
    ensures QuietFor(r, l.net, DoTask(me, l, ev).net)
  {
  }

  /** Accepting, refusing, breaking and reading leave what was processed alone. */
  lemma RxKeepsDone(h: Hash, s: Sys, sid: nat, ev: RxEvent)
    requires CanRx(s, sid, ev) && (ev.Accept? || ev.Refuse? || ev.Break? || ev.Read?)
    ensures sid < |DoRx(h, s, sid, ev).net|
    ensures DoRx(h, s, sid, ev).net[sid].done == s.net[sid].done && DoRx(h, s, sid, ev).net[sid].won == s.net[sid].won
  {
  }

  lemma QuietRx(h: Hash, s: Sys, sid: nat, ev: RxEvent, r: NodeId)
    requires CanRx(s, sid, ev) && !Consumes(s, RxStep(sid, ev), r)
    ensures QuietFor(r, s.net, DoRx(h, s, sid, ev).net)
  {
    assert sid < |s.net|;
    hide CanRx, DoRx;
    NetRx(h, s, sid, ev);
    if s.net[sid].to == r {
      RxKeepsDone(h, s, sid, ev);
    }
  }

  lemma QuietOther(h: Hash, s: Sys, a: Action, r: NodeId)
    requires Can(s, a) && !a.TaskStep? && !Consumes(s, a, r)
    ensures QuietFor(r, s.net, Do(h, s, a).net)
  {
    if a.RxStep? {
      QuietRx(h, s, a.sid, a.rev, r);
    }
  }

  /** Broadcasts and winners change only where a frame is consumed. */
  lemma HistoryChanges(h: Hash, s: Sys, a: Action, r: NodeId)
    requires Can(s, a) && r in s.nodes && !Consumes(s, a, r)
    ensures Do(h, s, a).nodes[r].emitted == s.nodes[r].emitted
    ensures Do(h, s, a).nodes[r].winner == s.nodes[r].winner
  {
  }

  lemma QuietInbox(h: Hash, s: Sys, a: Action, r: NodeId, k: Key)
    requires Can(s, a) && r in s.nodes && !Consumes(s, a, r)
    ensures InInbox(Do(h, s, a).nodes[r].table, k) <==> InInbox(s.nodes[r].table, k)
  {
    StepEvolves(h, s, a);
    if k in Do(h, s, a).nodes[r].table {
      RowChanges(h, s, a, r, k);
    }
    if a.Send? {
      NextKeyIsNew(h, s.nodes[a.n].table, a.n, a.channel);
    }
  }

  lemma QuietStep(h: Hash, s: Sys, a: Action, r: NodeId)
    requires Can(s, a) && r in s.nodes && !Consumes(s, a, r)
    ensures QuietFor(r, s.net, Do(h, s, a).net)
    ensures SameInbox(s.nodes[r], Do(h, s, a).nodes[r])
  {
    if a.TaskStep? {
      QuietTaskStep(a.n, View(s, a.n, a.t), a.ev, r);
    } else {
      QuietOther(h, s, a, r);
    }
    HistoryChanges(h, s, a, r);
    forall k ensures InInbox(Do(h, s, a).nodes[r].table, k) <==> InInbox(s.nodes[r].table, k) {
      QuietInbox(h, s, a, r, k);
    }
  }

  lemma EmitRecord(h: Hash, s: Sys, sid: nat, now: nat)
    requires StreamsOk(h, s) && RowsOk(h, s) && AllEmit(h, s) && CanRx(s, sid, Record(now))
    ensures var s', r := DoRx(h, s, sid, Record(now)), s.net[sid].to; EmitInv(h, r, s'.nodes[r], s'.net)
  {
    var s', r, st := DoRx(h, s, sid, Record(now)), s.net[sid].to, s.net[sid];
    var n, f := s.nodes[r], st.written[st.done];
    var k := FrameKey(h, st, f);
    assert EmitInv(h, r, n, s.net);
    if k in n.table {
      assert StreamOk(h, s, st) && RowOk(h, s, r, k);
      EmitDuplicate(h, r, n, s.net, s'.net, sid);
    } else {
      EmitRecorded(h, r, n, s.net, sid, k, Row(In, st.channel, st.from, f.payload, f.ts, Some(now)));
    }
  }

  lemma EmitConsume(h: Hash, s: Sys, sid: nat, ev: RxEvent)
    requires StreamsOk(h, s) && RowsOk(h, s) && AllEmit(h, s) && CanRx(s, sid, ev)
    requires ev.Record? || ev.RecordFail? || ev.Emit?
    ensures var s', r := DoRx(h, s, sid, ev), s.net[sid].to; EmitInv(h, r, s'.nodes[r], s'.net)
  {
    if ev.Record? {
      EmitRecord(h, s, sid, ev.now);
    } else {
      var r := s.net[sid].to;
      assert EmitInv(h, r, s.nodes[r], s.net);
      EmitBroadcast(h, r, s.nodes[r], s.net, DoRx(h, s, sid, ev).net, sid);
    }
  }

  lemma WrittenBounds(h: Hash, s: Sys)
    requires StreamsOk(h, s)
    ensures forall i :: 0 <= i < |s.net| ==> s.net[i].done <= |s.net[i].written|
  {
    forall i | 0 <= i < |s.net| ensures s.net[i].done <= |s.net[i].written| {
      assert StreamOk(h, s, s.net[i]);
    }
  }

  lemma NodesStay(h: Hash, s: Sys, a: Action)
    requires Can(s, a)
    ensures Do(h, s, a).nodes.Keys == s.nodes.Keys && (a.RxStep? ==> a.sid < |s.net| && CanRx(s, a.sid, a.rev))
    ensures a.RxStep? ==> Do(h, s, a) == DoRx(h, s, a.sid, a.rev)
  {
  }

  lemma EmitQuiet(h: Hash, s: Sys, a: Action, r: NodeId)
    requires StreamsOk(h, s) && AllEmit(h, s) && Can(s, a) && r in s.nodes && r in Do(h, s, a).nodes
    requires (a.RxStep? ==> a.sid < |s.net|) && !Consumes(s, a, r)
    ensures EmitInv(h, r, Do(h, s, a).nodes[r], Do(h, s, a).net)
  {
    hide Can, Do, StreamsOk, EmitInv, QuietFor, SameInbox;
    WrittenBounds(h, s);
    QuietStep(h, s, a, r);
    EmitCarries(h, r, s.nodes[r], Do(h, s, a).nodes[r], s.net, Do(h, s, a).net);
  }

  lemma EmitStep(h: Hash, s: Sys, a: Action)
    requires StreamsOk(h, s) && RowsOk(h, s) && AllEmit(h, s) && Can(s, a)
    ensures AllEmit(h, Do(h, s, a))
  {
    NodesStay(h, s, a);
    hide Can, Do, CanRx, DoRx, StreamsOk, RowsOk, EmitInv;
    forall r | r in Do(h, s, a).nodes ensures EmitInv(h, r, Do(h, s, a).nodes[r], Do(h, s, a).net) {
      if Consumes(s, a, r) {
        EmitConsume(h, s, a.sid, a.rev);
      } else {
        EmitQuiet(h, s, a, r);
      }
    }
  }

  // ----- Every reachable state -----

  ghost predicate Inv(h: Hash, s: Sys) {
    StreamsOk(h, s) && TasksOk(s) && RowsOk(h, s) && AllEmit(h, s)
  }

  lemma InvStep(h: Hash, s: Sys, a: Action)
    requires Inv(h, s) && Can(s, a)
    ensures Inv(h, Do(h, s, a))
  {
    if a.TaskStep? {
      StreamsTaskStep(h, s, a.n, a.t, a.ev);
    } else {
      StreamsOther(h, s, a);
    }
    TasksStep(h, s, a);
    RowsStep(h, s, a);
    EmitStep(h, s, a);
  }

  lemma {:induction false} InvRun(h: Hash, s: Sys, acts: seq<Action>)
    requires Inv(h, s) && IsRun(h, s, acts)
    ensures Inv(h, Run(h, s, acts))
    decreases |acts|
  {
    if acts != [] {
      InvStep(h, s, acts[0]);
      InvRun(h, Do(h, s, acts[0]), acts[1..]);
    }
  }

  lemma ReachableInv(h: Hash, s: Sys, acts: seq<Action>)
    requires Init(s) && IsRun(h, s, acts)
    ensures Inv(h, Run(h, s, acts))
  {
    InvRun(h, s, acts);
  }

  // ----- Main results -----

  /**
   Every inbox row is its sender's outbox row of the same key: same channel, payload and
   timestamp, and addressed to this install. Channel ids may collide.
   */
  lemma InboxIntegrity(h: Hash, s: Sys, acts: seq<Action>, r: NodeId, k: Key)
    requires Init(s) && IsRun(h, s, acts)
    requires r in Run(h, s, acts).nodes && InInbox(Run(h, s, acts).nodes[r].table, k)
    ensures FromSender(Run(h, s, acts), r, k, Run(h, s, acts).nodes[r].table[k])
  {
    ReachableInv(h, s, acts);
    assert RowOk(h, Run(h, s, acts), r, k);
  }

  /** Every frame on a stream is an outbox row of the stream's sender, for the stream's channel and receiver. */
  lemma WrittenAsSent(h: Hash, s: Sys, acts: seq<Action>, sid: nat, idx: nat)
    requires Init(s) && IsRun(h, s, acts) && sid < |Run(h, s, acts).net| && idx < |Run(h, s, acts).net[sid].written|
    ensures var s1 := Run(h, s, acts); Backed(h, s1, s1.net[sid], s1.net[sid].written[idx])
  {
    ReachableInv(h, s, acts);
    assert StreamOk(h, Run(h, s, acts), Run(h, s, acts).net[sid]);
  }

  /** A frame dropped as a duplicate is a re-delivery of the very message already in the inbox. */
  lemma DuplicateIsRedelivery(h: Hash, s: Sys, acts: seq<Action>, sid: nat, now: nat)
    requires Init(s) && IsRun(h, s, acts) && CanRx(Run(h, s, acts), sid, Record(now))
    requires var st := Run(h, s, acts).net[sid];
             FrameKey(h, st, st.written[st.done]) in Run(h, s, acts).nodes[st.to].table
    ensures var st := Run(h, s, acts).net[sid];
            var row := Run(h, s, acts).nodes[st.to].table[FrameKey(h, st, st.written[st.done])];
            && row.direction == In && row.channel == st.channel
            && row.payload == st.written[st.done].payload && row.ts == st.written[st.done].ts
  {
    ReachableInv(h, s, acts);
    var s1 := Run(h, s, acts);
    var st := s1.net[sid];
    assert StreamOk(h, s1, st) && Backed(h, s1, st, st.written[st.done]);
    assert RowOk(h, s1, st.to, FrameKey(h, st, st.written[st.done]));
  }

  /**
   Of all broadcasts of one key, at most one was of a recorded message: while `inbox_record`
   succeeds, each message is emitted at most once.
   */
  lemma AtMostOnce(h: Hash, s: Sys, acts: seq<Action>, r: NodeId, i: nat, j: nat)
    requires Init(s) && IsRun(h, s, acts) && r in Run(h, s, acts).nodes
    requires i < j < |Run(h, s, acts).nodes[r].emitted|
    requires Run(h, s, acts).nodes[r].emitted[i].key == Run(h, s, acts).nodes[r].emitted[j].key
    ensures !(Run(h, s, acts).nodes[r].emitted[i].persisted && Run(h, s, acts).nodes[r].emitted[j].persisted)
  {
    ReachableInv(h, s, acts);
    var s1 := Run(h, s, acts);
    assert EmitInv(h, r, s1.nodes[r], s1.net);
    assert EmissionOk(h, r, s1.nodes[r], s1.net, s1.nodes[r].emitted[i]);
    assert EmissionOk(h, r, s1.nodes[r], s1.net, s1.nodes[r].emitted[j]);
  }

  /** Every broadcast, recorded or not, is a message its sender addressed to this install, unchanged. */
  lemma EmissionIntegrity(h: Hash, s: Sys, acts: seq<Action>, r: NodeId, i: nat)
    requires Init(s) && IsRun(h, s, acts) && r in Run(h, s, acts).nodes
    requires i < |Run(h, s, acts).nodes[r].emitted|
    ensures var e := Run(h, s, acts).nodes[r].emitted[i];
            FromSender(Run(h, s, acts), r, e.key, Row(In, e.channel, e.key.sender, e.payload, e.ts, None))
  {
    ReachableInv(h, s, acts);
    var s1 := Run(h, s, acts);
    var e := s1.nodes[r].emitted[i];
    assert EmissionOk(h, r, s1.nodes[r], s1.net, e);
    assert StreamOk(h, s1, s1.net[e.at.sid]);
    assert Backed(h, s1, s1.net[e.at.sid], s1.net[e.at.sid].written[e.at.idx]);
  }

  /** Inbox row `k` has been broadcast, is about to be, or its receiver crashed in between. */
  ghost predicate BroadcastAccounted(s: Sys, r: NodeId, k: Key)
    requires r in s.nodes
  {
    && k in s.nodes[r].winner
    && var at := s.nodes[r].winner[k];
       EmittedAt(s.nodes[r], at, true) || (at.sid < |s.net| && AboutToEmit(s, at.sid, at.idx))
  }

  ghost predicate AboutToEmit(s: Sys, sid: nat, idx: nat)
    requires sid < |s.net|
  {
    s.net[sid].won && s.net[sid].done == idx && (s.net[sid].rx.Crashed? || CanRx(s, sid, Emit))
  }

  lemma WonIsAboutToEmit(h: Hash, s: Sys, sid: nat)
    requires sid < |s.net| && StreamOk(h, s, s.net[sid]) && s.net[sid].won
    ensures AboutToEmit(s, sid, s.net[sid].done)
  {
  }

  lemma WinnerAccounted(h: Hash, s: Sys, r: NodeId, k: Key)
    requires Inv(h, s) && r in s.nodes && InInbox(s.nodes[r].table, k)
    ensures BroadcastAccounted(s, r, k)
  {
    assert EmitInv(h, r, s.nodes[r], s.net);
    var at := s.nodes[r].winner[k];
    assert WinnerOk(h, r, s.nodes[r], s.net, k, at);
    if at.idx == s.net[at.sid].done {
      WonIsAboutToEmit(h, s, at.sid);
    }
  }

  /** Whatever is recorded in an inbox has been broadcast, is about to be, or its receiver crashed in between. */
  lemma RecordedIsBroadcast(h: Hash, s: Sys, acts: seq<Action>, r: NodeId, k: Key)
    requires Init(s) && IsRun(h, s, acts) && r in Run(h, s, acts).nodes
    requires InInbox(Run(h, s, acts).nodes[r].table, k)
    ensures BroadcastAccounted(Run(h, s, acts), r, k)
  {
    ReachableInv(h, s, acts);
    WinnerAccounted(h, Run(h, s, acts), r, k);
  }

  /** What has become of a frame that was fully written. */
  datatype Fate = InFlight | Queued | Processed | CutOff | LostInReceiver

  function FateOf(st: Stream, idx: nat): Fate {
    if idx < st.done then Fate.Processed
    else if st.rx.Crashed? then LostInReceiver
    else if idx < st.got then Queued
    else if st.rx.Arriving? || st.rx.Live? then InFlight
    else CutOff
  }

  /** Where the message of a carried row is: in the inbox as soon as the receiver has processed it and could record it. */
  ghost predicate Located(h: Hash, s: Sys, n: NodeId, k: Key, sid: nat, idx: nat) {
    && CarriedAt(s, n, k, sid, idx)
    && var st := s.net[sid];
       st.to in s.nodes &&
       (FateOf(st, idx) == Fate.Processed ==> InInbox(s.nodes[st.to].table, k) || EmittedAt(s.nodes[st.to], At(sid, idx), false))
  }

  /**
   Conservation: every outbox row is pending, or fully written on a stream to its own peer for its
   own channel, where it is in flight, queued at the receiver, processed (and then in the inbox,
   unless recording failed and it was emitted anyway), on a stream that was cut or refused, or
   lost in a receiver that crashed.
   */
  lemma Conservation(h: Hash, s: Sys, acts: seq<Action>, n: NodeId, k: Key)
    requires Init(s) && IsRun(h, s, acts) && n in Run(h, s, acts).nodes
    requires var t := Run(h, s, acts).nodes[n].table; k in t && t[k].direction == Out
    ensures var s1 := Run(h, s, acts);
            || Pending(s1.nodes[n].table, s1.nodes[n].table[k].peer, k)
            || exists sid: nat, idx: nat :: Located(h, s1, n, k, sid, idx)
  {
    ReachableInv(h, s, acts);
    var s1 := Run(h, s, acts);
    assert RowOk(h, s1, n, k);
    if s1.nodes[n].table[k].delivered.Some? {
      var sid: nat, idx: nat :| CarriedAt(s1, n, k, sid, idx);
      CarriedIsLocated(h, s1, n, k, sid, idx);
    }
  }

  lemma CarriedIsLocated(h: Hash, s: Sys, n: NodeId, k: Key, sid: nat, idx: nat)
    requires Inv(h, s) && CarriedAt(s, n, k, sid, idx) && s.nodes[n].table[k].direction == Out
    ensures Located(h, s, n, k, sid, idx)
  {
    var st := s.net[sid];
    assert StreamOk(h, s, st) && RowOk(h, s, n, k) && EmitInv(h, st.to, s.nodes[st.to], s.net);
    assert FrameKey(h, st, st.written[idx]) == k;
    if idx < st.done {
      assert Processed(s.net, st.to, sid, idx);
      assert Settled(h, s.nodes[st.to], s.net, sid, idx);
    }
  }

  /**
   A pending row survives every step, failures, crashes and restarts included, unchanged; it stops
   being pending only when a task of its install marks it as the first row in hand, after that
   task's write put it in full on a stream to its own peer for its own channel.
   */
  lemma PendingSurvives(h: Hash, s: Sys, a: Action, n: NodeId, k: Key)
    requires Inv(h, s) && Can(s, a) && n in s.nodes && k in s.nodes[n].table && Pending(s.nodes[n].table, s.nodes[n].table[k].peer, k)
    ensures n in Do(h, s, a).nodes && k in Do(h, s, a).nodes[n].table
    ensures || Do(h, s, a).nodes[n].table[k] == s.nodes[n].table[k]
            || (a.TaskStep? && a.n == n && a.ev.MarkOk? && Marking(s.nodes[n].tasks[a.t], k) && Carried(s, n, k)
                && s.nodes[n].tasks[a.t].peer == s.nodes[n].table[k].peer)
  {
    hide Do, Can, Inv;
    RowStays(h, s, a, n, k);
    RowChanges(h, s, a, n, k);
    if Do(h, s, a).nodes[n].table[k] != s.nodes[n].table[k] {
      TasksHold(h, s);
      MarkerMarks(s, n, a.t, a.ev.now);
      MarkerHasWritten(s, n, a.t);
    }
  }

  lemma RowStays(h: Hash, s: Sys, a: Action, n: NodeId, k: Key)
    requires Can(s, a) && n in s.nodes && k in s.nodes[n].table
    ensures n in Do(h, s, a).nodes && k in Do(h, s, a).nodes[n].table
  {
    hide Do, Can;
    StepEvolves(h, s, a);
  }

  lemma MarkerMarks(s: Sys, n: NodeId, t: nat, now: nat)
    requires Can(s, TaskStep(n, t, MarkOk(now)))
    ensures IsTask(s, n, t) && s.nodes[n].tasks[t].pc.Mark? && s.nodes[n].tasks[t].pc.rows != []
  {
  }

  lemma TasksHold(h: Hash, s: Sys)
    requires Inv(h, s)
    ensures TasksOk(s)
  {
  }

  /** The task has written row `k` and is about to mark it. */
  predicate Marking(t: Task, k: Key) {
    t.pc.Mark? && t.pc.rows != [] && t.pc.rows[0].key == k
  }

  lemma MarkerHasWritten(s: Sys, n: NodeId, t: nat)
    requires TasksOk(s) && IsTask(s, n, t) && s.nodes[n].tasks[t].pc.Mark? && s.nodes[n].tasks[t].pc.rows != []
    ensures var task := s.nodes[n].tasks[t];
            var k := task.pc.rows[0].key;
            Carried(s, n, k) && k in s.nodes[n].table && s.nodes[n].table[k].peer == task.peer
  {
    assert TaskOk(s, n, s.nodes[n].tasks[t]);
    assert ItemOk(s.nodes[n].table, s.nodes[n].tasks[t].peer, Rows(s.nodes[n].tasks[t].pc)[0]);
  }
}
