/** The consumer behind one inbound stream, in code: `spawn_inbound_msg` (crates/wt-daemon/src/state.rs). */
module Inbound {
  import opened Basics
  import opened Messages
  import opened Delivery
  import opened Drain

  /** A message as it is broadcast to live subscribers. */
  datatype RecvMsg = RecvMsg(key: Key, channel: string, payload: Bytes, ts: nat)

  function MsgOf(h: Hash, from: NodeId, channel: string, f: Frame): RecvMsg {
    RecvMsg(InboxKey(h, from, channel, f.num), channel, f.payload, f.ts)
  }

  /**
   The inbox and the broadcasts after a run of frames. A frame is broadcast when its key was free,
   and also when recording it failed (`fails`), which persists nothing.
   */
  function Consume(h: Hash, t: Table, from: NodeId, channel: string, frames: seq<Frame>, fails: seq<bool>, now: nat): (r: (Table, seq<RecvMsg>))
    requires |fails| == |frames|
    decreases |frames|
  {
    if frames == [] then (t, []) else
      var m := |frames| - 1;
      var (t1, out) := Consume(h, t, from, channel, frames[..m], fails[..m], now);
      var f := frames[m];
      if fails[m] then (t1, out + [MsgOf(h, from, channel, f)])
      else if InboxKey(h, from, channel, f.num) in t1 then (t1, out)
      else (InboxRecord(h, t1, from, channel, f.num, f.payload, f.ts, now), out + [MsgOf(h, from, channel, f)])
  }

  function Keys(out: seq<RecvMsg>): (r: seq<Key>)
    ensures |r| == |out|
  {
    seq(|out|, i requires 0 <= i < |out| => out[i].key)
  }

  /** How many frames of key `k` could not be recorded. */
  function Failures(h: Hash, from: NodeId, channel: string, frames: seq<Frame>, fails: seq<bool>, k: Key): nat
    requires |fails| == |frames|
    decreases |frames|
  {
    if frames == [] then 0 else
      var m := |frames| - 1;
      Failures(h, from, channel, frames[..m], fails[..m], k)
      + (if fails[m] && InboxKey(h, from, channel, frames[m].num) == k then 1 else 0)
  }

  lemma KeysSnoc(out: seq<RecvMsg>, m: RecvMsg, k: Key)
    ensures Count(Keys(out + [m]), k) == Count(Keys(out), k) + (if m.key == k then 1 else 0)
  {
    assert Keys(out + [m]) == Keys(out) + [m.key];
    CountAppend(Keys(out), m.key, k);
  }

  /**
   Over any frames, repeats included, a key is broadcast exactly once if this run put it in the
   inbox, and otherwise not at all, plus once for every time recording it failed.
   */
  lemma {:induction false} BroadcastCount(h: Hash, t: Table, from: NodeId, channel: string, frames: seq<Frame>, fails: seq<bool>, now: nat, k: Key)
    requires |fails| == |frames|
    ensures var (t', out) := Consume(h, t, from, channel, frames, fails, now);
            && (k in t ==> k in t' && t'[k] == t[k])
            && Count(Keys(out), k) == (if k in t' && k !in t then 1 else 0) + Failures(h, from, channel, frames, fails, k)
    decreases |frames|
  {
    if frames != [] {
      var m := |frames| - 1;
      BroadcastCount(h, t, from, channel, frames[..m], fails[..m], now, k);
      var (t1, out) := Consume(h, t, from, channel, frames[..m], fails[..m], now);
      KeysSnoc(out, MsgOf(h, from, channel, frames[m]), k);
    }
  }

  /** What frame `i` adds to the inbox and the broadcasts. */
  lemma ConsumeOneMore(h: Hash, t: Table, from: NodeId, channel: string, frames: seq<Frame>, fails: seq<bool>, i: nat, now: nat, before: seq<RecvMsg>)
    requires |fails| == |frames| && i < |frames|
    ensures var (t1, out1) := Consume(h, t, from, channel, frames[..i], fails[..i], now);
            var (t2, out2) := Consume(h, t, from, channel, frames[..i + 1], fails[..i + 1], now);
            var f := frames[i];
            && t2 == (if fails[i] then t1 else InboxRecord(h, t1, from, channel, f.num, f.payload, f.ts, now))
            && before + out2 == before + out1 + (if InboxKey(h, from, channel, f.num) in t1 && !fails[i] then [] else [MsgOf(h, from, channel, f)])
    ensures frames[i..][0] == frames[i] && frames[i..][1..] == frames[i + 1..]
  {
    assert frames[..i + 1][..i] == frames[..i] && fails[..i + 1][..i] == fails[..i];
    var out1 := Consume(h, t, from, channel, frames[..i], fails[..i], now).1;
    ConcatAssoc(before, out1, [MsgOf(h, from, channel, frames[i])]);
    assert before + out1 + [] == before + out1;
  }

  // ----- The steps of the transition system -----

  /** Stream `sid` is from `from` on `channel` to install `me`, which is between two frames of it. */
  ghost predicate Serving(s: Sys, sid: nat, from: NodeId, channel: string, me: NodeId) {
    && sid < |s.net| && s.net[sid].from == from && s.net[sid].channel == channel && s.net[sid].to == me && me in s.nodes
    && (s.net[sid].rx.Live? || s.net[sid].rx.Broken?) && !s.net[sid].won
  }

  /** `frames` are the next frames read from the stream and not yet processed. */
  ghost predicate ToProcess(s: Sys, sid: nat, frames: seq<Frame>)
    requires sid < |s.net|
  {
    var st := s.net[sid];
    st.done + |frames| <= st.got <= |st.written| && frames == st.written[st.done..][..|frames|]
  }

  /** The broadcasts of an install as its subscribers see them. */
  function Broadcasts(emitted: seq<Emission>): (r: seq<RecvMsg>)
    ensures |r| == |emitted|
  {
    seq(|emitted|, i requires 0 <= i < |emitted| => RecvMsg(emitted[i].key, emitted[i].channel, emitted[i].payload, emitted[i].ts))
  }

  /** The steps of one frame: it is a duplicate, its record fails and it is broadcast anyway, or it is recorded and broadcast. */
  function FrameSteps(sid: nat, fail: bool, dup: bool, now: nat): seq<Action> {
    if fail then [RxStep(sid, RecordFail)]
    else if dup then [RxStep(sid, Record(now))]
    else [RxStep(sid, Record(now)), RxStep(sid, Emit)]
  }

  function Advanced(st: Stream): Stream {
    st.(done := st.done + 1, won := false)
  }

  /** The system after one frame. */
  ghost function FrameDone(h: Hash, s: Sys, sid: nat, fail: bool, now: nat): Sys
    requires sid < |s.net| && s.net[sid].to in s.nodes && s.net[sid].done < |s.net[sid].written|
  {
    var st, node := s.net[sid], s.nodes[s.net[sid].to];
    var f := st.written[st.done];
    var k := FrameKey(h, st, f);
    var net := s.net[sid := Advanced(st)];
    if fail then SetNode(s, st.to, node.(emitted := node.emitted + [EmissionOf(h, st, sid, false)])).(net := net)
    else if k in node.table then s.(net := net)
    else
      SetNode(s, st.to, node.(table := InboxRecord(h, node.table, st.from, st.channel, f.num, f.payload, f.ts, now),
                              winner := node.winner[k := At(sid, st.done)],
                              emitted := node.emitted + [EmissionOf(h, st, sid, true)])).(net := net)
  }

  lemma NewFrameRun(h: Hash, s: Sys, sid: nat, now: nat)
    requires CanRx(s, sid, Record(now)) && FrameKey(h, s.net[sid], s.net[sid].written[s.net[sid].done]) !in s.nodes[s.net[sid].to].table
    ensures Reaches(h, s, [RxStep(sid, Record(now)), RxStep(sid, Emit)], FrameDone(h, s, sid, false, now))
  {
    var s1 := Do(h, s, RxStep(sid, Record(now)));
    ReachesOn(h, s, [], s, RxStep(sid, Record(now)));
    assert s1.net[sid] == s.net[sid].(won := true);
    ReachesOn(h, s, [] + [RxStep(sid, Record(now))], s1, RxStep(sid, Emit));
    assert [] + [RxStep(sid, Record(now))] + [RxStep(sid, Emit)] == [RxStep(sid, Record(now)), RxStep(sid, Emit)];
    assert s1.net[sid := Advanced(s.net[sid])] == s.net[sid := Advanced(s.net[sid])];
    assert Do(h, s1, RxStep(sid, Emit)).nodes == FrameDone(h, s, sid, false, now).nodes;
  }

  lemma FrameRun(h: Hash, s: Sys, sid: nat, fail: bool, now: nat)
    requires CanRx(s, sid, Record(now))
    ensures var dup := FrameKey(h, s.net[sid], s.net[sid].written[s.net[sid].done]) in s.nodes[s.net[sid].to].table;
            Reaches(h, s, FrameSteps(sid, fail, dup, now), FrameDone(h, s, sid, fail, now))
  {
    if fail {
      ReachesOn(h, s, [], s, RxStep(sid, RecordFail));
      assert [] + [RxStep(sid, RecordFail)] == [RxStep(sid, RecordFail)];
    } else if FrameKey(h, s.net[sid], s.net[sid].written[s.net[sid].done]) in s.nodes[s.net[sid].to].table {
      ReachesOn(h, s, [], s, RxStep(sid, Record(now)));
      assert [] + [RxStep(sid, Record(now))] == [RxStep(sid, Record(now))];
    } else {
      NewFrameRun(h, s, sid, now);
    }
  }

  lemma BroadcastOneMore(h: Hash, st: Stream, sid: nat, emitted: seq<Emission>, persisted: bool)
    requires st.done < |st.written|
    ensures Broadcasts(emitted + [EmissionOf(h, st, sid, persisted)]) == Broadcasts(emitted) + [MsgOf(h, st.from, st.channel, st.written[st.done])]
  {
  }

  /** What one frame does to the inbox, the broadcasts and the stream. */
  lemma FrameEffect(h: Hash, s: Sys, sid: nat, from: NodeId, channel: string, me: NodeId, frames: seq<Frame>, fail: bool, now: nat)
    requires Serving(s, sid, from, channel, me) && ToProcess(s, sid, frames) && frames != []
    ensures CanRx(s, sid, Record(now)) && s.net[sid].written[s.net[sid].done] == frames[0]
    ensures var s', f := FrameDone(h, s, sid, fail, now), frames[0];
            var dup := InboxKey(h, from, channel, f.num) in s.nodes[me].table;
            && Serving(s', sid, from, channel, me) && ToProcess(s', sid, frames[1..])
            && s'.nodes[me].table == (if fail then s.nodes[me].table else InboxRecord(h, s.nodes[me].table, from, channel, f.num, f.payload, f.ts, now))
            && Broadcasts(s'.nodes[me].emitted) == Broadcasts(s.nodes[me].emitted) + (if dup && !fail then [] else [MsgOf(h, from, channel, f)])
  {
    var st := s.net[sid];
    assert st.written[st.done..][..|frames|][0] == frames[0];
    assert st.written[st.done + 1..][..|frames| - 1] == frames[1..];
    BroadcastOneMore(h, st, sid, s.nodes[me].emitted, true);
    BroadcastOneMore(h, st, sid, s.nodes[me].emitted, false);
    assert Broadcasts(s.nodes[me].emitted) + [] == Broadcasts(s.nodes[me].emitted);
  }

  class InboundStream {
    const from: NodeId
    const channel: string
    const store: MessageStore
    /** The broadcasts made. */
    var sent: seq<RecvMsg>

    constructor (from: NodeId, channel: string, store: MessageStore)
      ensures this.from == from && this.channel == channel && this.store == store && sent == []
    {
      this.from, this.channel, this.store, sent := from, channel, store, [];
    }

    /** Records one frame and broadcasts it if its key was free or recording failed. */
    method ConsumeFrame(f: Frame, fail: bool, now: nat)
      modifies this, store
      ensures store.messages == if fail then old(store.messages) else InboxRecord(store.hash, old(store.messages), from, channel, f.num, f.payload, f.ts, now)
      ensures sent == old(sent) + (if InboxKey(store.hash, from, channel, f.num) in old(store.messages) && !fail then [] else [MsgOf(store.hash, from, channel, f)])
    {
      var recorded := true;
      if !fail {
        recorded := store.RecordInbound(from, channel, f.num, f.payload, f.ts, now);
      }
      if recorded {
        sent := sent + [MsgOf(store.hash, from, channel, f)];
      } else {
        assert sent + [] == sent;
      }
    }

    /**
     Records and broadcasts the frames handed over by the receive loop, in order. Its steps are
     steps of the transition system at the receiving end of stream `sid` of `s`, and lead it to the
     inbox and the broadcasts the code ends with.
     */
    method ConsumeFrames(ghost s: Sys, ghost sid: nat, ghost me: NodeId, frames: seq<Frame>, fails: seq<bool>, now: nat)
      returns (ghost acts: seq<Action>, ghost s': Sys)
      requires |fails| == |frames| && Serving(s, sid, from, channel, me) && ToProcess(s, sid, frames)
      requires store.messages == s.nodes[me].table
      modifies this, store
      ensures store.messages == Consume(store.hash, old(store.messages), from, channel, frames, fails, now).0
      ensures sent == old(sent) + Consume(store.hash, old(store.messages), from, channel, frames, fails, now).1
      ensures Reaches(store.hash, s, acts, s') && Serving(s', sid, from, channel, me) && s'.nodes[me].table == store.messages
      ensures Broadcasts(s'.nodes[me].emitted) == Broadcasts(s.nodes[me].emitted) + Consume(store.hash, old(store.messages), from, channel, frames, fails, now).1
    {
      TraceOpens(store.hash, s, sid, from, channel, me, frames, fails, now);
      hide Traced, InboxRecord, InboxKey, MsgOf, Consume, Reaches;
      ghost var t0, sent0 := store.messages, sent;
      assert sent0 + [] == sent0;
      acts, s' := [], s;
      var i := 0;
      while i < |frames|
        invariant i <= |frames| && Traced(store.hash, s, acts, s', sid, from, channel, me, frames, fails, i, now)
        invariant store.messages == Consume(store.hash, t0, from, channel, frames[..i], fails[..i], now).0
        invariant sent == sent0 + Consume(store.hash, t0, from, channel, frames[..i], fails[..i], now).1
      {
        ConsumeOneMore(store.hash, t0, from, channel, frames, fails, i, now, sent0);
        acts, s' := TraceOneMore(store.hash, s, acts, s', sid, from, channel, me, frames, fails, i, now);
        ConsumeFrame(frames[i], fails[i], now);
        i := i + 1;
      }
      assert frames[..|frames|] == frames && fails[..|fails|] == fails;
      TraceEnds(store.hash, s, acts, s', sid, from, channel, me, frames, fails, now);
    }
  }

  /** `acts` lead from `s` to `s'`, where the first `i` frames have been processed. */
  ghost predicate Traced(h: Hash, s: Sys, acts: seq<Action>, s': Sys, sid: nat, from: NodeId, channel: string, me: NodeId,
                         frames: seq<Frame>, fails: seq<bool>, i: nat, now: nat) {
    && |fails| == |frames| && i <= |frames| && me in s.nodes
    && Reaches(h, s, acts, s') && Served(s', sid, from, channel, me, frames[i..])
    && var (table, out) := Consume(h, s.nodes[me].table, from, channel, frames[..i], fails[..i], now);
       s'.nodes[me].table == table && Broadcasts(s'.nodes[me].emitted) == Broadcasts(s.nodes[me].emitted) + out
  }

  lemma TraceOpens(h: Hash, s: Sys, sid: nat, from: NodeId, channel: string, me: NodeId, frames: seq<Frame>, fails: seq<bool>, now: nat)
    requires |fails| == |frames| && Served(s, sid, from, channel, me, frames)
    ensures Traced(h, s, [], s, sid, from, channel, me, frames, fails, 0, now)
    ensures Consume(h, s.nodes[me].table, from, channel, frames[..0], fails[..0], now) == (s.nodes[me].table, [])
  {
    assert frames[0..] == frames && Broadcasts(s.nodes[me].emitted) + [] == Broadcasts(s.nodes[me].emitted);
  }

  lemma TraceOneMore(h: Hash, s: Sys, acts: seq<Action>, s1: Sys, sid: nat, from: NodeId, channel: string, me: NodeId,
                     frames: seq<Frame>, fails: seq<bool>, i: nat, now: nat) returns (acts': seq<Action>, s': Sys)
    requires i < |frames| && Traced(h, s, acts, s1, sid, from, channel, me, frames, fails, i, now)
    ensures Traced(h, s, acts', s', sid, from, channel, me, frames, fails, i + 1, now)
  {
    hide ToProcess, Reaches, InboxRecord, InboxKey, MsgOf, Consume, Broadcasts, FrameDone;
    ConsumeOneMore(h, s.nodes[me].table, from, channel, frames, fails, i, now, Broadcasts(s.nodes[me].emitted));
    FrameEffect(h, s1, sid, from, channel, me, frames[i..], fails[i], now);
    FrameRun(h, s1, sid, fails[i], now);
    var dup := FrameKey(h, s1.net[sid], frames[i]) in s1.nodes[me].table;
    s' := FrameDone(h, s1, sid, fails[i], now);
    acts' := acts + FrameSteps(sid, fails[i], dup, now);
    ReachesThrough(h, s, acts, s1, FrameSteps(sid, fails[i], dup, now), s');
  }

  lemma TraceEnds(h: Hash, s: Sys, acts: seq<Action>, s': Sys, sid: nat, from: NodeId, channel: string, me: NodeId,
                  frames: seq<Frame>, fails: seq<bool>, now: nat)
    requires Traced(h, s, acts, s', sid, from, channel, me, frames, fails, |frames|, now)
    ensures Reaches(h, s, acts, s') && Serving(s', sid, from, channel, me)
    ensures var (table, out) := Consume(h, s.nodes[me].table, from, channel, frames, fails, now);
            s'.nodes[me].table == table && Broadcasts(s'.nodes[me].emitted) == Broadcasts(s.nodes[me].emitted) + out
  {
    assert frames[..|frames|] == frames && fails[..|fails|] == fails;
  }

  ghost predicate Served(s: Sys, sid: nat, from: NodeId, channel: string, me: NodeId, frames: seq<Frame>) {
    Serving(s, sid, from, channel, me) && ToProcess(s, sid, frames)
  }
}
