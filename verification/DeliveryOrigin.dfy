/**
 Where messages come from: every outbox row, and so every inbox row and every broadcast, is what was
 handed to `send` of its sender, in channel, payload, addressee and time (`outbox_enqueue`,
 crates/wt-core/src/store.rs); and whatever was handed to it is kept.
 */
module DeliveryOrigin {
  import opened Basics
  import opened Messages
  import opened Delivery
  import opened DeliveryIntegrity
  import opened DeliveryEmission

  /** Among `acts`, install `n` was told to send exactly this to `peer`. */
  predicate Sent(acts: seq<Action>, n: NodeId, peer: NodeId, channel: string, payload: Bytes, ts: nat) {
    exists i :: 0 <= i < |acts| && acts[i] == Send(n, peer, channel, payload, ts)
  }

  /** Row `k` was in the outbox of install `n` before, as the same message. */
  predicate WasThere(s: Sys, n: NodeId, k: Key, row: Row) {
    n in s.nodes && k in s.nodes[n].table && SameMessage(row, s.nodes[n].table[k])
  }

  lemma TaskAddsNothing(me: NodeId, l: Local, ev: TaskEvent, k: Key)
    requires CanTask(l, ev) && k in DoTask(me, l, ev).table
    ensures k in l.table && SameMessage(DoTask(me, l, ev).table[k], l.table[k])
  {
  }

  lemma StepOrigin(h: Hash, s: Sys, a: Action, n: NodeId, k: Key)
    requires Can(s, a) && n in Do(h, s, a).nodes && k in Do(h, s, a).nodes[n].table && Do(h, s, a).nodes[n].table[k].direction == Out
    ensures var row := Do(h, s, a).nodes[n].table[k];
            WasThere(s, n, k, row) || a == Send(n, row.peer, row.channel, row.payload, row.ts)
  {
    if a.TaskStep? && a.n == n {
      hide CanTask, DoTask;
      TaskAddsNothing(n, View(s, n, a.t), a.ev, k);
    }
  }

  lemma {:induction false} RunOrigin(h: Hash, s: Sys, acts: seq<Action>, n: NodeId, k: Key)
    requires IsRun(h, s, acts) && n in Run(h, s, acts).nodes && k in Run(h, s, acts).nodes[n].table
    requires Run(h, s, acts).nodes[n].table[k].direction == Out
    ensures var row := Run(h, s, acts).nodes[n].table[k];
            WasThere(s, n, k, row) || Sent(acts, n, row.peer, row.channel, row.payload, row.ts)
    decreases |acts|
  {
    hide Can, Do;
    if acts != [] {
      var s1, row := Do(h, s, acts[0]), Run(h, s, acts).nodes[n].table[k];
      RunOrigin(h, s1, acts[1..], n, k);
      if Sent(acts[1..], n, row.peer, row.channel, row.payload, row.ts) {
        var i :| 0 <= i < |acts[1..]| && acts[1..][i] == Send(n, row.peer, row.channel, row.payload, row.ts);
        assert acts[i + 1] == acts[1..][i];
      } else {
        StepOrigin(h, s, acts[0], n, k);
        assert acts[0] == acts[0];
      }
    }
  }

  // ----- Main results -----

  /** Every outbox row is what its install was told to send. */
  lemma OutboxIsSent(h: Hash, s: Sys, acts: seq<Action>, n: NodeId, k: Key)
    requires Init(s) && IsRun(h, s, acts) && n in Run(h, s, acts).nodes && k in Run(h, s, acts).nodes[n].table
    requires Run(h, s, acts).nodes[n].table[k].direction == Out
    ensures var row := Run(h, s, acts).nodes[n].table[k]; Sent(acts, n, row.peer, row.channel, row.payload, row.ts)
  {
    RunOrigin(h, s, acts, n, k);
  }

  /** Every inbox row is what its sender was told to send to this install. */
  lemma InboxIsSent(h: Hash, s: Sys, acts: seq<Action>, r: NodeId, k: Key)
    requires Init(s) && IsRun(h, s, acts)
    requires r in Run(h, s, acts).nodes && InInbox(Run(h, s, acts).nodes[r].table, k)
    ensures var row := Run(h, s, acts).nodes[r].table[k]; Sent(acts, k.sender, r, row.channel, row.payload, row.ts)
  {
    InboxIntegrity(h, s, acts, r, k);
    OutboxIsSent(h, s, acts, k.sender, k);
  }

  /** Every broadcast is what its sender was told to send to this install. */
  lemma BroadcastIsSent(h: Hash, s: Sys, acts: seq<Action>, r: NodeId, i: nat)
    requires Init(s) && IsRun(h, s, acts) && r in Run(h, s, acts).nodes && i < |Run(h, s, acts).nodes[r].emitted|
    ensures var e := Run(h, s, acts).nodes[r].emitted[i]; Sent(acts, e.key.sender, r, e.channel, e.payload, e.ts)
  {
    EmissionIntegrity(h, s, acts, r, i);
    OutboxIsSent(h, s, acts, Run(h, s, acts).nodes[r].emitted[i].key.sender, Run(h, s, acts).nodes[r].emitted[i].key);
  }

  /** Whatever an install is told to send is in its outbox for good, under a key that was free. */
  lemma SentIsKept(h: Hash, s: Sys, n: NodeId, peer: NodeId, channel: string, payload: Bytes, now: nat, more: seq<Action>) returns (k: Key)
    requires Can(s, Send(n, peer, channel, payload, now)) && IsRun(h, Do(h, s, Send(n, peer, channel, payload, now)), more)
    ensures k !in s.nodes[n].table && k.sender == n && k.cid == h(channel)
    ensures var e := Run(h, Do(h, s, Send(n, peer, channel, payload, now)), more);
            n in e.nodes && k in e.nodes[n].table && SameMessage(e.nodes[n].table[k], Row(Out, channel, peer, payload, now, None))
  {
    k := NextKey(h, s.nodes[n].table, n, channel);
    NextKeyIsNew(h, s.nodes[n].table, n, channel);
    RunEvolves(h, Do(h, s, Send(n, peer, channel, payload, now)), more);
  }
}
