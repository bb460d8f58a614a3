/**
 The durable message table of one install: outbox and inbox rows under one primary key
 (`messages`, crates/wt-core/src/store.rs). Each SQL statement is one atomic step on a map.
 The blake3 hash behind `channel_id` is any function, possibly with collisions.
 */
module Messages {
  import opened Basics

  datatype Direction = Out | In

  /** Primary key (id_sender, id_channel, id_seq). */
  datatype Key = Key(sender: NodeId, cid: Bytes, num: nat)

  datatype Row = Row(
    direction: Direction, channel: string, peer: NodeId, payload: Bytes, ts: nat, delivered: Option<nat>)

  type Table = map<Key, Row>
  type Hash = string -> Bytes

  /** A row as a query hands it out. */
  datatype Item = Item(key: Key, row: Row)

  // ----- Enqueue -----

  ghost predicate IsTopAmong(keys: set<Key>, sender: NodeId, cid: Bytes, m: nat) {
    && (forall k :: k in keys && k.sender == sender && k.cid == cid ==> k.num <= m)
    && (m == 0 || Key(sender, cid, m) in keys)
  }

  lemma {:induction false} TopExists(keys: set<Key>, sender: NodeId, cid: Bytes)
    ensures exists m :: IsTopAmong(keys, sender, cid, m)
    decreases |keys|
  {
    if keys == {} {
      assert IsTopAmong(keys, sender, cid, 0);
    } else {
      var k :| k in keys;
      TopExists(keys - {k}, sender, cid);
      var m :| IsTopAmong(keys - {k}, sender, cid, m);
      assert IsTopAmong(keys, sender, cid, if k.sender == sender && k.cid == cid && k.num > m then k.num else m);
    }
  }

  /** COALESCE(MAX(id_seq), 0) over one sender and channel id. */
  ghost function TopSeq(t: Table, sender: NodeId, cid: Bytes): (m: nat)
    ensures IsTopAmong(t.Keys, sender, cid, m)
  {
    TopExists(t.Keys, sender, cid);
    var m :| IsTopAmong(t.Keys, sender, cid, m);
    m
  }

  /** The key the next message of `sender` on `channel` gets. */
  ghost function NextKey(h: Hash, t: Table, sender: NodeId, channel: string): Key {
    Key(sender, h(channel), TopSeq(t, sender, h(channel)) + 1)
  }

  ghost function Enqueue(h: Hash, t: Table, sender: NodeId, peer: NodeId, channel: string, payload: Bytes, now: nat): Table {
    t[NextKey(h, t, sender, channel) := Row(Out, channel, peer, payload, now, None)]
  }

  lemma NextKeyIsNew(h: Hash, t: Table, sender: NodeId, channel: string)
    ensures NextKey(h, t, sender, channel) !in t
    ensures forall k :: k in t && k.sender == sender && k.cid == h(channel) ==> k.num < NextKey(h, t, sender, channel).num
    ensures var k := NextKey(h, t, sender, channel);
            k.sender == sender && k.cid == h(channel) && (k.num == 1 || Key(sender, h(channel), k.num - 1) in t)
  {
  }

  // ----- Pending rows -----

  predicate Pending(t: Table, peer: NodeId, k: Key) {
    k in t && t[k].direction == Out && t[k].delivered.None? && t[k].peer == peer
  }

  function PendingPeers(t: Table): set<NodeId> {
    set k | k in t && Pending(t, t[k].peer, k) :: t[k].peer
  }

  predicate Holds(items: seq<Item>, k: Key) {
    exists i :: 0 <= i < |items| && items[i].key == k
  }

  /** `items` are pending rows of `peer`, none twice, each as it stands in the table. */
  ghost predicate ArePending(t: Table, peer: NodeId, items: seq<Item>) {
    && (forall i :: 0 <= i < |items| ==> Pending(t, peer, items[i].key) && items[i].row == t[items[i].key])
    && (forall i, j :: 0 <= i < j < |items| ==> items[i].key != items[j].key)
  }

  ghost predicate OldestFirst(items: seq<Item>) {
    forall i, j :: 0 <= i < j < |items| ==> items[i].row.ts <= items[j].row.ts
  }

  /** No pending row outside `items` is older than one inside. */
  ghost predicate RestNotOlder(t: Table, peer: NodeId, items: seq<Item>) {
    forall i, k :: 0 <= i < |items| && Pending(t, peer, k) && !Holds(items, k) ==> items[i].row.ts <= t[k].ts
  }

  /** The start of the pending rows of `peer` in the order of ORDER BY enqueued_at_ms, ties in any order. */
  ghost predicate OldestPending(t: Table, peer: NodeId, items: seq<Item>) {
    ArePending(t, peer, items) && OldestFirst(items) && RestNotOlder(t, peer, items)
  }

  /** The result of `outbox_pending_for_peer` with LIMIT `limit`. */
  ghost predicate IsQuery(t: Table, peer: NodeId, limit: nat, items: seq<Item>) {
    && OldestPending(t, peer, items) && |items| <= limit
    && (|items| < limit ==> forall k :: Pending(t, peer, k) ==> Holds(items, k))
  }

  /** UPDATE ... SET delivered_at_ms WHERE key AND direction = 0. */
  function MarkDelivered(t: Table, k: Key, now: nat): Table {
    if k in t && t[k].direction == Out then t[k := t[k].(delivered := Some(now))] else t
  }

  // ----- Inbox -----

  function InboxKey(h: Hash, sender: NodeId, channel: string, num: nat): Key {
    Key(sender, h(channel), num)
  }

  /** INSERT OR IGNORE of one inbound row; it is new iff the key was free. */
  function InboxRecord(h: Hash, t: Table, sender: NodeId, channel: string, num: nat, payload: Bytes, ts: nat, now: nat): Table {
    var k := InboxKey(h, sender, channel, num);
    if k in t then t else t[k := Row(In, channel, sender, payload, ts, Some(now))]
  }

  // ----- What no statement ever does -----

  /** The message of a row, which is everything but its delivery mark. */
  predicate SameMessage(a: Row, b: Row) {
    a == b.(delivered := a.delivered)
  }

  /** No row is lost or rewritten, and a delivery mark is never taken back. */
  ghost predicate Grows(t: Table, t': Table) {
    forall k :: k in t ==> k in t' && SameMessage(t[k], t'[k]) && (t[k].delivered.Some? ==> t'[k].delivered.Some?)
  }

  lemma StatementsGrow(h: Hash, t: Table, sender: NodeId, peer: NodeId, channel: string, payload: Bytes, num: nat, ts: nat, k: Key, now: nat)
    ensures Grows(t, Enqueue(h, t, sender, peer, channel, payload, now))
    ensures Grows(t, MarkDelivered(t, k, now))
    ensures Grows(t, InboxRecord(h, t, sender, channel, num, payload, ts, now))
  {
    NextKeyIsNew(h, t, sender, channel);
  }

  /**
   A message an install addresses to itself keeps the key its own inbox would need, so the
   receiving side takes it for a duplicate. All delivery results below assume sender and
   receiver differ; this is why they must.
   */
  lemma SelfSendIsSwallowed(h: Hash, t: Table, me: NodeId, channel: string, payload: Bytes, now: nat)
    ensures var k := NextKey(h, t, me, channel);
            var t' := Enqueue(h, t, me, me, channel, payload, now);
            InboxRecord(h, t', me, channel, k.num, payload, now, now) == t'
  {
  }
}
