/**
 The local bus table of one daemon: a sequenced, retention-trimmed log per session with
 consume-on-read (`agent_messages`, crates/wt-core/src/store.rs). Each SQL statement or
 transaction is one atomic step on a map.
 */
module BusTable {
  import opened Basics

  /** Rows kept per session. */
  const MAX_MSGS_PER_SESSION: nat := 5000

  datatype Kind = TurnOutput | TurnInput | User | Control | Trace

  datatype SessionId = SessionId(group: string, name: string)
  datatype AgentId = AgentId(group: string, name: string)

  /** Primary key (group_name, session_name, seq). */
  datatype Key = Key(session: SessionId, num: nat)

  datatype Msg = Msg(from: string, to: string, kind: Kind, payload: Bytes, ts: nat)
  datatype Row = Row(msg: Msg, consumed: Option<nat>)

  type Table = map<Key, Row>

  /** A row as a query or a broadcast hands it out. */
  datatype Item = Item(key: Key, msg: Msg)

  // ----- Enqueue -----

  ghost predicate IsTopAmong(keys: set<Key>, s: SessionId, m: nat) {
    && (forall k :: k in keys && k.session == s ==> k.num <= m)
    && (m == 0 || Key(s, m) in keys)
  }

  lemma {:induction false} TopExists(keys: set<Key>, s: SessionId)
    ensures exists m :: IsTopAmong(keys, s, m)
    decreases |keys|
  {
    if keys == {} {
      assert IsTopAmong(keys, s, 0);
    } else {
      var k :| k in keys;
      TopExists(keys - {k}, s);
      var m :| IsTopAmong(keys - {k}, s, m);
      assert IsTopAmong(keys, s, if k.session == s && k.num > m then k.num else m);
    }
  }

  /** COALESCE(MAX(seq), 0) over one session. */
  ghost function Top(t: Table, s: SessionId): (m: nat)
    ensures IsTopAmong(t.Keys, s, m)
  {
    TopExists(t.Keys, s);
    var m :| IsTopAmong(t.Keys, s, m);
    m
  }

  ghost function NextKey(t: Table, s: SessionId): Key {
    Key(s, Top(t, s) + 1)
  }

  /** DELETE ... WHERE seq <= next - MAX_MSGS_PER_SESSION. */
  function Trim(t: Table, s: SessionId, next: nat): Table {
    map k | k in t && !(k.session == s && k.num + MAX_MSGS_PER_SESSION <= next) :: t[k]
  }

  ghost function Enqueue(t: Table, s: SessionId, msg: Msg): Table {
    var k := NextKey(t, s);
    Trim(t[k := Row(msg, None)], s, k.num)
  }

  function MarkConsumed(t: Table, k: Key, now: nat): Table {
    if k in t then t[k := t[k].(consumed := Some(now))] else t
  }

  // ----- Queries -----

  predicate Holds(items: seq<Item>, k: Key) {
    exists i :: 0 <= i < |items| && items[i].key == k
  }

  /** ORDER BY enqueued_at_ms, seq or ORDER BY seq; rows of different sessions may tie. */
  predicate Before(byTime: bool, a: Item, b: Item) {
    if byTime then a.msg.ts < b.msg.ts || (a.msg.ts == b.msg.ts && a.key.num <= b.key.num)
    else a.key.num <= b.key.num
  }

  ghost predicate Distinct(items: seq<Item>) {
    forall i, j :: 0 <= i < j < |items| ==> items[i].key != items[j].key
  }

  ghost predicate Ordered(byTime: bool, items: seq<Item>) {
    forall i, j :: 0 <= i < j < |items| ==> Before(byTime, items[i], items[j])
  }

  /** The rows at `keys` in order, cut off at `limit`. */
  ghost predicate IsSelection(t: Table, keys: set<Key>, byTime: bool, limit: Option<nat>, items: seq<Item>)
    requires keys <= t.Keys
  {
    && (forall i :: 0 <= i < |items| ==> items[i].key in keys && items[i].msg == t[items[i].key].msg)
    && Distinct(items) && Ordered(byTime, items)
    && (limit.Some? ==> |items| <= limit.value)
    && (forall k :: k in keys && !Holds(items, k) ==>
          && limit == Some(|items|)
          && forall i :: 0 <= i < |items| ==> Before(byTime, items[i], Item(k, t[k].msg)))
  }

  predicate PendingFor(t: Table, a: AgentId, kind: Kind, k: Key) {
    && k in t && k.session.group == a.group && t[k].msg.to == a.name && t[k].msg.kind == kind
    && t[k].consumed.None?
  }

  function PendingKeys(t: Table, a: AgentId, kind: Kind): (keys: set<Key>)
    ensures keys <= t.Keys
  {
    set k | k in t && PendingFor(t, a, kind, k)
  }

  /** A message for agent `a`, in one session if given. */
  predicate Matches(a: AgentId, session: Option<string>, k: Key, msg: Msg) {
    && k.session.group == a.group && msg.to == a.name
    && (session.None? || k.session.name == session.value)
  }

  predicate InBacklog(t: Table, a: AgentId, session: Option<string>, after: nat, unconsumedOnly: bool, k: Key) {
    && k in t && Matches(a, session, k, t[k].msg) && t[k].msg.ts > after
    && (unconsumedOnly ==> t[k].consumed.None?)
  }

  function BacklogKeys(t: Table, a: AgentId, session: Option<string>, after: nat, unconsumedOnly: bool): (keys: set<Key>)
    ensures keys <= t.Keys
  {
    set k | k in t && InBacklog(t, a, session, after, unconsumedOnly, k)
  }

  // ----- The window -----

  /** Every message ever enqueued, per session in order: the i-th got the number i + 1. */
  type Log = map<SessionId, seq<Msg>>

  function Of(log: Log, s: SessionId): seq<Msg> {
    if s in log then log[s] else []
  }

  function Logged(log: Log, s: SessionId, msg: Msg): Log {
    log[s := Of(log, s) + [msg]]
  }

  predicate InLog(log: Log, k: Key) {
    1 <= k.num <= |Of(log, k.session)|
  }

  function At(log: Log, k: Key): Msg
    requires InLog(log, k)
  {
    Of(log, k.session)[k.num - 1]
  }

  /** The first number still kept after `n` enqueues. */
  function Low(n: nat): nat {
    if n > MAX_MSGS_PER_SESSION then n - MAX_MSGS_PER_SESSION + 1 else 1
  }

  predicate Kept(log: Log, k: Key) {
    Low(|Of(log, k.session)|) <= k.num <= |Of(log, k.session)|
  }

  /** The table holds exactly the last messages of every session, unaltered. */
  ghost predicate Window(t: Table, log: Log) {
    && (forall k :: k in t <==> Kept(log, k))
    && (forall k :: k in t ==> t[k].msg == At(log, k))
  }

  lemma TopIsCount(t: Table, log: Log, s: SessionId)
    requires Window(t, log)
    ensures Top(t, s) == |Of(log, s)|
  {
    var n := |Of(log, s)|;
    if n > 0 {
      assert Kept(log, Key(s, n));
    }
    if Top(t, s) > 0 {
      assert Kept(log, Key(s, Top(t, s)));
    }
  }

  lemma EnqueueKeepsWindow(t: Table, log: Log, s: SessionId, msg: Msg)
    requires Window(t, log)
    ensures NextKey(t, s) == Key(s, |Of(log, s)| + 1)
    ensures Window(Enqueue(t, s, msg), Logged(log, s, msg))
    ensures forall k: Key :: k.session != s ==> (k in t <==> k in Enqueue(t, s, msg)) && (k in t ==> Enqueue(t, s, msg)[k] == t[k])
  {
    TopIsCount(t, log, s);
    var t', log' := Enqueue(t, s, msg), Logged(log, s, msg);
    forall k ensures k in t' <==> Kept(log', k) {
      assert k in t <==> Kept(log, k);
    }
  }

  lemma MarkKeepsWindow(t: Table, log: Log, k: Key, now: nat)
    requires Window(t, log)
    ensures Window(MarkConsumed(t, k, now), log)
  {
  }

  // ----- Runs of the table alone -----

  datatype Op = Post(session: SessionId, msg: Msg) | Consume(key: Key, now: nat)

  ghost function TableAfter(ops: seq<Op>): Table {
    if ops == [] then map[] else
      var t := TableAfter(ops[..|ops| - 1]);
      match ops[|ops| - 1]
      case Post(s, msg) => Enqueue(t, s, msg)
      case Consume(k, now) => MarkConsumed(t, k, now)
  }

  /** What was posted to one session, in order. */
  function Posts(ops: seq<Op>, s: SessionId): seq<Msg> {
    if ops == [] then [] else
      var o := ops[|ops| - 1];
      Posts(ops[..|ops| - 1], s) + (if o.Post? && o.session == s then [o.msg] else [])
  }

  /** Some `Consume` of `k` came after the message got its number. */
  predicate Consumed(ops: seq<Op>, k: Key) {
    if ops == [] then false else
      var m := |ops| - 1;
      Consumed(ops[..m], k) || (ops[m].Consume? && ops[m].key == k && k.num <= |Posts(ops[..m], k.session)|)
  }

  ghost predicate Explained(ops: seq<Op>, log: Log) {
    && (forall s :: Of(log, s) == Posts(ops, s))
    && Window(TableAfter(ops), log)
    && (forall k :: k in TableAfter(ops) ==> (TableAfter(ops)[k].consumed.Some? <==> Consumed(ops, k)))
  }

  lemma NotYetConsumed(ops: seq<Op>, k: Key)
    requires k.num > |Posts(ops, k.session)|
    ensures !Consumed(ops, k)
  {
    if ops != [] {
      NotYetConsumed(ops[..|ops| - 1], k);
    }
  }

  /** One more post, seen from what the last operations made of the table. */
  lemma OneMorePost(ops: seq<Op>, s: SessionId, msg: Msg, k: Key)
    ensures TableAfter(ops + [Post(s, msg)]) == Enqueue(TableAfter(ops), s, msg)
    ensures Posts(ops + [Post(s, msg)], k.session) == Posts(ops, k.session) + (if k.session == s then [msg] else [])
    ensures Consumed(ops + [Post(s, msg)], k) == Consumed(ops, k)
  {
    hide Enqueue;
    assert (ops + [Post(s, msg)])[..|ops|] == ops;
  }

  lemma OneMoreConsume(ops: seq<Op>, c: Key, now: nat, k: Key)
    ensures TableAfter(ops + [Consume(c, now)]) == MarkConsumed(TableAfter(ops), c, now)
    ensures Posts(ops + [Consume(c, now)], k.session) == Posts(ops, k.session)
    ensures Consumed(ops + [Consume(c, now)], k) <==> Consumed(ops, k) || (k == c && k.num <= |Posts(ops, k.session)|)
  {
    assert (ops + [Consume(c, now)])[..|ops|] == ops;
  }

  lemma EnqueuedRow(t: Table, s: SessionId, msg: Msg, k: Key)
    requires k in Enqueue(t, s, msg)
    ensures if k == NextKey(t, s) then Enqueue(t, s, msg)[k] == Row(msg, None) else k in t && Enqueue(t, s, msg)[k] == t[k]
  {
  }

  lemma ExplainPost(ops: seq<Op>, log: Log, s: SessionId, msg: Msg)
    requires Explained(ops, log)
    ensures Explained(ops + [Post(s, msg)], Logged(log, s, msg))
  {
    hide TableAfter, Posts, Consumed, Enqueue, Window;
    var ops', log' := ops + [Post(s, msg)], Logged(log, s, msg);
    OneMorePost(ops, s, msg, Key(s, 0));
    EnqueueKeepsWindow(TableAfter(ops), log, s, msg);
    NotYetConsumed(ops, NextKey(TableAfter(ops), s));
    forall s' ensures Of(log', s') == Posts(ops', s') {
      OneMorePost(ops, s, msg, Key(s', 0));
    }
    forall k | k in TableAfter(ops') ensures TableAfter(ops')[k].consumed.Some? <==> Consumed(ops', k) {
      OneMorePost(ops, s, msg, k);
      EnqueuedRow(TableAfter(ops), s, msg, k);
    }
  }

  lemma ExplainConsume(ops: seq<Op>, log: Log, c: Key, now: nat)
    requires Explained(ops, log)
    ensures Explained(ops + [Consume(c, now)], log)
  {
    InTableIsPosted(TableAfter(ops), log, c);
    MarkKeepsWindow(TableAfter(ops), log, c, now);
    hide TableAfter, Posts, Consumed, Window;
    var ops' := ops + [Consume(c, now)];
    OneMoreConsume(ops, c, now, c);
    forall s' ensures Of(log, s') == Posts(ops', s') {
      OneMoreConsume(ops, c, now, Key(s', 0));
    }
    forall k | k in TableAfter(ops') ensures TableAfter(ops')[k].consumed.Some? <==> Consumed(ops', k) {
      OneMoreConsume(ops, c, now, k);
    }
  }

  lemma InTableIsPosted(t: Table, log: Log, k: Key)
    requires Window(t, log)
    ensures k in t ==> k.num <= |Of(log, k.session)|
  {
  }

  lemma {:induction false} Explain(ops: seq<Op>) returns (log: Log)
    ensures Explained(ops, log)
  {
    if ops == [] {
      log := map[];
    } else {
      var m := |ops| - 1;
      log := Explain(ops[..m]);
      assert ops[..m] + [ops[m]] == ops;
      match ops[m]
      case Post(s, msg) =>
        ExplainPost(ops[..m], log, s, msg);
        log := Logged(log, s, msg);
      case Consume(k, now) => ExplainConsume(ops[..m], log, k, now);
    }
  }

  /**
   After any run over many sessions, each session holds exactly the numbers `Low(n)..n`, `n`
   counting every message ever posted to it, each row is the message posted under that number,
   and it is consumed iff some consume of it came after the post.
   */
  lemma BusWindow(ops: seq<Op>, k: Key)
    ensures var n := |Posts(ops, k.session)|;
            && (k in TableAfter(ops) <==> Low(n) <= k.num <= n)
            && (k in TableAfter(ops) ==>
                  && TableAfter(ops)[k].msg == Posts(ops, k.session)[k.num - 1]
                  && (TableAfter(ops)[k].consumed.Some? <==> Consumed(ops, k)))
  {
    var log := Explain(ops);
    assert k in TableAfter(ops) <==> Kept(log, k);
  }

  /** The number a post gets is one more than the posts before it: trimming never makes a number come back. */
  lemma {:induction false} NumbersCountPosts(ops: seq<Op>, s: SessionId)
    ensures NextKey(TableAfter(ops), s) == Key(s, |Posts(ops, s)| + 1)
  {
    var log := Explain(ops);
    TopIsCount(TableAfter(ops), log, s);
  }

  lemma {:induction false} PostsGrow(ops: seq<Op>, i: nat, j: nat, s: SessionId)
    requires i <= j <= |ops|
    ensures |Posts(ops[..i], s)| <= |Posts(ops[..j], s)|
    decreases j
  {
    if i < j {
      assert ops[..j][..j - 1] == ops[..j - 1];
      PostsGrow(ops, i, j - 1, s);
    }
  }

  /** Two posts to a session never get the same number, and the later one gets the larger. */
  lemma NeverReissued(ops: seq<Op>, i: nat, j: nat)
    requires i < j < |ops| && ops[i].Post? && ops[j].Post? && ops[i].session == ops[j].session
    ensures NextKey(TableAfter(ops[..i]), ops[i].session).num < NextKey(TableAfter(ops[..j]), ops[j].session).num
  {
    var s := ops[i].session;
    NumbersCountPosts(ops[..i], s);
    NumbersCountPosts(ops[..j], s);
    assert ops[..i + 1][..i] == ops[..i];
    PostsGrow(ops, i + 1, j, s);
  }
}
