/**
 What a supervisor tells the prime, and where it ends up on the bus: as rows from the child to its
 prime, in the child's session, in the order they were said, and nothing else
 (crates/wt-daemon/src/supervisor.rs).
 */
module Utterances {
  import opened Basics
  import opened BusTable
  import opened BusMachine
  import opened BusFacts
  import BusTurns
  import opened BusIndependence
  import Child = HarnessProcess

  // ----- What a supervisor says -----

  datatype Say =
    | SaidTrace(text: string)
    | SaidOutput(text: string)
    | SaidIdle(secs: nat)
    | SaidEnd(ending: Ending)

  /** How supervision ends. */
  datatype Ending = ChildExited(code: Option<int>) | ReadError | WriteError

  /**
   Who speaks to whom, how texts become payloads, and how an idle time and an exit are put into words.
   */
  datatype Voice = Voice(me: AgentId, prime: string, utf8: string -> Bytes, idleText: nat -> string, exitText: Option<int> -> string)

  function LastWord(v: Voice, e: Ending): string {
    match e
    case ChildExited(code) => v.exitText(code)
    case ReadError => "harness read error"
    case WriteError => "harness write failed"
  }

  function TextOf(v: Voice, s: Say): string {
    match s
    case SaidTrace(text) => text
    case SaidOutput(text) => text
    case SaidIdle(idle) => v.idleText(idle)
    case SaidEnd(ending) => LastWord(v, ending)
  }

  function KindOf(s: Say): Kind {
    match s
    case SaidTrace(_) => Trace
    case SaidOutput(_) => TurnOutput
    case SaidIdle(_) => Control
    case SaidEnd(_) => Control
  }

  /** The row for an utterance: from the child to the prime, a result as `TurnOutput`, a text as `Trace`, anything else as `Control`. */
  function Spoken(v: Voice, s: Say, now: nat): (m: Msg)
    ensures m.from == v.me.name && m.to == v.prime && m.ts == now
    ensures s.SaidOutput? ==> m.kind == TurnOutput && m.payload == v.utf8(s.text)
    ensures s.SaidTrace? ==> m.kind == Trace && m.payload == v.utf8(s.text)
    ensures s.SaidIdle? ==> m.kind == Control && m.payload == v.utf8(v.idleText(s.secs))
    ensures s.SaidEnd? ==> m.kind == Control
    ensures s == SaidEnd(ReadError) ==> m.payload == v.utf8("harness read error")
    ensures s == SaidEnd(WriteError) ==> m.payload == v.utf8("harness write failed")
    ensures s.SaidEnd? && s.ending.ChildExited? ==> m.payload == v.utf8(v.exitText(s.ending.code))
  {
    Msg(v.me.name, v.prime, KindOf(s), v.utf8(TextOf(v, s)), now)
  }

  /** What one event of the child makes the supervisor say. */
  function Report(e: Child.Event, trace: bool): seq<Say> {
    match e
    case AssistantText(text) => if trace then [SaidTrace(text)] else []
    case TurnComplete(result, isError) => [SaidOutput(result)]
  }

  function Reports(events: seq<Child.Event>, trace: bool): seq<Say> {
    if events == [] then [] else Reports(events[..|events| - 1], trace) + Report(events[|events| - 1], trace)
  }

  function NotIdle(said: seq<Say>): seq<Say> {
    if said == [] then [] else
      var m := |said| - 1;
      NotIdle(said[..m]) + (if said[m].SaidIdle? then [] else [said[m]])
  }

  /** Idle notices given. */
  function Notices(said: seq<Say>): nat {
    if said == [] then 0 else Notices(said[..|said| - 1]) + (if said[|said| - 1].SaidIdle? then 1 else 0)
  }

  lemma SayOneMore(said: seq<Say>, s: Say)
    ensures NotIdle(said + [s]) == NotIdle(said) + (if s.SaidIdle? then [] else [s])
    ensures Notices(said + [s]) == Notices(said) + (if s.SaidIdle? then 1 else 0)
  {
    assert (said + [s])[..|said|] == said;
  }

  /** Everything the child was seen to print is reported, in order, and nothing else but idle notices was said. */
  ghost predicate Reported(said: seq<Say>, told: seq<Child.Event>, trace: bool) {
    NotIdle(said) == Reports(told, trace)
  }

  lemma ReportOne(said: seq<Say>, said': seq<Say>, told: seq<Child.Event>, e: Child.Event, trace: bool)
    requires Reported(said, told, trace) && said' == said + Report(e, trace)
    ensures Reported(said', told + [e], trace) && Notices(said') == Notices(said)
  {
    assert (told + [e])[..|told|] == told;
    assert said + [] == said && NotIdle(said) + [] == NotIdle(said);
    if Report(e, trace) != [] {
      SayOneMore(said, Report(e, trace)[0]);
      assert Report(e, trace) == [Report(e, trace)[0]];
    }
  }

  lemma NoticeOne(said: seq<Say>, told: seq<Child.Event>, secs: nat, trace: bool)
    requires Reported(said, told, trace)
    ensures Reported(said + [SaidIdle(secs)], told, trace)
    ensures Notices(said + [SaidIdle(secs)]) == Notices(said) + 1
  {
    SayOneMore(said, SaidIdle(secs));
    assert NotIdle(said) + [] == NotIdle(said);
  }

  /**
   Where on the bus each utterance ended up, if its commit succeeded: committed and broadcast, in
   the child's own session, in the order it was said.
   */
  ghost predicate OnBus(log: Log, bcast: seq<Item>, v: Voice, said: seq<Say>, keys: seq<Option<Key>>) {
    && |keys| == |said| && Rising(keys)
    && (forall i :: 0 <= i < |keys| && keys[i].Some? ==> Posted(log, bcast, v, said[i], keys[i].value))
  }

  ghost predicate Rising(keys: seq<Option<Key>>) {
    forall i, j :: 0 <= i < j < |keys| && keys[i].Some? && keys[j].Some? ==> keys[i].value.num < keys[j].value.num
  }

  /** Nothing said got lost. */
  predicate AllPosted(keys: seq<Option<Key>>) {
    forall i :: 0 <= i < |keys| ==> keys[i].Some?
  }

  ghost predicate Posted(log: Log, bcast: seq<Item>, v: Voice, s: Say, k: Key) {
    && InLog(log, k) && k.session == OwnSession(v.me) && At(log, k) == Spoken(v, s, At(log, k).ts)
    && Item(k, At(log, k)) in bcast
  }

  lemma OnBusStays(log: Log, log': Log, bcast: seq<Item>, bcast': seq<Item>, v: Voice, said: seq<Say>, keys: seq<Option<Key>>)
    requires OnBus(log, bcast, v, said, keys) && LogGrows(log, log') && bcast <= bcast'
    ensures OnBus(log', bcast', v, said, keys)
  {
    forall i | 0 <= i < |keys| && keys[i].Some? ensures Posted(log', bcast', v, said[i], keys[i].value) {
      assert Posted(log, bcast, v, said[i], keys[i].value);
    }
  }

  /** The key the next message of the child's session gets. */
  function NextOwn(log: Log, v: Voice): Key {
    Key(OwnSession(v.me), |Of(log, OwnSession(v.me))| + 1)
  }

  lemma OnBusLost(log: Log, bcast: seq<Item>, v: Voice, said: seq<Say>, keys: seq<Option<Key>>, s: Say)
    requires OnBus(log, bcast, v, said, keys)
    ensures OnBus(log, bcast, v, said + [s], keys + [None])
  {
  }

  lemma OnBusOneMore(log: Log, bcast: seq<Item>, v: Voice, said: seq<Say>, keys: seq<Option<Key>>, s: Say, now: nat)
    requires OnBus(log, bcast, v, said, keys)
    ensures var m, k := Spoken(v, s, now), NextOwn(log, v);
            OnBus(Logged(log, OwnSession(v.me), m), bcast + [Item(k, m)], v, said + [s], keys + [Some(k)])
  {
    var m, k := Spoken(v, s, now), NextOwn(log, v);
    var log', bcast' := Logged(log, OwnSession(v.me), m), bcast + [Item(k, m)];
    assert LogGrows(log, log');
    OnBusStays(log, log', bcast, bcast', v, said, keys);
    assert Posted(log', bcast', v, s, k) by {
      assert bcast'[|bcast|] == Item(k, m);
    }
    forall i | 0 <= i < |keys| && keys[i].Some? ensures keys[i].value.num < k.num {
      assert Posted(log, bcast, v, said[i], keys[i].value);
    }
  }

  // ----- And nothing else -----

  /** Since the log was `log0`, everything added is one of `keys` or what others posted, which is `outside`. */
  ghost predicate Ledger(log0: Log, log: Log, keys: seq<Option<Key>>, outside: seq<Item>) {
    && LogGrows(log0, log) && Distinct(outside)
    && (forall k :: InLog(log, k) ==> InLog(log0, k) || Some(k) in keys || Holds(outside, k))
    && (forall i :: 0 <= i < |outside| ==> InLog(log, outside[i].key) && outside[i].msg == At(log, outside[i].key))
    && (forall k :: Holds(outside, k) ==> !InLog(log0, k) && Some(k) !in keys)
    && (forall i :: 0 <= i < |keys| && keys[i].Some? ==> !InLog(log0, keys[i].value))
  }

  lemma LedgerLost(log0: Log, log: Log, keys: seq<Option<Key>>, outside: seq<Item>)
    requires Ledger(log0, log, keys, outside)
    ensures Ledger(log0, log, keys + [None], outside)
  {
    forall k: Key ensures Some(k) in keys + [None] <==> Some(k) in keys {
    }
  }

  lemma LedgerOwn(log0: Log, log: Log, keys: seq<Option<Key>>, outside: seq<Item>, session: SessionId, msg: Msg)
    requires Ledger(log0, log, keys, outside)
    ensures Ledger(log0, Logged(log, session, msg), keys + [Some(Key(session, |Of(log, session)| + 1))], outside)
  {
    var k', log' := Key(session, |Of(log, session)| + 1), Logged(log, session, msg);
    forall k: Key ensures Some(k) in keys + [Some(k')] <==> Some(k) in keys || k == k' {
    }
    forall k | InLog(log', k) ensures InLog(log, k) || k == k' {
    }
    forall i | 0 <= i < |outside| ensures outside[i].key != k' {
      assert InLog(log, outside[i].key);
    }
  }

  lemma LedgerOther(log0: Log, log: Log, keys: seq<Option<Key>>, outside: seq<Item>, session: SessionId, msg: Msg)
    requires Ledger(log0, log, keys, outside) && forall i :: 0 <= i < |keys| && keys[i].Some? ==> InLog(log, keys[i].value)
    ensures Ledger(log0, Logged(log, session, msg), keys, outside + [Item(Key(session, |Of(log, session)| + 1), msg)])
  {
    var k', log' := Key(session, |Of(log, session)| + 1), Logged(log, session, msg);
    forall k ensures Holds(outside + [Item(k', msg)], k) <==> Holds(outside, k) || k == k' {
      BusTurns.HoldsSnoc(outside, Item(k', msg), k);
    }
    forall k | InLog(log', k) ensures InLog(log, k) || k == k' {
    }
    forall i | 0 <= i < |outside| ensures outside[i].key != k' {
      assert InLog(log, outside[i].key);
    }
  }

  /** The messages `lo + 1..|msgs|` of a session, in order, without those others posted. */
  function Added(session: SessionId, msgs: seq<Msg>, lo: nat, outside: seq<Item>): seq<Item> {
    if |msgs| <= lo then [] else
      var m := |msgs| - 1;
      Added(session, msgs[..m], lo, outside)
      + (if Holds(outside, Key(session, |msgs|)) then [] else [Item(Key(session, |msgs|), msgs[m])])
  }

  /** The utterances that got onto the bus, in the order they were said. */
  function Committed(log: Log, keys: seq<Option<Key>>): seq<Item> {
    if keys == [] then [] else
      var last := keys[|keys| - 1];
      Committed(log, keys[..|keys| - 1])
      + (if last.Some? && InLog(log, last.value) then [Item(last.value, At(log, last.value))] else [])
  }

  lemma {:induction false} AddedHas(session: SessionId, msgs: seq<Msg>, lo: nat, outside: seq<Item>, x: Item)
    ensures x in Added(session, msgs, lo, outside) <==>
              && x.key.session == session && lo < x.key.num <= |msgs| && x.msg == msgs[x.key.num - 1]
              && !Holds(outside, x.key)
    decreases |msgs|
  {
    if |msgs| > lo {
      AddedHas(session, msgs[..|msgs| - 1], lo, outside, x);
    }
  }

  lemma {:induction false} AddedByNumber(session: SessionId, msgs: seq<Msg>, lo: nat, outside: seq<Item>)
    ensures ByNumber(Added(session, msgs, lo, outside))
    decreases |msgs|
  {
    if |msgs| > lo {
      var before := Added(session, msgs[..|msgs| - 1], lo, outside);
      AddedByNumber(session, msgs[..|msgs| - 1], lo, outside);
      forall i | 0 <= i < |before| ensures before[i].key.num < |msgs| {
        AddedHas(session, msgs[..|msgs| - 1], lo, outside, before[i]);
      }
    }
  }

  lemma {:induction false} CommittedHas(log: Log, keys: seq<Option<Key>>, x: Item)
    ensures x in Committed(log, keys) <==> Some(x.key) in keys && InLog(log, x.key) && x.msg == At(log, x.key)
    decreases |keys|
  {
    if keys != [] {
      var m := |keys| - 1;
      assert keys == keys[..m] + [keys[m]];
      CommittedHas(log, keys[..m], x);
    }
  }

  lemma {:induction false} CommittedByNumber(log: Log, keys: seq<Option<Key>>)
    requires Rising(keys)
    ensures ByNumber(Committed(log, keys))
    decreases |keys|
  {
    if keys != [] {
      var m := |keys| - 1;
      var before := Committed(log, keys[..m]);
      CommittedByNumber(log, keys[..m]);
      forall i | 0 <= i < |before| && keys[m].Some? ensures before[i].key.num < keys[m].value.num {
        CommittedHas(log, keys[..m], before[i]);
        var n :| 0 <= n < m && keys[n] == Some(before[i].key);
      }
    }
  }

  /**
   What the child's session gained since the log was `log0`, apart from what others posted, is
   exactly the utterances, in the order they were said; other sessions gained only what others posted.
   */
  ghost predicate OnlySaid(log0: Log, log: Log, v: Voice, keys: seq<Option<Key>>, outside: seq<Item>) {
    var own := OwnSession(v.me);
    && Added(own, Of(log, own), |Of(log0, own)|, outside) == Committed(log, keys)
    && forall k :: InLog(log, k) && !InLog(log0, k) && k.session != own ==> Holds(outside, k)
  }

  lemma SaidInOwnSession(log: Log, bcast: seq<Item>, v: Voice, said: seq<Say>, keys: seq<Option<Key>>, k: Key)
    requires OnBus(log, bcast, v, said, keys) && Some(k) in keys
    ensures InLog(log, k) && k.session == OwnSession(v.me)
  {
    var i :| 0 <= i < |keys| && keys[i] == Some(k);
    assert Posted(log, bcast, v, said[i], keys[i].value);
  }

  /** A message is new and not from others exactly if it was said. */
  lemma NewIffSaid(log0: Log, log: Log, bcast: seq<Item>, v: Voice, said: seq<Say>, keys: seq<Option<Key>>, outside: seq<Item>, k: Key)
    requires OnBus(log, bcast, v, said, keys) && Ledger(log0, log, keys, outside)
    ensures InLog(log, k) && !InLog(log0, k) && !Holds(outside, k) <==> Some(k) in keys
    ensures Some(k) in keys ==> k.session == OwnSession(v.me)
  {
    if Some(k) in keys {
      hide Ledger;
      SaidInOwnSession(log, bcast, v, said, keys, k);
    }
    if Some(k) in keys {
      var i :| 0 <= i < |keys| && keys[i] == Some(k);
      assert !InLog(log0, keys[i].value);
    }
  }

  lemma GainedIffSaid(log0: Log, log: Log, bcast: seq<Item>, v: Voice, said: seq<Say>, keys: seq<Option<Key>>, outside: seq<Item>, x: Item)
    requires OnBus(log, bcast, v, said, keys) && Ledger(log0, log, keys, outside)
    ensures x in Added(OwnSession(v.me), Of(log, OwnSession(v.me)), |Of(log0, OwnSession(v.me))|, outside) <==> x in Committed(log, keys)
  {
    hide OnBus, Ledger;
    AddedHas(OwnSession(v.me), Of(log, OwnSession(v.me)), |Of(log0, OwnSession(v.me))|, outside, x);
    CommittedHas(log, keys, x);
    NewIffSaid(log0, log, bcast, v, said, keys, outside, x.key);
  }

  lemma NothingElseSaid(log0: Log, log: Log, bcast: seq<Item>, v: Voice, said: seq<Say>, keys: seq<Option<Key>>, outside: seq<Item>)
    requires OnBus(log, bcast, v, said, keys) && Ledger(log0, log, keys, outside)
    ensures OnlySaid(log0, log, v, keys, outside)
  {
    var own := OwnSession(v.me);
    var gained, spoken := Added(own, Of(log, own), |Of(log0, own)|, outside), Committed(log, keys);
    AddedByNumber(own, Of(log, own), |Of(log0, own)|, outside);
    CommittedByNumber(log, keys);
    forall x ensures x in gained <==> x in spoken {
      GainedIffSaid(log0, log, bcast, v, said, keys, outside, x);
    }
    SameItemsSameOrder(gained, spoken);
    forall k | InLog(log, k) && !InLog(log0, k) ensures k.session == own || Holds(outside, k) {
      NewIffSaid(log0, log, bcast, v, said, keys, outside, k);
    }
  }

  lemma OwnAreLogged(log: Log, bcast: seq<Item>, v: Voice, said: seq<Say>, keys: seq<Option<Key>>)
    requires OnBus(log, bcast, v, said, keys)
    ensures forall i :: 0 <= i < |keys| && keys[i].Some? ==> InLog(log, keys[i].value)
  {
    forall i | 0 <= i < |keys| && keys[i].Some? ensures InLog(log, keys[i].value) {
      assert Posted(log, bcast, v, said[i], keys[i].value);
    }
  }

  // ----- What the prime gets -----

  /** The kinds and payloads of messages, without those of kind `Control`. */
  function Contents(items: seq<Item>): seq<(Kind, Bytes)> {
    if items == [] then [] else
      var x := items[|items| - 1].msg;
      Contents(items[..|items| - 1]) + (if x.kind == Control then [] else [(x.kind, x.payload)])
  }

  /** One `TurnOutput` with its result per completed turn and, if tracing, one `Trace` with its text per assistant text. */
  function Expected(utf8: string -> Bytes, told: seq<Child.Event>, trace: bool): seq<(Kind, Bytes)> {
    if told == [] then [] else
      Expected(utf8, told[..|told| - 1], trace)
      + match told[|told| - 1]
        case TurnComplete(result, isError) => [(TurnOutput, utf8(result))]
        case AssistantText(text) => if trace then [(Trace, utf8(text))] else []
  }

  /** The messages `items` are what the prime is to get of the events `told`: from the child, to the prime, and nothing else but `Control`. */
  ghost predicate PrimeGets(v: Voice, items: seq<Item>, told: seq<Child.Event>, trace: bool) {
    && Contents(items) == Expected(v.utf8, told, trace)
    && forall i :: 0 <= i < |items| ==> items[i].key.session == OwnSession(v.me) && items[i].msg.from == v.me.name && items[i].msg.to == v.prime
  }

  /** The contents of utterances. */
  function Said(v: Voice, said: seq<Say>): seq<(Kind, Bytes)> {
    if said == [] then [] else
      Said(v, said[..|said| - 1])
      + match said[|said| - 1]
        case SaidOutput(text) => [(TurnOutput, v.utf8(text))]
        case SaidTrace(text) => [(Trace, v.utf8(text))]
        case _ => []
  }

  lemma {:induction false} SaidConcat(v: Voice, a: seq<Say>, b: seq<Say>)
    ensures Said(v, a + b) == Said(v, a) + Said(v, b)
    decreases |b|
  {
    if b == [] {
      assert a + b == a && Said(v, a) + [] == Said(v, a);
    } else {
      var m := |b| - 1;
      assert (a + b)[..|a + b| - 1] == a + b[..m];
      SaidConcat(v, a, b[..m]);
    }
  }

  lemma {:induction false} SaidNotIdle(v: Voice, said: seq<Say>)
    ensures Said(v, NotIdle(said)) == Said(v, said)
    decreases |said|
  {
    if said != [] {
      var m := |said| - 1;
      SaidNotIdle(v, said[..m]);
      SaidConcat(v, NotIdle(said[..m]), if said[m].SaidIdle? then [] else [said[m]]);
      assert [said[m]][..0] == [];
    }
  }

  lemma {:induction false} SaidReports(v: Voice, told: seq<Child.Event>, trace: bool)
    ensures Said(v, Reports(told, trace)) == Expected(v.utf8, told, trace)
    decreases |told|
  {
    if told != [] {
      var m := |told| - 1;
      SaidReports(v, told[..m], trace);
      SaidConcat(v, Reports(told[..m], trace), Report(told[m], trace));
      assert Report(told[m], trace) != [] ==> Report(told[m], trace)[..0] == [];
    }
  }

  /** Of the utterances that apart from notices are the reports of `told` and a last word, the contents are those expected. */
  lemma SaidAsExpected(v: Voice, said: seq<Say>, told: seq<Child.Event>, trace: bool, extra: seq<Say>)
    requires NotIdle(said) == Reports(told, trace) + extra && (extra == [] || (|extra| == 1 && extra[0].SaidEnd?))
    ensures Said(v, said) == Expected(v.utf8, told, trace)
  {
    SaidNotIdle(v, said);
    SaidConcat(v, Reports(told, trace), extra);
    SaidReports(v, told, trace);
    assert extra != [] ==> extra[..0] == [];
    assert Said(v, extra) == [];
  }

  lemma {:induction false} CommittedContents(log: Log, bcast: seq<Item>, v: Voice, said: seq<Say>, keys: seq<Option<Key>>)
    requires OnBus(log, bcast, v, said, keys) && AllPosted(keys)
    ensures Contents(Committed(log, keys)) == Said(v, said)
    ensures forall i :: 0 <= i < |Committed(log, keys)| ==>
      var x := Committed(log, keys)[i]; x.key.session == OwnSession(v.me) && x.msg.from == v.me.name && x.msg.to == v.prime
    decreases |keys|
  {
    if keys != [] {
      var m := |keys| - 1;
      OnBusPrefix(log, bcast, v, said, keys);
      CommittedContents(log, bcast, v, said[..m], keys[..m]);
      assert Posted(log, bcast, v, said[m], keys[m].value);
      var before := Committed(log, keys[..m]);
      assert Committed(log, keys)[..|before|] == before;
    }
  }

  lemma OnBusPrefix(log: Log, bcast: seq<Item>, v: Voice, said: seq<Say>, keys: seq<Option<Key>>)
    requires OnBus(log, bcast, v, said, keys) && AllPosted(keys) && keys != []
    ensures var m := |keys| - 1; OnBus(log, bcast, v, said[..m], keys[..m]) && AllPosted(keys[..m])
  {
  }

  /**
   What the prime gets. If no commit failed, then of all that the child's session gained since the log
   was `log0`, without what others posted, the rows other than `Control` are exactly those expected of
   the events told, in order.
   */
  lemma PrimeHears(log0: Log, log: Log, bcast: seq<Item>, v: Voice, said: seq<Say>, keys: seq<Option<Key>>, outside: seq<Item>,
                   told: seq<Child.Event>, trace: bool, extra: seq<Say>)
    requires OnBus(log, bcast, v, said, keys) && Ledger(log0, log, keys, outside) && AllPosted(keys)
    requires NotIdle(said) == Reports(told, trace) + extra && (extra == [] || (|extra| == 1 && extra[0].SaidEnd?))
    ensures PrimeGets(v, Added(OwnSession(v.me), Of(log, OwnSession(v.me)), |Of(log0, OwnSession(v.me))|, outside), told, trace)
  {
    NothingElseSaid(log0, log, bcast, v, said, keys, outside);
    CommittedContents(log, bcast, v, said, keys);
    SaidAsExpected(v, said, told, trace, extra);
  }
}
