/** What every step of the bus keeps: the window, the identity of messages, and who can have consumed what. */
module BusFacts {
  import opened Basics
  import opened BusTable
  import opened BusMachine

  // ----- Growth -----

  ghost predicate LogGrows(a: Log, b: Log) {
    forall k :: InLog(a, k) ==> InLog(b, k) && At(b, k) == At(a, k)
  }

  /** Old rows only leave or get consumed. */
  ghost predicate Ages(log: Log, t: Table, t': Table) {
    forall k :: InLog(log, k) && k in t' ==> k in t && t'[k].msg == t[k].msg && (t[k].consumed.Some? ==> t'[k].consumed.Some?)
  }

  /** What only ever grows. */
  ghost predicate Grows(b: Bus, b': Bus) {
    && LogGrows(b.log, b'.log) && Ages(b.log, b.table, b'.table)
    && b.skipped <= b'.skipped && b.bcast <= b'.bcast
  }

  lemma CommitGrows(b: Bus, session: SessionId, msg: Msg)
    requires Window(b.table, b.log)
    ensures Window(Commit(b, session, msg).table, Commit(b, session, msg).log)
    ensures Grows(b, Commit(b, session, msg))
    ensures NextKey(b.table, session) == Key(session, |Of(b.log, session)| + 1)
  {
    EnqueueKeepsWindow(b.table, b.log, session, msg);
  }

  lemma ConsumesGrows(b: Bus, k: Key, now: nat)
    requires Window(b.table, b.log)
    ensures Window(Consumes(b, k, now).table, b.log) && Grows(b, Consumes(b, k, now))
  {
    MarkKeepsWindow(b.table, b.log, k, now);
  }

  lemma BusStepGrows(b: Bus, x: Actor, e: Event)
    requires Window(b.table, b.log) && CanStep(b, x, e)
    ensures Window(BusAfter(b, x, e).table, BusAfter(b, x, e).log) && Grows(b, BusAfter(b, x, e))
  {
    match e
    case PostPrompt(msg) => CommitGrows(b, OwnSession(x.me), msg);
    case MarkPrompt(now) => ConsumesGrows(b, x.pc.key, now);
    case Mark(now) => ConsumesGrows(b, x.pc.rows[0].key, now);
    case _ =>
  }

  lemma StepGrows(s: Sys, a: Action)
    requires Window(s.bus.table, s.bus.log) && Can(s, a)
    ensures Window(Do(s, a).bus.table, Do(s, a).bus.log) && Grows(s.bus, Do(s, a).bus)
  {
    match a
    case Post(to, msg) => CommitGrows(s.bus, to, msg);
    case Step(i, ev) => BusStepGrows(s.bus, s.actors[i], ev);
    case _ =>
  }

  // ----- Messages keep their identity -----

  /** `x` is the message logged under its key, addressed to `me`. */
  ghost predicate Mine(log: Log, me: AgentId, x: Item) {
    && InLog(log, x.key) && x.msg == At(log, x.key)
    && x.key.session.group == me.group && x.msg.to == me.name
  }

  ghost predicate AllMine(log: Log, me: AgentId, xs: seq<Item>) {
    forall i :: 0 <= i < |xs| ==> Mine(log, me, xs[i])
  }

  function InHand(pc: Pc): seq<Item> {
    if pc.Working? || pc.Handed? then pc.rows else []
  }

  ghost predicate PcOk(x: Actor) {
    && (x.pc.Working? ==> x.pc.rows != [])
    && (x.pc.Handed? ==> x.pc.rows != [] && x.out != [] && x.out[|x.out| - 1] == x.pc.rows[0])
    && (x.pc.PromptDue? ==> x.role.Supervisor? && x.role.prompt.None? && x.out == [])
    && (x.pc.PromptMark? ==> x.role.Supervisor? && x.role.prompt == Some(x.pc.key) && x.out == [])
  }

  ghost predicate PromptOk(log: Log, x: Actor) {
    x.role.Supervisor? && x.role.prompt.Some? ==>
      InLog(log, x.role.prompt.value) && Mine(log, x.me, Item(x.role.prompt.value, At(log, x.role.prompt.value)))
  }

  ghost predicate Sound(log: Log, x: Actor) {
    AllMine(log, x.me, x.out) && AllMine(log, x.me, InHand(x.pc)) && PcOk(x) && PromptOk(log, x)
  }

  ghost predicate BcastSound(b: Bus) {
    && (forall i :: 0 <= i < |b.bcast| ==> InLog(b.log, b.bcast[i].key) && b.bcast[i].msg == At(b.log, b.bcast[i].key))
    && (forall k :: k in b.unsent ==> InLog(b.log, k))
  }

  lemma SoundStays(log: Log, log': Log, x: Actor)
    requires Sound(log, x) && LogGrows(log, log')
    ensures Sound(log', x)
  {
  }

  /** Rows selected from the keys addressed to `me` are `me`'s messages. */
  lemma SelectedAreMine(b: Bus, me: AgentId, keys: set<Key>, byTime: bool, limit: Option<nat>, rows: seq<Item>)
    requires Window(b.table, b.log) && keys <= b.table.Keys && IsSelection(b.table, keys, byTime, limit, rows)
    requires forall k :: k in keys ==> k.session.group == me.group && b.table[k].msg.to == me.name
    ensures AllMine(b.log, me, rows)
  {
    forall i | 0 <= i < |rows| ensures Mine(b.log, me, rows[i]) {
      assert rows[i].key in b.table && Kept(b.log, rows[i].key);
    }
  }

  lemma AllMineTail(log: Log, me: AgentId, xs: seq<Item>)
    requires AllMine(log, me, xs) && xs != []
    ensures AllMine(log, me, xs[1..]) && AllMine(log, me, [xs[0]])
  {
  }

  lemma AllMineConcat(log: Log, me: AgentId, xs: seq<Item>, ys: seq<Item>)
    requires AllMine(log, me, xs) && AllMine(log, me, ys)
    ensures AllMine(log, me, xs + ys)
  {
  }

  lemma SoundPrompt(b: Bus, x: Actor, msg: Msg)
    requires Window(b.table, b.log) && Sound(b.log, x) && CanStep(b, x, PostPrompt(msg))
    ensures Sound(Commit(b, OwnSession(x.me), msg).log, ActorAfter(b, x, PostPrompt(msg)))
  {
    CommitGrows(b, OwnSession(x.me), msg);
    SoundStays(b.log, Commit(b, OwnSession(x.me), msg).log, x);
  }

  lemma SoundEvent(b: Bus, x: Actor, e: Event)
    requires Window(b.table, b.log) && BcastSound(b) && Sound(b.log, x) && CanStep(b, x, e)
    ensures Sound(BusAfter(b, x, e).log, ActorAfter(b, x, e))
  {
    match e
    case PostPrompt(msg) => SoundPrompt(b, x, msg);
    case Fetch(rows) => SelectedAreMine(b, x.me, PendingKeys(b.table, x.me, TurnInput), false, None, rows);
    case Backlog(rows) => SelectedAreMine(b, x.me, BacklogOf(b.table, x), true, Some(RECV_BACKLOG), rows);
    case Write =>
      AllMineTail(b.log, x.me, x.pc.rows);
      AllMineConcat(b.log, x.me, x.out, [x.pc.rows[0]]);
    case Mark(now) => AllMineTail(b.log, x.me, x.pc.rows);
    case NoMark => AllMineTail(b.log, x.me, x.pc.rows);
    case _ =>
  }

  // ----- Who consumed a message -----

  /** A supervisor gives out its prompt, when it starts the child, and what it feeds; a consuming reader what it writes. */
  predicate GaveOut(x: Actor, k: Key) {
    match x.role
    case Supervisor(prompt, seen) => prompt == Some(k) || Holds(x.out, k)
    case Reader(session, since, consume, follow, sub, cursor, lagged, found) => consume && Holds(x.out, k)
  }

  predicate HandedOut(actors: seq<Actor>, me: AgentId, k: Key) {
    exists j :: 0 <= j < |actors| && actors[j].me == me && GaveOut(actors[j], k)
  }

  function Addressee(k: Key, m: Msg): AgentId {
    AgentId(k.session.group, m.to)
  }

  /** Whatever is consumed was given out by an actor of the agent it is addressed to. */
  ghost predicate ConsumedSeen(t: Table, actors: seq<Actor>) {
    forall k :: k in t && t[k].consumed.Some? ==> HandedOut(actors, Addressee(k, t[k].msg), k)
  }

  /** Nobody takes back what it gave out. */
  ghost predicate KeepGiving(actors: seq<Actor>, actors': seq<Actor>) {
    && |actors| <= |actors'|
    && forall j, k :: 0 <= j < |actors| && GaveOut(actors[j], k) ==> actors'[j].me == actors[j].me && GaveOut(actors'[j], k)
  }

  lemma HandedOutStays(actors: seq<Actor>, actors': seq<Actor>, me: AgentId, k: Key)
    requires KeepGiving(actors, actors') && HandedOut(actors, me, k)
    ensures HandedOut(actors', me, k)
  {
    var j :| 0 <= j < |actors| && actors[j].me == me && GaveOut(actors[j], k);
    assert GaveOut(actors'[j], k);
  }

  lemma GivesOn(b: Bus, x: Actor, e: Event, k: Key)
    requires PcOk(x) && CanStep(b, x, e) && GaveOut(x, k)
    ensures ActorAfter(b, x, e).me == x.me && GaveOut(ActorAfter(b, x, e), k)
  {
    if Holds(x.out, k) {
      var i :| 0 <= i < |x.out| && x.out[i].key == k;
      assert ActorAfter(b, x, e).out[i].key == k;
    }
  }

  lemma SeenStays(t: Table, actors: seq<Actor>, actors': seq<Actor>)
    requires ConsumedSeen(t, actors) && KeepGiving(actors, actors')
    ensures ConsumedSeen(t, actors')
  {
    forall k | k in t && t[k].consumed.Some? ensures HandedOut(actors', Addressee(k, t[k].msg), k) {
      HandedOutStays(actors, actors', Addressee(k, t[k].msg), k);
    }
  }

  lemma SeenCommit(b: Bus, actors: seq<Actor>, session: SessionId, msg: Msg)
    requires ConsumedSeen(b.table, actors)
    ensures ConsumedSeen(Commit(b, session, msg).table, actors)
  {
  }

  lemma SeenMark(t: Table, actors: seq<Actor>, k: Key, now: nat)
    requires ConsumedSeen(t, actors) && (k in t ==> HandedOut(actors, Addressee(k, t[k].msg), k))
    ensures ConsumedSeen(MarkConsumed(t, k, now), actors)
  {
  }

  // ----- The base invariant -----

  ghost predicate Base(s: Sys) {
    && Window(s.bus.table, s.bus.log) && BcastSound(s.bus)
    && (forall i :: 0 <= i < |s.actors| ==> Sound(s.bus.log, s.actors[i]))
    && ConsumedSeen(s.bus.table, s.actors)
  }

  lemma StepKeepsGiving(s: Sys, a: Action)
    requires Base(s) && Can(s, a)
    ensures KeepGiving(s.actors, Do(s, a).actors)
  {
    if a.Step? {
      forall k | GaveOut(s.actors[a.i], k) ensures GaveOut(Do(s, a).actors[a.i], k) {
        GivesOn(s.bus, s.actors[a.i], a.ev, k);
      }
    } else if a.Crash? {
      forall j, k | 0 <= j < |s.actors| && GaveOut(s.actors[j], k) ensures GaveOut(Do(s, a).actors[j], k) {
        GivesOn(s.bus, s.actors[j], Leave, k);
      }
    }
  }

  /** The key an actor is about to mark was given out by it, and is addressed to it. */
  lemma MarkedWasGiven(b: Bus, x: Actor, k: Key)
    requires Window(b.table, b.log) && Sound(b.log, x) && Marks(x.role)
    requires x.pc == PromptMark(k) || (x.pc.Handed? && x.pc.rows != [] && x.pc.rows[0].key == k)
    ensures GaveOut(x, k) && (k in b.table ==> Addressee(k, b.table[k].msg) == x.me)
  {
    if x.pc.Handed? {
      assert x.out[|x.out| - 1].key == k;
      assert Mine(b.log, x.me, InHand(x.pc)[0]);
    }
  }

  lemma SeenStep(b: Bus, actors: seq<Actor>, i: nat, e: Event)
    requires Window(b.table, b.log) && i < |actors| && Sound(b.log, actors[i]) && CanStep(b, actors[i], e)
    requires ConsumedSeen(b.table, actors)
    ensures ConsumedSeen(BusAfter(b, actors[i], e).table, actors)
  {
    var x := actors[i];
    match e
    case PostPrompt(msg) => SeenCommit(b, actors, OwnSession(x.me), msg);
    case MarkPrompt(now) =>
      MarkedWasGiven(b, x, x.pc.key);
      SeenMark(b.table, actors, x.pc.key, now);
    case Mark(now) =>
      MarkedWasGiven(b, x, x.pc.rows[0].key);
      SeenMark(b.table, actors, x.pc.rows[0].key, now);
    case _ =>
  }

  lemma StepSeen(s: Sys, a: Action)
    requires Base(s) && Can(s, a)
    ensures ConsumedSeen(Do(s, a).bus.table, Do(s, a).actors)
  {
    StepKeepsGiving(s, a);
    match a
    case Post(to, msg) => SeenCommit(s.bus, s.actors, to, msg);
    case Step(i, ev) =>
      SeenStep(s.bus, s.actors, i, ev);
      SeenStays(BusAfter(s.bus, s.actors[i], ev).table, s.actors, Do(s, a).actors);
    case _ => SeenStays(s.bus.table, s.actors, Do(s, a).actors);
  }

  lemma BcastStays(b: Bus, b': Bus)
    requires BcastSound(b) && LogGrows(b.log, b'.log) && b'.bcast == b.bcast
    requires forall k :: k in b'.unsent ==> k in b.unsent || InLog(b'.log, k)
    ensures BcastSound(b')
  {
  }

  lemma BcastCommit(b: Bus, session: SessionId, msg: Msg)
    requires Window(b.table, b.log) && BcastSound(b)
    ensures BcastSound(Commit(b, session, msg))
  {
    CommitGrows(b, session, msg);
    BcastStays(b, Commit(b, session, msg));
  }

  lemma StepBcast(s: Sys, a: Action)
    requires Base(s) && Can(s, a)
    ensures BcastSound(Do(s, a).bus)
  {
    match a
    case Post(to, msg) => BcastCommit(s.bus, to, msg);
    case Step(i, ev) =>
      if ev.PostPrompt? {
        BcastCommit(s.bus, OwnSession(s.actors[i].me), ev.msg);
      } else {
        BcastStays(s.bus, BusAfter(s.bus, s.actors[i], ev));
      }
    case _ =>
  }

  lemma StepSound(s: Sys, a: Action, j: nat)
    requires Base(s) && Can(s, a) && j < |Do(s, a).actors|
    ensures Sound(Do(s, a).bus.log, Do(s, a).actors[j])
  {
    StepGrows(s, a);
    if a.Step? && j == a.i {
      SoundEvent(s.bus, s.actors[j], a.ev);
    } else if j < |s.actors| {
      SoundStays(s.bus.log, Do(s, a).bus.log, s.actors[j]);
    }
  }

  lemma BaseStep(s: Sys, a: Action)
    requires Base(s) && Can(s, a)
    ensures Base(Do(s, a))
  {
    StepGrows(s, a);
    StepSeen(s, a);
    StepBcast(s, a);
    forall j | 0 <= j < |Do(s, a).actors| ensures Sound(Do(s, a).bus.log, Do(s, a).actors[j]) {
      StepSound(s, a, j);
    }
  }

  lemma {:induction false} BaseRun(s: Sys, acts: seq<Action>)
    requires Base(s) && IsRun(s, acts)
    ensures Base(Run(s, acts))
    decreases |acts|
  {
    if acts != [] {
      BaseStep(s, acts[0]);
      BaseRun(Do(s, acts[0]), acts[1..]);
    }
  }

  // ----- Main results -----

  /**
   No message is consumed unseen: over every run, a row marked consumed was first written to a
   consuming reader of its addressee, fed to its addressee's child, or was the prompt the child
   started with. So every untrimmed message is unconsumed or was handed out.
   */
  lemma NothingConsumedUnseen(s: Sys, acts: seq<Action>, k: Key)
    requires Init(s) && IsRun(s, acts)
    requires k in Run(s, acts).bus.table && Run(s, acts).bus.table[k].consumed.Some?
    ensures HandedOut(Run(s, acts).actors, Addressee(k, Run(s, acts).bus.table[k].msg), k)
  {
    BaseRun(s, acts);
  }

  /** Whatever anybody is handed is the message logged under its key, and is addressed to it. */
  lemma HandedAsPosted(s: Sys, acts: seq<Action>, i: nat, j: nat)
    requires Init(s) && IsRun(s, acts) && i < |Run(s, acts).actors| && j < |Run(s, acts).actors[i].out|
    ensures Mine(Run(s, acts).bus.log, Run(s, acts).actors[i].me, Run(s, acts).actors[i].out[j])
  {
    BaseRun(s, acts);
    assert Sound(Run(s, acts).bus.log, Run(s, acts).actors[i]);
  }
}
