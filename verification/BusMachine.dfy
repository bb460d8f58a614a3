/**
 The local bus as a transition system: senders, one supervisor per spawned child and any number
 of `agent recv` readers over one table (crates/wt-daemon/src/supervisor.rs,
 crates/wt-daemon/src/ipc.rs, `bus_enqueue` in crates/wt-daemon/src/state.rs).

 Committing a row and broadcasting it are separate steps, as is every write and every mark.
 Broadcasts and timers only decide when a supervisor queries, so a query may come at any time.
 */
module BusMachine {
  import opened Basics
  import opened BusTable

  /** LIMIT of the backlog query of `agent recv`. */
  const RECV_BACKLOG: nat := 10_000

  /**
   Where an actor is: free; about to hand out the first of `rows`; about to mark the first of
   `rows`, just handed out; starting, with the prompt written to the child but not yet on the bus;
   about to mark the prompt; gone.
   */
  datatype Pc = Free | Working(rows: seq<Item>) | Handed(rows: seq<Item>) | PromptDue | PromptMark(key: Key) | Gone

  /** What a reader's backlog query saw: the table, everything ever logged, and its result. */
  datatype Found = Found(table: Table, log: Log, rows: seq<Item>)

  /**
   A supervisor knows its prompt's key; `seen` is the log as of its last query (history).
   A reader has `cursor` broadcasts behind it, from `sub` on, and may have lost some by lagging.
   */
  datatype Role =
    | Supervisor(prompt: Option<Key>, seen: Log)
    | Reader(session: Option<string>, since: nat, consume: bool, follow: bool,
             sub: nat, cursor: nat, lagged: bool, found: Option<Found>)

  /** `out`: everything written to the child's stdin by the drain, or to the reader's stream. */
  datatype Actor = Actor(me: AgentId, role: Role, pc: Pc, out: seq<Item>)

  /**
   `unsent` are committed rows whose broadcast is still to come, `bcast` every broadcast made;
   `log` and `skipped` (rows a supervisor fed but failed to mark) are history.
   */
  datatype Bus = Bus(table: Table, log: Log, unsent: set<Key>, bcast: seq<Item>, skipped: set<Key>)

  datatype Sys = Sys(bus: Bus, actors: seq<Actor>)

  /** One step of one actor. Leaving covers every way out: exits, aborts, failed queries and failed writes. */
  datatype Event =
    | PostPrompt(msg: Msg)
    | PromptLost
    | MarkPrompt(now: nat)
    | PromptUnmarked
    | Fetch(rows: seq<Item>)
    | Backlog(rows: seq<Item>)
    | Tail
    | Lag(n: nat)
    | Write
    | Mark(now: nat)
    | NoMark
    | Leave

  datatype Action =
    | Post(to: SessionId, msg: Msg)
    | Publish(key: Key)
    | Start(me: AgentId, prompt: bool)
    | Subscribe(me: AgentId, session: Option<string>, since: nat, consume: bool, follow: bool)
    | Step(i: nat, ev: Event)
    | Crash

  /** A consuming reader ignores the time filter. */
  function After(r: Role): nat
    requires r.Reader?
  {
    if r.consume then 0 else r.since
  }

  predicate Marks(r: Role) {
    r.Supervisor? || r.consume
  }

  function OwnSession(a: AgentId): SessionId {
    SessionId(a.group, a.name)
  }

  function BacklogOf(t: Table, x: Actor): (keys: set<Key>)
    requires x.role.Reader?
    ensures keys <= t.Keys
  {
    BacklogKeys(t, x.me, x.role.session, After(x.role), x.role.consume)
  }

  ghost predicate CanStep(b: Bus, x: Actor, e: Event) {
    match e
    case PostPrompt(msg) => x.role.Supervisor? && x.pc.PromptDue? && msg.to == x.me.name && msg.kind == TurnInput
    case PromptLost => x.role.Supervisor? && x.pc.PromptDue?
    case MarkPrompt(now) => x.role.Supervisor? && x.pc.PromptMark?
    case PromptUnmarked => x.role.Supervisor? && x.pc.PromptMark?
    case Fetch(rows) => x.role.Supervisor? && x.pc.Free? && IsSelection(b.table, PendingKeys(b.table, x.me, TurnInput), false, None, rows)
    case Backlog(rows) =>
      x.role.Reader? && x.pc.Free? && x.role.found.None?
      && IsSelection(b.table, BacklogOf(b.table, x), true, Some(RECV_BACKLOG), rows)
    case Tail => x.role.Reader? && x.pc.Free? && x.role.found.Some? && x.role.follow && x.role.cursor < |b.bcast|
    case Lag(n) => x.role.Reader? && x.pc.Free? && x.role.cursor < n <= |b.bcast|
    case Write => x.pc.Working? && x.pc.rows != []
    case Mark(now) => x.pc.Handed? && x.pc.rows != [] && Marks(x.role)
    case NoMark => x.pc.Handed? && x.pc.rows != []
    case Leave => true
  }

  /** Appends a row, trims its session, and leaves the broadcast to come. */
  ghost function Commit(b: Bus, session: SessionId, msg: Msg): Bus {
    b.(table := Enqueue(b.table, session, msg), log := Logged(b.log, session, msg),
       unsent := b.unsent + {NextKey(b.table, session)})
  }

  /** Broadcasts a committed row. */
  function Published(b: Bus, k: Key): Bus
    requires InLog(b.log, k)
  {
    b.(unsent := b.unsent - {k}, bcast := b.bcast + [Item(k, At(b.log, k))])
  }

  function Consumes(b: Bus, k: Key, now: nat): Bus {
    b.(table := MarkConsumed(b.table, k, now))
  }

  function Skips(b: Bus, k: Key): Bus {
    b.(skipped := b.skipped + {k})
  }

  /** What a step does to the bus. */
  ghost function BusAfter(b: Bus, x: Actor, e: Event): Bus
    requires CanStep(b, x, e)
  {
    match e
    case PostPrompt(msg) => Commit(b, OwnSession(x.me), msg)
    case MarkPrompt(now) => Consumes(b, x.pc.key, now)
    case PromptUnmarked => Skips(b, x.pc.key)
    case Mark(now) => Consumes(b, x.pc.rows[0].key, now)
    case NoMark => if x.role.Supervisor? then Skips(b, x.pc.rows[0].key) else b
    case _ => b
  }

  function Carry(rows: seq<Item>): Pc {
    if rows == [] then Free else Working(rows)
  }

  /** A broadcast for this reader is written next; any other is passed over. */
  function TailOne(x: Actor, ev: Item): Actor
    requires x.role.Reader?
  {
    x.(role := x.role.(cursor := x.role.cursor + 1),
       pc := if Matches(x.me, x.role.session, ev.key, ev.msg) then Working([ev]) else Free)
  }

  /** What a step does to the actor. */
  ghost function ActorAfter(b: Bus, x: Actor, e: Event): Actor
    requires CanStep(b, x, e)
  {
    match e
    case PostPrompt(msg) =>
      var k := NextKey(b.table, OwnSession(x.me));
      x.(role := x.role.(prompt := Some(k)), pc := PromptMark(k))
    case PromptLost => x.(pc := Free)
    case MarkPrompt(now) => x.(pc := Free)
    case PromptUnmarked => x.(pc := Free)
    case Fetch(rows) => x.(role := x.role.(seen := b.log), pc := Carry(rows))
    case Backlog(rows) => x.(role := x.role.(found := Some(Found(b.table, b.log, rows))), pc := Carry(rows))
    case Tail => TailOne(x, b.bcast[x.role.cursor])
    case Lag(n) => x.(role := x.role.(cursor := n, lagged := true))
    case Write => x.(pc := Handed(x.pc.rows), out := x.out + [x.pc.rows[0]])
    case Mark(now) => x.(pc := Carry(x.pc.rows[1..]))
    case NoMark => x.(pc := Carry(x.pc.rows[1..]))
    case Leave => x.(pc := Gone)
  }

  ghost predicate Can(s: Sys, a: Action) {
    match a
    case Post(to, msg) => true
    case Publish(key) => key in s.bus.unsent && InLog(s.bus.log, key)
    // one supervisor per agent, ever: `Spawn.StartedOnce`
    case Start(me, prompt) => forall i :: 0 <= i < |s.actors| && s.actors[i].role.Supervisor? ==> s.actors[i].me != me
    case Subscribe(me, session, since, consume, follow) => true
    case Step(i, ev) => i < |s.actors| && CanStep(s.bus, s.actors[i], ev)
    case Crash => true
  }

  function NewSupervisor(me: AgentId, prompt: bool): Actor {
    Actor(me, Supervisor(None, map[]), if prompt then PromptDue else Free, [])
  }

  function NewReader(b: Bus, me: AgentId, session: Option<string>, since: nat, consume: bool, follow: bool): Actor {
    Actor(me, Reader(session, since, consume, follow, |b.bcast|, |b.bcast|, false, None), Free, [])
  }

  function AllGone(actors: seq<Actor>): (r: seq<Actor>)
    ensures |r| == |actors|
  {
    seq(|actors|, i requires 0 <= i < |actors| => actors[i].(pc := Gone))
  }

  ghost function Do(s: Sys, a: Action): Sys
    requires Can(s, a)
  {
    match a
    case Post(to, msg) => s.(bus := Commit(s.bus, to, msg))
    case Publish(key) => s.(bus := Published(s.bus, key))
    case Start(me, prompt) => s.(actors := s.actors + [NewSupervisor(me, prompt)])
    case Subscribe(me, session, since, consume, follow) =>
      s.(actors := s.actors + [NewReader(s.bus, me, session, since, consume, follow)])
    case Step(i, ev) =>
      Sys(BusAfter(s.bus, s.actors[i], ev), s.actors[i := ActorAfter(s.bus, s.actors[i], ev)])
    case Crash => Sys(s.bus.(unsent := {}), AllGone(s.actors))
  }

  predicate IsSupervisor(s: Sys, i: nat) {
    i < |s.actors| && s.actors[i].role.Supervisor?
  }

  predicate IsReader(s: Sys, i: nat) {
    i < |s.actors| && s.actors[i].role.Reader?
  }

  predicate Init(s: Sys) {
    s == Sys(Bus(map[], map[], {}, [], {}), [])
  }

  ghost predicate IsRun(s: Sys, acts: seq<Action>)
    decreases |acts|
  {
    acts == [] || (Can(s, acts[0]) && IsRun(Do(s, acts[0]), acts[1..]))
  }

  ghost function Run(s: Sys, acts: seq<Action>): Sys
    requires IsRun(s, acts)
    decreases |acts|
  {
    if acts == [] then s else Run(Do(s, acts[0]), acts[1..])
  }

  /** A run by its first step. */
  lemma RunCons(s: Sys, a: Action, rest: seq<Action>)
    requires Can(s, a) && IsRun(Do(s, a), rest)
    ensures IsRun(s, [a] + rest) && Run(s, [a] + rest) == Run(Do(s, a), rest)
  {
    assert ([a] + rest)[1..] == rest;
  }

  // ----- What may happen -----

  /** Anybody may post and subscribe at any time, the daemon may crash, and any actor may leave. */
  lemma MayHappen(s: Sys, to: SessionId, msg: Msg, me: AgentId, session: Option<string>, since: nat, consume: bool, follow: bool, i: nat)
    ensures Can(s, Action.Post(to, msg)) && Can(s, Subscribe(me, session, since, consume, follow)) && Can(s, Crash)
    ensures i < |s.actors| ==> Can(s, Step(i, Leave))
  {
  }

  /** A mark may fail, and a reader of the live tail may fall behind by any number of broadcasts. */
  lemma MayMiss(b: Bus, x: Actor, n: nat)
    ensures x.pc.Handed? && x.pc.rows != [] ==> CanStep(b, x, NoMark)
    ensures x.role.Supervisor? && x.pc.PromptMark? ==> CanStep(b, x, PromptUnmarked)
    ensures x.role.Reader? && x.pc.Free? && x.role.cursor < n <= |b.bcast| ==> CanStep(b, x, Lag(n))
  {
  }

  /** A crash keeps the table and loses every actor and every broadcast still to come. */
  lemma CrashLoses(s: Sys)
    ensures var e := Do(s, Crash);
            && e.bus.table == s.bus.table && e.bus.unsent == {} && |e.actors| == |s.actors|
            && forall i :: 0 <= i < |s.actors| ==> e.actors[i] == s.actors[i].(pc := Gone)
  {
  }
}
