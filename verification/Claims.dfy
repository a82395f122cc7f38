/**
 Session claims and finalization of src/container-runner.ts. Several hosts share one claim
 row per session. Every await ends a step, so between two steps of one task any other task of
 any host may run; a host that crashes just takes no more steps and lets its lease lapse.
 The claim table behaves as its callers rely on: a swap succeeds only on the expected
 incarnation and then stores the claimant with a larger one, a release clears the owner only
 when owner and incarnation match, and a lapsed lease stays lapsed.
 */
module Claims {
  import opened Wrappers

  type Host = nat
  type Runtime = nat
  type Task = nat
  type SessionId = string

  const FENCE_RETRIES: nat := 3

  datatype Row = Row(owner: Option<Host>, incarnation: nat)

  /**
   An entry of activeContainers, or one that a newer entry has replaced. Its exit callbacks are
   numbered in the order they were pushed.
   */
  datatype Info = Info(host: Host, incarnation: nat, finished: bool, scheduled: bool, callbacks: nat)

  /**
   Why claimSessionRun is called: by a wake, which checks the registry first; by the startup
   adoption loop; or by a spawn that goes on after retryPendingAdoption gave up on a runtime
   it had already registered.
   */
  datatype Kind = Wake | Adopt | Reclaim

  datatype ClaimPc =
    | ReadClaim
    | CheckHolder(holder: Row)
    | Swap(seen: Option<Row>)
    | Holding(incarnation: nat)
    | Releasing(incarnation: nat)

  datatype FinishPc = ReadFence(attempt: nat) | Stop | Mark | Drop | Release | Callbacks

  datatype Finish = Finish(rt: Runtime, pc: FinishPc)

  /** The row found when a runtime was recorded as stopped. */
  datatype Stopped = Stopped(rt: Runtime, row: Option<Row>, live: bool)

  /** The runtimes of all hosts with the runs of `finish` under way or scheduled for them. */
  datatype Tasks = Tasks(
    registry: map<Host, Runtime>,
    runtimes: map<Runtime, Info>,
    finishes: map<Task, Finish>,
    timers: map<Task, Runtime>,
    ids: nat,
    torn: set<Runtime>,
    released: seq<Runtime>,
    ran: seq<(Runtime, nat)>)

  /** `torn`, `released`, `ran`, `marks` and `overclaimed` only remember what happened. */
  datatype Session = Session(
    row: Option<Row>,
    claims: map<Host, ClaimPc>,
    overclaimed: set<Host>,
    tasks: Tasks,
    marks: seq<Stopped>)

  datatype Action =
    | StartClaim(h: Host, kind: Kind)
    | ClaimRead(h: Host, ok: bool)
    | ClaimCheck(h: Host, ok: bool)
    | ClaimSwap(h: Host, larger: nat, effect: bool, answered: bool)
    | ClaimFails(h: Host)
    | ClaimRelease(h: Host, ok: bool)
    | Register(h: Host)
    | Kill(h: Host)
    | Terminal(rt: Runtime)
    | TimerFires(timer: Task)
    | FinishStep(task: Task, ok: bool)

  function Incarnation(row: Option<Row>): nat {
    if row.None? then 0 else row.value.incarnation
  }

  /** releaseSessionClaim: clears the owner when owner and incarnation match. */
  function ReleasedRow(row: Option<Row>, h: Host, incarnation: nat): Option<Row> {
    if row == Some(Row(Some(h), incarnation)) then Some(Row(None, incarnation)) else row
  }

  // ----- Claiming -----

  function ClaimStep(live: set<Host>, s: Session, a: Action): Option<Session> {
    match a
    case StartClaim(h, kind) =>
      if h in s.claims || (kind.Wake? && h in s.tasks.registry) then None
      else Some(s.(claims := s.claims[h := ReadClaim],
                   overclaimed := if h in s.tasks.registry then s.overclaimed + {h} else s.overclaimed))
    case ClaimRead(h, ok) =>
      if h !in s.claims || !s.claims[h].ReadClaim? then None
      else if !ok then Some(s.(claims := s.claims - {h}))
      else if s.row.Some? && s.row.value.owner.Some? && s.row.value.owner.value != h
      then Some(s.(claims := s.claims[h := CheckHolder(s.row.value)]))
      else Some(s.(claims := s.claims[h := Swap(s.row)]))
    case ClaimCheck(h, ok) =>
      if h !in s.claims || !s.claims[h].CheckHolder? then None
      else
        var seen := s.claims[h].holder;
        if !ok || (seen.owner.Some? && seen.owner.value in live) then Some(s.(claims := s.claims - {h}))
        else Some(s.(claims := s.claims[h := Swap(Some(seen))]))
    case ClaimSwap(h, larger, effect, answered) =>
      if h !in s.claims || !s.claims[h].Swap? then None
      else if !effect || Incarnation(s.row) != Incarnation(s.claims[h].seen)
      then Some(s.(claims := s.claims - {h}))
      else if larger <= Incarnation(s.row) then None
      else
        var row := Some(Row(Some(h), larger));
        Some(s.(row := row, claims := if answered then s.claims[h := Holding(larger)] else s.claims - {h}))
    case ClaimFails(h) =>
      if h !in s.claims || !s.claims[h].Holding? then None
      else Some(s.(claims := s.claims[h := Releasing(s.claims[h].incarnation)]))
    case ClaimRelease(h, ok) =>
      if h !in s.claims || !s.claims[h].Releasing? then None
      else Some(s.(claims := s.claims - {h},
                   row := if ok then ReleasedRow(s.row, h, s.claims[h].incarnation) else s.row))
    case Register(h) =>
      if h !in s.claims || !s.claims[h].Holding? then None
      else Some(s.(claims := s.claims - {h}, tasks := Enrolled(s.tasks, h, s.claims[h].incarnation)))
    case _ => None
  }

  // ----- Finalization -----

  function Enrolled(k: Tasks, h: Host, incarnation: nat): Tasks {
    k.(registry := k.registry[h := k.ids],
       runtimes := k.runtimes[k.ids := Info(h, incarnation, false, false, 0)],
       ids := k.ids + 1)
  }

  /** A new run of `finish`. */
  function Begun(k: Tasks, rt: Runtime): Tasks {
    k.(finishes := k.finishes[k.ids := Finish(rt, ReadFence(0))], ids := k.ids + 1)
  }

  predicate Registered(k: Tasks, rt: Runtime) {
    rt in k.runtimes && k.runtimes[rt].host in k.registry && k.registry[k.runtimes[rt].host] == rt
  }

  /** finishAndResolve: only the first terminal event, and only for the registered runtime. */
  function Terminated(k: Tasks, rt: Runtime): Tasks
    requires rt in k.runtimes
  {
    if k.runtimes[rt].finished then k
    else
      var k' := k.(runtimes := k.runtimes[rt := k.runtimes[rt].(finished := true)]);
      if Registered(k, rt) then Begun(k', rt) else k'
  }

  function Ended(k: Tasks, task: Task): Tasks {
    k.(finishes := k.finishes - {task})
  }

  /** scheduleDeferredFinish: one timer per runtime. */
  function Scheduled(k: Tasks, rt: Runtime): Tasks
    requires rt in k.runtimes
  {
    if k.runtimes[rt].scheduled then k
    else k.(runtimes := k.runtimes[rt := k.runtimes[rt].(scheduled := true)],
            timers := k.timers[k.ids := rt], ids := k.ids + 1)
  }

  function Fired(k: Tasks, timer: Task): Tasks
    requires timer in k.timers && k.timers[timer] in k.runtimes
  {
    var rt := k.timers[timer];
    Begun(k.(timers := k.timers - {timer}, runtimes := k.runtimes[rt := k.runtimes[rt].(scheduled := false)]), rt)
  }

  function Unregistered(k: Tasks, rt: Runtime): Tasks
    requires rt in k.runtimes
  {
    if Registered(k, rt) then k.(registry := k.registry - {k.runtimes[rt].host}) else k
  }

  function Goto(k: Tasks, task: Task, pc: FinishPc): Tasks
    requires task in k.finishes
  {
    k.(finishes := k.finishes[task := k.finishes[task].(pc := pc)])
  }

  function Killed(k: Tasks, rt: Runtime): Tasks
    requires rt in k.runtimes
  {
    k.(runtimes := k.runtimes[rt := k.runtimes[rt].(callbacks := k.runtimes[rt].callbacks + 1)])
  }

  /** A newer incarnation holds the claim; an absent row fences nothing. */
  predicate Fenced(row: Option<Row>, info: Info) {
    row.Some? && row.value.incarnation != info.incarnation
  }

  /** One awaited effect of `finish` with the code up to the next await. */
  function Finalized(k: Tasks, task: Task, ok: bool, row: Option<Row>): Tasks
    requires task in k.finishes && k.finishes[task].rt in k.runtimes
  {
    var Finish(rt, pc) := k.finishes[task];
    match pc
    case ReadFence(attempt) =>
      if !ok then
        if attempt < FENCE_RETRIES then Goto(k, task, ReadFence(attempt + 1)) else Scheduled(Ended(k, task), rt)
      else if Fenced(row, k.runtimes[rt]) then Unregistered(Ended(k, task), rt)
      else Goto(k, task, Stop)
    case Stop => if ok then Goto(k, task, Mark).(torn := k.torn + {rt}) else Scheduled(Ended(k, task), rt)
    case Mark => Goto(k, task, Drop)
    case Drop => Goto(Unregistered(k, rt), task, Release)
    case Release => Goto(k, task, Callbacks).(released := k.released + [rt])
    case Callbacks => Ended(k, task).(ran := k.ran + [(rt, k.runtimes[rt].callbacks)])
  }

  function FinishStepOf(live: set<Host>, s: Session, task: Task, ok: bool): Session
    requires task in s.tasks.finishes && s.tasks.finishes[task].rt in s.tasks.runtimes
  {
    var Finish(rt, pc) := s.tasks.finishes[task];
    var info := s.tasks.runtimes[rt];
    s.(tasks := Finalized(s.tasks, task, ok, s.row),
       row := if pc.Release? && ok then ReleasedRow(s.row, info.host, info.incarnation) else s.row,
       marks := if pc.Mark? && ok then s.marks + [Stopped(rt, s.row, info.host in live)] else s.marks)
  }

  function RuntimeStep(live: set<Host>, s: Session, a: Action): Option<Session> {
    var k := s.tasks;
    match a
    case Kill(h) =>
      if h !in k.registry || k.registry[h] !in k.runtimes then None
      else Some(s.(tasks := Killed(k, k.registry[h])))
    case Terminal(rt) => if rt !in k.runtimes then None else Some(s.(tasks := Terminated(k, rt)))
    case TimerFires(timer) =>
      if timer !in k.timers || k.timers[timer] !in k.runtimes then None
      else Some(s.(tasks := Fired(k, timer)))
    case FinishStep(task, ok) =>
      if task !in k.finishes || k.finishes[task].rt !in k.runtimes then None
      else Some(FinishStepOf(live, s, task, ok))
    case _ => None
  }

  function SessionStep(live: set<Host>, s: Session, a: Action): Option<Session> {
    if a.Kill? || a.Terminal? || a.TimerFires? || a.FinishStep? then RuntimeStep(live, s, a)
    else ClaimStep(live, s, a)
  }

  // ----- All sessions and all hosts -----

  datatype World = World(live: set<Host>, sessions: map<SessionId, Session>)

  datatype Event = InSession(id: SessionId, action: Action) | LeaseLapses(h: Host)

  const EMPTY_SESSION := Session(None, map[], {}, Tasks(map[], map[], map[], map[], 0, {}, [], []), [])

  function Step(w: World, e: Event): Option<World> {
    match e
    case LeaseLapses(h) => Some(w.(live := w.live - {h}))
    case InSession(id, a) =>
      if id !in w.sessions then None
      else
        var s := SessionStep(w.live, w.sessions[id], a);
        if s.None? then None else Some(w.(sessions := w.sessions[id := s.value]))
  }

  ghost predicate Init(w: World) {
    forall id <- w.sessions :: w.sessions[id] == EMPTY_SESSION
  }

  ghost predicate Next(w: World, w': World) {
    exists e :: Step(w, e) == Some(w')
  }

  ghost predicate NextAt(h: seq<World>, i: nat)
    requires i + 1 < |h|
  {
    Next(h[i], h[i + 1])
  }

  ghost predicate History(h: seq<World>) {
    && |h| > 0 && Init(h[0])
    && (forall i: nat | i + 1 < |h| :: NextAt(h, i))
  }
}
