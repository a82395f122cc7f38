/** What the claim protocol keeps, under every interleaving of any number of hosts. */
module ClaimsSafety {
  import opened Wrappers
  import opened Claims

  // ----- Finish tasks: at most one per runtime, running or scheduled -----

  /** No run of `finish` is under way or waiting for this runtime. */
  ghost predicate Quiet(k: Tasks, rt: Runtime) {
    && (forall t <- k.finishes :: k.finishes[t].rt != rt)
    && (forall t <- k.timers :: k.timers[t] != rt)
  }

  predicate AfterStop(pc: FinishPc) {
    pc.Mark? || pc.Drop? || pc.Release? || pc.Callbacks?
  }

  ghost predicate FinishOk(k: Tasks, f: Finish) {
    && f.rt in k.runtimes && k.runtimes[f.rt].finished && !k.runtimes[f.rt].scheduled
    && (f.pc.Release? || f.pc.Callbacks? ==> !Registered(k, f.rt))
    && (AfterStop(f.pc) ==> f.rt in k.torn)
  }

  ghost predicate TimerOk(k: Tasks, rt: Runtime) {
    rt in k.runtimes && k.runtimes[rt].finished && k.runtimes[rt].scheduled
  }

  /** The callbacks of a runtime ran: it is finished for good, after the driver stopped it. */
  ghost predicate Over(k: Tasks, rt: Runtime, callbacks: nat) {
    && rt in k.runtimes && k.runtimes[rt].finished && k.runtimes[rt].callbacks == callbacks
    && Quiet(k, rt) && !Registered(k, rt) && rt in k.torn
  }

  ghost predicate TaskInv(k: Tasks) {
    && (forall rt <- k.runtimes :: rt < k.ids && (k.runtimes[rt].scheduled ==> k.runtimes[rt].finished))
    && (forall h <- k.registry :: k.registry[h] in k.runtimes && k.runtimes[k.registry[h]].host == h)
    && (forall t <- k.finishes :: t < k.ids && FinishOk(k, k.finishes[t]))
    && (forall t <- k.timers :: t < k.ids && TimerOk(k, k.timers[t]))
    && (forall t, u | t in k.finishes && u in k.finishes :: k.finishes[t].rt == k.finishes[u].rt ==> t == u)
    && (forall t, u | t in k.timers && u in k.timers :: k.timers[t] == k.timers[u] ==> t == u)
  }

  ghost predicate KInv(k: Tasks) {
    TaskInv(k) && CallbackInv(k)
  }

  ghost predicate CallbackInv(k: Tasks) {
    && (forall i, j | 0 <= i < j < |k.ran| :: k.ran[i].0 != k.ran[j].0)
    && (forall i | 0 <= i < |k.ran| :: Over(k, k.ran[i].0, k.ran[i].1))
    && (forall rt <- k.released :: rt in k.torn)
  }

  lemma EnrolledTasks(k: Tasks, h: Host, incarnation: nat)
    requires KInv(k)
    ensures KInv(Enrolled(k, h, incarnation))
  {
    var k' := Enrolled(k, h, incarnation);
    assert forall rt <- k.runtimes :: Registered(k', rt) ==> Registered(k, rt);
    assert forall f :: FinishOk(k, f) ==> FinishOk(k', f);
    assert forall rt, n :: Over(k, rt, n) ==> Over(k', rt, n);
  }

  /** A runtime that is quiet, finished, not scheduled and whose callbacks never ran may begin to finish. */
  lemma BegunTasks(k: Tasks, rt: Runtime)
    requires KInv(k) && Quiet(k, rt)
    requires rt in k.runtimes && k.runtimes[rt].finished && !k.runtimes[rt].scheduled
    requires forall i | 0 <= i < |k.ran| :: k.ran[i].0 != rt
    ensures KInv(Begun(k, rt))
  {
    var k' := Begun(k, rt);
    assert forall f :: FinishOk(k, f) ==> FinishOk(k', f);
    assert forall x, n :: x != rt && Over(k, x, n) ==> Over(k', x, n);
  }

  lemma TerminatedTasks(k: Tasks, rt: Runtime)
    requires KInv(k) && rt in k.runtimes
    ensures KInv(Terminated(k, rt))
  {
    if !k.runtimes[rt].finished {
      var k' := k.(runtimes := k.runtimes[rt := k.runtimes[rt].(finished := true)]);
      assert forall f :: FinishOk(k, f) ==> FinishOk(k', f);
      assert forall x, n :: Over(k, x, n) ==> Over(k', x, n);
      if Registered(k, rt) {
        BegunTasks(k', rt);
      }
    }
  }

  lemma FiredTasks(k: Tasks, timer: Task)
    requires KInv(k) && timer in k.timers && k.timers[timer] in k.runtimes
    ensures KInv(Fired(k, timer))
  {
    var rt := k.timers[timer];
    var k' := k.(timers := k.timers - {timer}, runtimes := k.runtimes[rt := k.runtimes[rt].(scheduled := false)]);
    assert forall t <- k.finishes :: k.finishes[t].rt != rt;
    assert forall f: Finish :: f.rt != rt && FinishOk(k, f) ==> FinishOk(k', f);
    assert forall x, n :: Over(k, x, n) ==> Over(k', x, n);
    BegunTasks(k', rt);
  }

  lemma EndedTasks(k: Tasks, task: Task)
    requires KInv(k) && task in k.finishes
    ensures KInv(Ended(k, task)) && Quiet(Ended(k, task), k.finishes[task].rt)
  {
    var k' := Ended(k, task);
    assert FinishOk(k, k.finishes[task]);
    assert forall f :: FinishOk(k, f) ==> FinishOk(k', f);
    assert forall x, n :: Over(k, x, n) ==> Over(k', x, n);
  }

  lemma ScheduledTasks(k: Tasks, rt: Runtime)
    requires KInv(k) && Quiet(k, rt)
    requires rt in k.runtimes && k.runtimes[rt].finished
    requires forall i | 0 <= i < |k.ran| :: k.ran[i].0 != rt
    ensures KInv(Scheduled(k, rt))
  {
    var k' := Scheduled(k, rt);
    assert forall f: Finish :: f.rt != rt && FinishOk(k, f) ==> FinishOk(k', f);
    assert forall x, n :: x != rt && Over(k, x, n) ==> Over(k', x, n);
  }

  lemma UnregisteredTasks(k: Tasks, rt: Runtime)
    requires KInv(k) && rt in k.runtimes
    ensures KInv(Unregistered(k, rt)) && !Registered(Unregistered(k, rt), rt)
  {
    var k' := Unregistered(k, rt);
    assert forall f :: FinishOk(k, f) ==> FinishOk(k', f);
    assert forall x, n :: Over(k, x, n) ==> Over(k', x, n);
  }

  lemma GotoTasks(k: Tasks, task: Task, pc: FinishPc)
    requires KInv(k) && task in k.finishes
    requires FinishOk(k, k.finishes[task].(pc := pc))
    ensures KInv(Goto(k, task, pc))
  {
    var k' := Goto(k, task, pc);
    assert forall f :: FinishOk(k, f) ==> FinishOk(k', f);
    assert forall x, n :: Over(k, x, n) ==> Over(k', x, n);
  }

  lemma TornTasks(k: Tasks, rt: Runtime)
    requires KInv(k)
    ensures KInv(k.(torn := k.torn + {rt}))
  {
    var k' := k.(torn := k.torn + {rt});
    assert forall f :: FinishOk(k, f) ==> FinishOk(k', f);
    assert forall x, n :: Over(k, x, n) ==> Over(k', x, n);
  }

  lemma KilledTasks(k: Tasks, h: Host)
    requires KInv(k) && h in k.registry
    ensures KInv(Killed(k, k.registry[h]))
  {
    var k' := Killed(k, k.registry[h]);
    assert forall f :: FinishOk(k, f) ==> FinishOk(k', f);
    assert forall i | 0 <= i < |k.ran| :: Over(k, k.ran[i].0, k.ran[i].1) && k.ran[i].0 != k.registry[h];
    assert forall x, n :: x != k.registry[h] && Over(k, x, n) ==> Over(k', x, n);
  }

  lemma RanTasks(k: Tasks, rt: Runtime)
    requires KInv(k) && rt in k.runtimes && Over(k, rt, k.runtimes[rt].callbacks)
    requires forall i | 0 <= i < |k.ran| :: k.ran[i].0 != rt
    ensures
      var k' := k.(ran := k.ran + [(rt, k.runtimes[rt].callbacks)]);
      KInv(k')
  {
    var k' := k.(ran := k.ran + [(rt, k.runtimes[rt].callbacks)]);
    assert forall f :: FinishOk(k, f) ==> FinishOk(k', f);
    assert forall x, n :: Over(k, x, n) ==> Over(k', x, n);
  }

  /** A deferred or fenced run of `finish` is over; nothing of this runtime has run yet. */
  lemma GivenUpTasks(k: Tasks, task: Task)
    requires KInv(k) && task in k.finishes && k.finishes[task].rt in k.runtimes
    ensures
      var rt := k.finishes[task].rt;
      && KInv(Scheduled(Ended(k, task), rt)) && KInv(Unregistered(Ended(k, task), rt))
      && (forall i | 0 <= i < |k.ran| :: k.ran[i].0 != rt)
  {
    var rt := k.finishes[task].rt;
    assert FinishOk(k, k.finishes[task]);
    forall i | 0 <= i < |k.ran|
      ensures k.ran[i].0 != rt
    {
      assert Over(k, k.ran[i].0, k.ran[i].1);
    }
    EndedTasks(k, task);
    ScheduledTasks(Ended(k, task), rt);
    UnregisteredTasks(Ended(k, task), rt);
  }

  lemma FenceTasks(k: Tasks, task: Task, ok: bool, row: Option<Row>)
    requires KInv(k) && task in k.finishes && k.finishes[task].rt in k.runtimes
    requires k.finishes[task].pc.ReadFence?
    ensures KInv(Finalized(k, task, ok, row))
  {
    var rt, attempt := k.finishes[task].rt, k.finishes[task].pc.attempt;
    assert FinishOk(k, k.finishes[task]);
    if !ok && attempt < FENCE_RETRIES {
      assert Finalized(k, task, ok, row) == Goto(k, task, ReadFence(attempt + 1));
      GotoTasks(k, task, ReadFence(attempt + 1));
    } else if ok && !Fenced(row, k.runtimes[rt]) {
      assert Finalized(k, task, ok, row) == Goto(k, task, Stop);
      GotoTasks(k, task, Stop);
    } else {
      GivenUpTasks(k, task);
    }
  }

  lemma StopTasks(k: Tasks, task: Task, ok: bool, row: Option<Row>)
    requires KInv(k) && task in k.finishes && k.finishes[task].rt in k.runtimes
    requires k.finishes[task].pc.Stop?
    ensures KInv(Finalized(k, task, ok, row))
  {
    var rt := k.finishes[task].rt;
    if ok {
      var torn := k.(torn := k.torn + {rt});
      TornTasks(k, rt);
      assert FinishOk(torn, torn.finishes[task]);
      GotoTasks(torn, task, Mark);
      assert Finalized(k, task, ok, row) == Goto(torn, task, Mark);
    } else {
      GivenUpTasks(k, task);
    }
  }

  lemma FinalizedTasks(k: Tasks, task: Task, ok: bool, row: Option<Row>)
    requires KInv(k) && task in k.finishes && k.finishes[task].rt in k.runtimes
    ensures KInv(Finalized(k, task, ok, row))
  {
    var Finish(rt, pc) := k.finishes[task];
    assert FinishOk(k, k.finishes[task]);
    if pc.ReadFence? {
      FenceTasks(k, task, ok, row);
    } else if pc.Stop? {
      StopTasks(k, task, ok, row);
    } else if pc.Mark? {
      GotoTasks(k, task, Drop);
    } else if pc.Drop? {
      UnregisteredTasks(k, rt);
      GotoTasks(Unregistered(k, rt), task, Release);
    } else if pc.Release? {
      GotoTasks(k, task, Callbacks);
      ReleasedTasks(Goto(k, task, Callbacks), rt);
    } else {
      GivenUpTasks(k, task);
      EndedTasks(k, task);
      RanTasks(Ended(k, task), rt);
    }
  }

  lemma ReleasedTasks(k: Tasks, rt: Runtime)
    requires KInv(k) && rt in k.torn
    ensures KInv(k.(released := k.released + [rt]))
  {
    var k' := k.(released := k.released + [rt]);
    assert forall f :: FinishOk(k, f) ==> FinishOk(k', f);
    assert forall x, n :: Over(k, x, n) ==> Over(k', x, n);
  }

  lemma StepTasks(live: set<Host>, s: Session, a: Action)
    requires KInv(s.tasks) && SessionStep(live, s, a).Some?
    ensures KInv(SessionStep(live, s, a).value.tasks)
  {
    match a
    case Register(h) => EnrolledTasks(s.tasks, h, s.claims[h].incarnation);
    case Kill(h) => KilledTasks(s.tasks, h);
    case Terminal(rt) => TerminatedTasks(s.tasks, rt);
    case TimerFires(timer) => FiredTasks(s.tasks, timer);
    case FinishStep(task, ok) => FinalizedTasks(s.tasks, task, ok, s.row);
    case _ =>
  }

  // ----- Ownership of the claim row -----

  /** What a task read earlier is outdated, still the row, or the row before its owner left. */
  ghost predicate Seen(row: Option<Row>, seen: Option<Row>) {
    && Incarnation(seen) <= Incarnation(row)
    && (Incarnation(seen) == Incarnation(row) ==> row == seen || (row.Some? && row.value.owner.None?))
  }

  ghost predicate ClaimOk(live: set<Host>, row: Option<Row>, h: Host, pc: ClaimPc) {
    match pc
    case ReadClaim => true
    case CheckHolder(holder) => Seen(row, Some(holder))
    case Swap(seen) =>
      && Seen(row, seen)
      && (seen.Some? && seen.value.owner.Some? && seen.value.owner.value != h ==> seen.value.owner.value !in live)
    case Holding(n) => 1 <= n <= Incarnation(row) && (h in live ==> row == Some(Row(Some(h), n)))
    case Releasing(n) => 1 <= n <= Incarnation(row)
  }

  predicate Held(pc: ClaimPc) {
    pc.Holding? || pc.Releasing?
  }

  /** Incarnations are handed out once. */
  ghost predicate IncarnationInv(row: Option<Row>, claims: map<Host, ClaimPc>, runtimes: map<Runtime, Info>) {
    && (row.Some? ==> row.value.incarnation >= 1)
    && (forall rt <- runtimes :: runtimes[rt].incarnation <= Incarnation(row))
    && (forall a, b | a in runtimes && b in runtimes && a != b :: runtimes[a].incarnation != runtimes[b].incarnation)
    && (forall h, rt | h in claims && rt in runtimes && Held(claims[h]) ::
          claims[h].incarnation != runtimes[rt].incarnation)
    && (forall g, h | g in claims && h in claims && g != h && Held(claims[g]) && Held(claims[h]) ::
          claims[g].incarnation != claims[h].incarnation)
  }

  /** A live host that never claimed over its own runtime owns the row at that runtime's incarnation. */
  ghost predicate OwnerOk(live: set<Host>, s: Session, h: Host) {
    h in s.tasks.registry && h !in s.overclaimed ==>
      && h !in s.claims
      && (h in live && s.tasks.registry[h] in s.tasks.runtimes ==>
            s.row == Some(Row(Some(h), s.tasks.runtimes[s.tasks.registry[h]].incarnation)))
  }

  ghost predicate OwnInv(live: set<Host>, s: Session) {
    && IncarnationInv(s.row, s.claims, s.tasks.runtimes)
    && (forall h <- s.claims :: ClaimOk(live, s.row, h, s.claims[h]))
    && (forall h :: OwnerOk(live, s, h))
  }

  /** Until it drops the entry, a run of `finish` belongs to the registered runtime. */
  ghost predicate StayOk(k: Tasks, overclaimed: set<Host>, rt: Runtime) {
    rt in k.runtimes && k.runtimes[rt].host !in overclaimed ==> Registered(k, rt)
  }

  ghost predicate StayFinish(k: Tasks, overclaimed: set<Host>, f: Finish) {
    f.pc.Release? || f.pc.Callbacks? || StayOk(k, overclaimed, f.rt)
  }

  ghost predicate StayInv(k: Tasks, overclaimed: set<Host>) {
    && (forall t <- k.finishes :: StayFinish(k, overclaimed, k.finishes[t]))
    && (forall t <- k.timers :: StayOk(k, overclaimed, k.timers[t]))
  }

  /** Recorded as stopped by a live host: its own incarnation owned the row. */
  ghost predicate MarkOk(k: Tasks, overclaimed: set<Host>, m: Stopped) {
    m.rt in k.runtimes
    && (m.live && k.runtimes[m.rt].host !in overclaimed ==>
          m.row == Some(Row(Some(k.runtimes[m.rt].host), k.runtimes[m.rt].incarnation)))
  }

  ghost predicate MarksOk(k: Tasks, overclaimed: set<Host>, marks: seq<Stopped>) {
    forall i | 0 <= i < |marks| :: MarkOk(k, overclaimed, marks[i])
  }

  ghost predicate SessionInv(live: set<Host>, s: Session) {
    && KInv(s.tasks)
    && OwnInv(live, s)
    && StayInv(s.tasks, s.overclaimed)
    && MarksOk(s.tasks, s.overclaimed, s.marks)
  }

  /** A swap that succeeds takes the row from nobody who is alive. */
  lemma SwapOwns(live: set<Host>, s: Session, h: Host, larger: nat)
    requires SessionInv(live, s) && h in s.claims && s.claims[h].Swap?
    requires Incarnation(s.row) == Incarnation(s.claims[h].seen) && larger > Incarnation(s.row)
    ensures OwnInv(live, s.(row := Some(Row(Some(h), larger)), claims := s.claims[h := Holding(larger)]))
    ensures OwnInv(live, s.(row := Some(Row(Some(h), larger)), claims := s.claims - {h}))
  {
    var row := Some(Row(Some(h), larger));
    assert ClaimOk(live, s.row, h, s.claims[h]);
    assert s.row.Some? && s.row.value.owner.Some? && s.row.value.owner.value != h ==> s.row.value.owner.value !in live;
    forall g | g in s.claims && g != h
      ensures ClaimOk(live, row, g, s.claims[g]) && (Held(s.claims[g]) ==> s.claims[g].incarnation < larger)
    {
      assert ClaimOk(live, s.row, g, s.claims[g]);
    }
    var s1, s2 := s.(row := row, claims := s.claims[h := Holding(larger)]), s.(row := row, claims := s.claims - {h});
    forall g
      ensures OwnerOk(live, s1, g) && OwnerOk(live, s2, g)
    {
      assert OwnerOk(live, s, g);
    }
    assert IncarnationInv(row, s1.claims, s.tasks.runtimes);
    assert forall g <- s1.claims :: ClaimOk(live, row, g, s1.claims[g]);
  }

  /** A release clears the row only for an incarnation nobody holds or registers any more. */
  lemma ReleaseOwns(live: set<Host>, s: Session, h: Host, n: nat)
    requires SessionInv(live, s)
    requires forall g <- s.claims :: s.claims[g].Holding? ==> g != h || s.claims[g].incarnation != n
    requires h in s.tasks.registry && s.tasks.registry[h] in s.tasks.runtimes && h !in s.overclaimed
             ==> s.tasks.runtimes[s.tasks.registry[h]].incarnation != n
    ensures OwnInv(live, s.(row := ReleasedRow(s.row, h, n)))
  {
    var s' := s.(row := ReleasedRow(s.row, h, n));
    forall g <- s.claims
      ensures ClaimOk(live, s'.row, g, s.claims[g])
    {
      assert ClaimOk(live, s.row, g, s.claims[g]);
    }
    forall g
      ensures OwnerOk(live, s', g)
    {
      assert OwnerOk(live, s, g);
    }
  }

  lemma FewerClaimsOwn(live: set<Host>, s: Session, h: Host)
    requires OwnInv(live, s)
    ensures OwnInv(live, s.(claims := s.claims - {h}))
  {
    var s' := s.(claims := s.claims - {h});
    forall g
      ensures OwnerOk(live, s', g)
    {
      assert OwnerOk(live, s, g);
    }
  }

  /** A claim task moves on without touching the row. */
  lemma MovedClaimOwns(live: set<Host>, s: Session, h: Host, pc: ClaimPc)
    requires OwnInv(live, s) && h in s.claims && ClaimOk(live, s.row, h, pc)
    requires Held(pc) ==> Held(s.claims[h]) && s.claims[h].incarnation == pc.incarnation
    ensures OwnInv(live, s.(claims := s.claims[h := pc]))
  {
    var s' := s.(claims := s.claims[h := pc]);
    forall g
      ensures OwnerOk(live, s', g)
    {
      assert OwnerOk(live, s, g);
    }
  }

  lemma StartOwns(live: set<Host>, s: Session, h: Host, kind: Kind)
    requires SessionInv(live, s) && ClaimStep(live, s, StartClaim(h, kind)).Some?
    ensures SessionInv(live, ClaimStep(live, s, StartClaim(h, kind)).value)
  {
    var s' := ClaimStep(live, s, StartClaim(h, kind)).value;
    forall g
      ensures OwnerOk(live, s', g)
    {
      assert OwnerOk(live, s, g);
    }
    assert forall m :: MarkOk(s.tasks, s.overclaimed, m) ==> MarkOk(s.tasks, s'.overclaimed, m);
    assert forall rt :: StayOk(s.tasks, s.overclaimed, rt) ==> StayOk(s.tasks, s'.overclaimed, rt);
  }

  lemma RegisterStays(k: Tasks, overclaimed: set<Host>, h: Host, n: nat)
    requires KInv(k) && StayInv(k, overclaimed) && (h in k.registry ==> h in overclaimed)
    ensures StayInv(Enrolled(k, h, n), overclaimed)
    ensures forall m :: MarkOk(k, overclaimed, m) ==> MarkOk(Enrolled(k, h, n), overclaimed, m)
  {
    var k' := Enrolled(k, h, n);
    assert forall rt :: rt in k.runtimes && StayOk(k, overclaimed, rt) ==> StayOk(k', overclaimed, rt);
    forall t <- k'.finishes
      ensures StayFinish(k', overclaimed, k'.finishes[t])
    {
      assert FinishOk(k, k.finishes[t]) && StayFinish(k, overclaimed, k.finishes[t]);
    }
    forall t <- k'.timers
      ensures StayOk(k', overclaimed, k'.timers[t])
    {
      assert TimerOk(k, k.timers[t]) && StayOk(k, overclaimed, k.timers[t]);
    }
  }

  lemma RegisterOwns(live: set<Host>, s: Session, h: Host)
    requires SessionInv(live, s) && h in s.claims && s.claims[h].Holding?
    ensures OwnInv(live, ClaimStep(live, s, Register(h)).value)
  {
    var s' := ClaimStep(live, s, Register(h)).value;
    assert ClaimOk(live, s.row, h, s.claims[h]);
    assert forall rt <- s.tasks.runtimes :: rt < s.tasks.ids;
    forall g
      ensures OwnerOk(live, s', g)
    {
      assert OwnerOk(live, s, g);
    }
  }

  lemma RegisterKeeps(live: set<Host>, s: Session, h: Host)
    requires SessionInv(live, s) && h in s.claims && s.claims[h].Holding?
    ensures SessionInv(live, ClaimStep(live, s, Register(h)).value)
  {
    assert OwnerOk(live, s, h);
    RegisterStays(s.tasks, s.overclaimed, h, s.claims[h].incarnation);
    RegisterOwns(live, s, h);
    EnrolledTasks(s.tasks, h, s.claims[h].incarnation);
  }

  lemma ClaimKeeps(live: set<Host>, s: Session, a: Action)
    requires SessionInv(live, s) && ClaimStep(live, s, a).Some?
    ensures SessionInv(live, ClaimStep(live, s, a).value)
  {
    if a.StartClaim? {
      StartOwns(live, s, a.h, a.kind);
    } else if a.Register? {
      RegisterKeeps(live, s, a.h);
    } else {
      var h := a.h;
      assert ClaimOk(live, s.row, h, s.claims[h]);
      FewerClaimsOwn(live, s, h);
      match a
      case ClaimRead(_, ok) =>
        if s.row.Some? && s.row.value.owner.Some? && s.row.value.owner.value != h {
          MovedClaimOwns(live, s, h, CheckHolder(s.row.value));
        } else {
          MovedClaimOwns(live, s, h, Swap(s.row));
        }
      case ClaimCheck(_, ok) =>
        var holder := s.claims[h].holder;
        if !(holder.owner.Some? && holder.owner.value in live) {
          MovedClaimOwns(live, s, h, Swap(Some(holder)));
        }
      case ClaimSwap(_, larger, effect, _) =>
        if effect && Incarnation(s.row) == Incarnation(s.claims[h].seen) {
          SwapOwns(live, s, h, larger);
        }
      case ClaimFails(_) => MovedClaimOwns(live, s, h, Releasing(s.claims[h].incarnation));
      case ClaimRelease(_, ok) =>
        if ok {
          assert OwnerOk(live, s, h);
          ReleaseOwns(live, s, h, s.claims[h].incarnation);
          FewerClaimsOwn(live, s.(row := ReleasedRow(s.row, h, s.claims[h].incarnation)), h);
        }
    }
  }

  /** Same runtimes, and no registry entry that was not there. */
  ghost predicate SameRuntimes(k: Tasks, k': Tasks) {
    && k.runtimes.Keys == k'.runtimes.Keys
    && (forall rt <- k.runtimes :: k.runtimes[rt].host == k'.runtimes[rt].host
                                   && k.runtimes[rt].incarnation == k'.runtimes[rt].incarnation)
    && (forall h <- k'.registry :: h in k.registry && k.registry[h] == k'.registry[h])
  }

  lemma SameRuntimesOwn(live: set<Host>, s: Session, k': Tasks)
    requires OwnInv(live, s) && SameRuntimes(s.tasks, k')
    ensures OwnInv(live, s.(tasks := k'))
    ensures forall m :: MarkOk(s.tasks, s.overclaimed, m) ==> MarkOk(k', s.overclaimed, m)
  {
    var s' := s.(tasks := k');
    forall g
      ensures OwnerOk(live, s', g)
    {
      assert OwnerOk(live, s, g);
    }
  }

  /** Registrations that stay put keep every task where it was. */
  lemma StillStays(k: Tasks, k': Tasks, overclaimed: set<Host>)
    requires SameRuntimes(k, k') && k'.registry == k.registry
    ensures forall rt :: StayOk(k, overclaimed, rt) ==> StayOk(k', overclaimed, rt)
    ensures forall f :: StayFinish(k, overclaimed, f) ==> StayFinish(k', overclaimed, f)
  {
  }

  lemma KilledStays(k: Tasks, overclaimed: set<Host>, rt: Runtime)
    requires TaskInv(k) && StayInv(k, overclaimed) && rt in k.runtimes
    ensures SameRuntimes(k, Killed(k, rt)) && StayInv(Killed(k, rt), overclaimed)
  {
    StillStays(k, Killed(k, rt), overclaimed);
  }

  lemma TerminatedStays(k: Tasks, overclaimed: set<Host>, rt: Runtime)
    requires TaskInv(k) && StayInv(k, overclaimed) && rt in k.runtimes
    ensures SameRuntimes(k, Terminated(k, rt)) && StayInv(Terminated(k, rt), overclaimed)
  {
    StillStays(k, Terminated(k, rt), overclaimed);
  }

  lemma FiredStays(k: Tasks, overclaimed: set<Host>, timer: Task)
    requires TaskInv(k) && StayInv(k, overclaimed) && timer in k.timers && k.timers[timer] in k.runtimes
    ensures SameRuntimes(k, Fired(k, timer)) && StayInv(Fired(k, timer), overclaimed)
  {
    StillStays(k, Fired(k, timer), overclaimed);
  }

  lemma SignalStays(live: set<Host>, s: Session, a: Action)
    requires TaskInv(s.tasks) && StayInv(s.tasks, s.overclaimed)
    requires !a.FinishStep? && RuntimeStep(live, s, a).Some?
    ensures
      var s' := RuntimeStep(live, s, a).value;
      && SameRuntimes(s.tasks, s'.tasks) && StayInv(s'.tasks, s.overclaimed)
      && s' == s.(tasks := s'.tasks)
  {
    match a
    case Kill(h) => KilledStays(s.tasks, s.overclaimed, s.tasks.registry[h]);
    case Terminal(rt) => TerminatedStays(s.tasks, s.overclaimed, rt);
    case TimerFires(timer) => FiredStays(s.tasks, s.overclaimed, timer);
  }

  lemma SignalKeeps(live: set<Host>, s: Session, a: Action)
    requires SessionInv(live, s) && !a.FinishStep? && RuntimeStep(live, s, a).Some?
    ensures SessionInv(live, RuntimeStep(live, s, a).value)
  {
    SignalStays(live, s, a);
    SameRuntimesOwn(live, s, RuntimeStep(live, s, a).value.tasks);
    StepTasks(live, s, a);
  }

  /** Dropping a registry entry takes it from its own runtime, and only that one's tasks lived by it. */
  lemma DropStays(k: Tasks, overclaimed: set<Host>, task: Task)
    requires TaskInv(k) && StayInv(k, overclaimed) && task in k.finishes && k.finishes[task].rt in k.runtimes
    ensures
      var rt := k.finishes[task].rt;
      && StayInv(Goto(Unregistered(k, rt), task, Release), overclaimed)
      && StayInv(Unregistered(Ended(k, task), rt), overclaimed)
  {
    var rt := k.finishes[task].rt;
    assert FinishOk(k, k.finishes[task]);
    var k' := Unregistered(k, rt);
    assert forall x :: x != rt && StayOk(k, overclaimed, x) ==> StayOk(k', overclaimed, x);
    assert forall t <- k.finishes :: t != task ==> StayFinish(k', overclaimed, k.finishes[t]);
    forall t <- k.timers
      ensures StayOk(k', overclaimed, k.timers[t])
    {
      assert TimerOk(k, k.timers[t]);
    }
    var k1, k2 := Goto(k', task, Release), Unregistered(Ended(k, task), rt);
    StillStays(k', k1, overclaimed);
    StillStays(k', k2, overclaimed);
  }

  lemma DeferStays(k: Tasks, overclaimed: set<Host>, task: Task)
    requires TaskInv(k) && StayInv(k, overclaimed) && task in k.finishes
    requires k.finishes[task].pc.ReadFence? || k.finishes[task].pc.Stop?
    ensures k.finishes[task].rt in k.runtimes && StayInv(Scheduled(Ended(k, task), k.finishes[task].rt), overclaimed)
  {
    assert FinishOk(k, k.finishes[task]);
    assert StayFinish(k, overclaimed, k.finishes[task]);
    StillStays(k, Scheduled(Ended(k, task), k.finishes[task].rt), overclaimed);
  }

  lemma GotoStays(k: Tasks, k': Tasks, overclaimed: set<Host>, task: Task, pc: FinishPc)
    requires StayInv(k, overclaimed) && task in k.finishes && SameRuntimes(k, k')
    requires k'.registry == k.registry && k'.timers == k.timers
    requires k'.finishes == k.finishes[task := k.finishes[task].(pc := pc)] || k'.finishes == k.finishes - {task}
    requires k.finishes[task].pc.Release? ==> pc.Callbacks?
    requires !k.finishes[task].pc.Callbacks?  || k'.finishes == k.finishes - {task}
    ensures StayInv(k', overclaimed)
  {
    StillStays(k, k', overclaimed);
    assert StayFinish(k, overclaimed, k.finishes[task]);
  }

  lemma FinalizedStays(k: Tasks, overclaimed: set<Host>, task: Task, ok: bool, row: Option<Row>)
    requires TaskInv(k) && StayInv(k, overclaimed) && task in k.finishes && k.finishes[task].rt in k.runtimes
    ensures StayInv(Finalized(k, task, ok, row), overclaimed)
    ensures SameRuntimes(k, Finalized(k, task, ok, row))
  {
    var Finish(rt, pc) := k.finishes[task];
    var k' := Finalized(k, task, ok, row);
    match pc
    case ReadFence(attempt) =>
      if !ok && attempt < FENCE_RETRIES {
        GotoStays(k, k', overclaimed, task, ReadFence(attempt + 1));
      } else if !ok {
        DeferStays(k, overclaimed, task);
      } else if Fenced(row, k.runtimes[rt]) {
        DropStays(k, overclaimed, task);
      } else {
        GotoStays(k, k', overclaimed, task, Stop);
      }
    case Stop =>
      if ok {
        GotoStays(k, k', overclaimed, task, Mark);
      } else {
        DeferStays(k, overclaimed, task);
      }
    case Mark => GotoStays(k, k', overclaimed, task, Drop);
    case Drop => DropStays(k, overclaimed, task);
    case _ => GotoStays(k, k', overclaimed, task, Callbacks);
  }

  /** What a live host records as stopped is owned by the runtime it stops. */
  lemma NewMark(live: set<Host>, s: Session, task: Task)
    requires SessionInv(live, s) && task in s.tasks.finishes && s.tasks.finishes[task].pc.Mark?
    ensures
      var rt := s.tasks.finishes[task].rt;
      rt in s.tasks.runtimes
      && MarkOk(s.tasks, s.overclaimed, Stopped(rt, s.row, s.tasks.runtimes[rt].host in live))
  {
    var rt := s.tasks.finishes[task].rt;
    assert FinishOk(s.tasks, s.tasks.finishes[task]);
    assert StayFinish(s.tasks, s.overclaimed, s.tasks.finishes[task]);
    assert OwnerOk(live, s, s.tasks.runtimes[rt].host);
  }

  lemma NewRow(live: set<Host>, s: Session, task: Task)
    requires SessionInv(live, s) && task in s.tasks.finishes && s.tasks.finishes[task].pc.Release?
    ensures
      var rt := s.tasks.finishes[task].rt;
      rt in s.tasks.runtimes
      && OwnInv(live, s.(row := ReleasedRow(s.row, s.tasks.runtimes[rt].host, s.tasks.runtimes[rt].incarnation)))
  {
    var rt := s.tasks.finishes[task].rt;
    assert FinishOk(s.tasks, s.tasks.finishes[task]);
    ReleaseOwns(live, s, s.tasks.runtimes[rt].host, s.tasks.runtimes[rt].incarnation);
  }

  lemma MarksAreMemory(live: set<Host>, s: Session, marks: seq<Stopped>)
    requires OwnInv(live, s)
    ensures OwnInv(live, s.(marks := marks))
  {
    var s' := s.(marks := marks);
    forall g
      ensures OwnerOk(live, s', g)
    {
      assert OwnerOk(live, s, g);
    }
  }

  lemma FinishKeeps(live: set<Host>, s: Session, task: Task, ok: bool)
    requires SessionInv(live, s) && task in s.tasks.finishes && s.tasks.finishes[task].rt in s.tasks.runtimes
    ensures SessionInv(live, FinishStepOf(live, s, task, ok))
  {
    var s' := FinishStepOf(live, s, task, ok);
    FinalizedStays(s.tasks, s.overclaimed, task, ok, s.row);
    if s.tasks.finishes[task].pc.Release? {
      NewRow(live, s, task);
    }
    if s.tasks.finishes[task].pc.Mark? {
      NewMark(live, s, task);
    }
    MarksAreMemory(live, s.(row := s'.row), s'.marks);
    SameRuntimesOwn(live, s.(row := s'.row, marks := s'.marks), s'.tasks);
    FinalizedTasks(s.tasks, task, ok, s.row);
  }

  lemma SessionKeeps(live: set<Host>, s: Session, a: Action)
    requires SessionInv(live, s) && SessionStep(live, s, a).Some?
    ensures SessionInv(live, SessionStep(live, s, a).value)
  {
    if a.FinishStep? {
      FinishKeeps(live, s, a.task, a.ok);
    } else if a.Kill? || a.Terminal? || a.TimerFires? {
      SignalKeeps(live, s, a);
    } else {
      ClaimKeeps(live, s, a);
    }
  }

  /** A lapsed lease only weakens what live hosts are owed. */
  lemma LapseKeeps(live: set<Host>, live': set<Host>, s: Session)
    requires SessionInv(live, s) && live' <= live
    ensures SessionInv(live', s)
  {
    forall h <- s.claims
      ensures ClaimOk(live', s.row, h, s.claims[h])
    {
      assert ClaimOk(live, s.row, h, s.claims[h]);
    }
    forall h
      ensures OwnerOk(live', s, h)
    {
      assert OwnerOk(live, s, h);
    }
  }

  // ----- Every history -----

  ghost predicate Inv(w: World) {
    forall id <- w.sessions :: SessionInv(w.live, w.sessions[id])
  }

  lemma NextKeeps(w: World, w': World)
    requires Inv(w) && Next(w, w')
    ensures Inv(w') && w'.live <= w.live && w'.sessions.Keys == w.sessions.Keys
  {
    var e :| Step(w, e) == Some(w');
    forall id <- w'.sessions
      ensures SessionInv(w'.live, w'.sessions[id])
    {
      EventKeeps(w, e, id);
    }
  }

  lemma EventKeeps(w: World, e: Event, id: SessionId)
    requires id in w.sessions && SessionInv(w.live, w.sessions[id]) && Step(w, e).Some?
    ensures SessionInv(Step(w, e).value.live, Step(w, e).value.sessions[id])
  {
    if e.LeaseLapses? {
      LapseKeeps(w.live, w.live - {e.h}, w.sessions[id]);
    } else if e.id == id {
      SessionKeeps(w.live, w.sessions[id], e.action);
    }
  }

  lemma {:induction false} HistoryKeeps(h: seq<World>, i: nat)
    requires History(h) && i < |h|
    ensures Inv(h[i])
  {
    if i > 0 {
      HistoryKeeps(h, i - 1);
      assert NextAt(h, i - 1);
      NextKeeps(h[i - 1], h[i]);
    } else {
      forall id <- h[0].sessions
        ensures SessionInv(h[0].live, h[0].sessions[id])
      {
      }
    }
  }

  /**
   Two hosts with live leases never both have a runtime registered for a session, as long as
   neither started a claim over a runtime it had registered.
   */
  lemma SingleOwner(h: seq<World>, i: nat, id: SessionId, a: Host, b: Host)
    requires History(h) && i < |h| && id in h[i].sessions
    requires {a, b} <= h[i].live && {a, b} <= h[i].sessions[id].tasks.registry.Keys
    requires {a, b} !! h[i].sessions[id].overclaimed
    ensures a == b
  {
    HistoryKeeps(h, i);
    var s := h[i].sessions[id];
    assert OwnerOk(h[i].live, s, a) && OwnerOk(h[i].live, s, b);
  }

  /** The registered runtime of a live host is the one the claim row names. */
  lemma RegistryMatchesRow(h: seq<World>, i: nat, id: SessionId, a: Host)
    requires History(h) && i < |h| && id in h[i].sessions
    requires a in h[i].live && a in h[i].sessions[id].tasks.registry && a !in h[i].sessions[id].overclaimed
    ensures
      var s := h[i].sessions[id];
      var rt := s.tasks.registry[a];
      rt in s.tasks.runtimes && s.row == Some(Row(Some(a), s.tasks.runtimes[rt].incarnation))
  {
    HistoryKeeps(h, i);
    assert OwnerOk(h[i].live, h[i].sessions[id], a);
  }

  /** "Stopped" is recorded by a live host only while its own incarnation owns the row. */
  lemma StoppedOnlyWhileOwner(h: seq<World>, i: nat, id: SessionId, j: nat)
    requires History(h) && i < |h| && id in h[i].sessions && j < |h[i].sessions[id].marks|
    ensures
      var s := h[i].sessions[id];
      var m := s.marks[j];
      && m.rt in s.tasks.runtimes
      && (m.live && s.tasks.runtimes[m.rt].host !in s.overclaimed ==>
            m.row == Some(Row(Some(s.tasks.runtimes[m.rt].host), s.tasks.runtimes[m.rt].incarnation)))
  {
    HistoryKeeps(h, i);
    assert MarkOk(h[i].sessions[id].tasks, h[i].sessions[id].overclaimed, h[i].sessions[id].marks[j]);
  }

  lemma FinalizedRegistry(k: Tasks, task: Task, ok: bool, row: Option<Row>)
    requires task in k.finishes && k.finishes[task].rt in k.runtimes
    ensures
      var rt := k.finishes[task].rt;
      var host := k.runtimes[rt].host;
      var after := Finalized(k, task, ok, row);
      || after.registry == k.registry
      || (host in k.registry && k.registry[host] == rt && after.registry == k.registry - {host})
  {
  }

  /**
   A run of `finish` removes no registry entry but its own and clears no claim but its own; a release
   that is written clears that claim if the row still names it.
   */
  lemma FinishTouchesOnlyItsOwn(live: set<Host>, s: Session, task: Task, ok: bool)
    requires SessionInv(live, s) && task in s.tasks.finishes
    ensures
      var s' := FinishStepOf(live, s, task, ok);
      var rt := s.tasks.finishes[task].rt;
      var info := s.tasks.runtimes[rt];
      && s'.claims == s.claims
      && (s'.tasks.registry == s.tasks.registry
          || (info.host in s.tasks.registry && s.tasks.registry[info.host] == rt
              && s'.tasks.registry == s.tasks.registry - {info.host}))
      && (s'.row == s.row
          || (s.row == Some(Row(Some(info.host), info.incarnation)) && s'.row == Some(Row(None, info.incarnation))
              && rt in s.tasks.torn))
      && (s.tasks.finishes[task].pc.Release? && ok && s.row == Some(Row(Some(info.host), info.incarnation)) ==>
            s'.row == Some(Row(None, info.incarnation)))
      && s'.tasks.released == s.tasks.released + if s.tasks.finishes[task].pc.Release? then [rt] else []
  {
    assert FinishOk(s.tasks, s.tasks.finishes[task]);
    FinalizedRegistry(s.tasks, task, ok, s.row);
  }

  /** The row does not name the runtime's host at the runtime's incarnation, and never will again. */
  ghost predicate LetGo(s: Session, rt: Runtime) {
    && rt in s.tasks.runtimes
    && s.row != Some(Row(Some(s.tasks.runtimes[rt].host), s.tasks.runtimes[rt].incarnation))
    && s.tasks.runtimes[rt].incarnation <= Incarnation(s.row)
  }

  lemma ReleaseLetsGo(live: set<Host>, s: Session, task: Task)
    requires SessionInv(live, s) && task in s.tasks.finishes && s.tasks.finishes[task].pc.Release?
    ensures LetGo(FinishStepOf(live, s, task, true), s.tasks.finishes[task].rt)
  {
    assert FinishOk(s.tasks, s.tasks.finishes[task]);
    FinishTouchesOnlyItsOwn(live, s, task, true);
  }

  lemma FinalizedInfo(k: Tasks, task: Task, ok: bool, row: Option<Row>, rt: Runtime)
    requires task in k.finishes && k.finishes[task].rt in k.runtimes && rt in k.runtimes
    ensures var after := Finalized(k, task, ok, row).runtimes;
            rt in after && after[rt].host == k.runtimes[rt].host && after[rt].incarnation == k.runtimes[rt].incarnation
  {
  }

  lemma LetGoStays(live: set<Host>, s: Session, a: Action, rt: Runtime)
    requires SessionInv(live, s) && LetGo(s, rt) && SessionStep(live, s, a).Some?
    ensures LetGo(SessionStep(live, s, a).value, rt)
  {
    if a.FinishStep? {
      FinishTouchesOnlyItsOwn(live, s, a.task, a.ok);
      FinalizedInfo(s.tasks, a.task, a.ok, s.row, rt);
    } else if a.Kill? || a.Terminal? || a.TimerFires? {
      SignalStays(live, s, a);
    } else {
      assert rt < s.tasks.ids;
    }
  }

  lemma LetGoNext(h: seq<World>, i: nat, id: SessionId, rt: Runtime)
    requires History(h) && i + 1 < |h| && id in h[i].sessions && LetGo(h[i].sessions[id], rt)
    ensures id in h[i + 1].sessions && LetGo(h[i + 1].sessions[id], rt)
  {
    HistoryKeeps(h, i);
    assert NextAt(h, i);
    var e :| Step(h[i], e) == Some(h[i + 1]);
    if e.InSession? && e.id == id {
      LetGoStays(h[i].live, h[i].sessions[id], e.action, rt);
    }
  }

  /** A claim that was released is never held again at that incarnation. */
  lemma {:induction false} LetGoForGood(h: seq<World>, i: nat, j: nat, id: SessionId, rt: Runtime)
    requires History(h) && i <= j < |h| && id in h[i].sessions && LetGo(h[i].sessions[id], rt)
    ensures id in h[j].sessions && LetGo(h[j].sessions[id], rt)
    decreases j - i
  {
    if i < j {
      LetGoForGood(h, i, j - 1, id, rt);
      LetGoNext(h, j - 1, id, rt);
    }
  }

  /** At most one `finish` per runtime is running or scheduled. */
  lemma OneFinishPerRuntime(h: seq<World>, i: nat, id: SessionId, t: Task, u: Task)
    requires History(h) && i < |h| && id in h[i].sessions
    ensures
      var k := h[i].sessions[id].tasks;
      && (t in k.finishes && u in k.finishes && k.finishes[t].rt == k.finishes[u].rt ==> t == u)
      && (t in k.timers && u in k.timers && k.timers[t] == k.timers[u] ==> t == u)
      && (t in k.finishes && u in k.timers ==> k.finishes[t].rt != k.timers[u])
  {
    HistoryKeeps(h, i);
    var k := h[i].sessions[id].tasks;
    if t in k.finishes && u in k.timers {
      assert FinishOk(k, k.finishes[t]) && TimerOk(k, k.timers[u]);
    }
  }

  /**
   Exit callbacks run at most once, all that were ever pushed, and together with the claim
   release only after the driver stopped the runtime.
   */
  lemma CallbacksRunOnce(h: seq<World>, i: nat, id: SessionId)
    requires History(h) && i < |h| && id in h[i].sessions
    ensures
      var k := h[i].sessions[id].tasks;
      && (forall a, b | 0 <= a < b < |k.ran| :: k.ran[a].0 != k.ran[b].0)
      && (forall a | 0 <= a < |k.ran| :: k.ran[a].0 in k.runtimes && k.ran[a].1 == k.runtimes[k.ran[a].0].callbacks
                                         && k.ran[a].0 in k.torn)
      && (forall rt <- k.released :: rt in k.torn)
  {
    HistoryKeeps(h, i);
    var k := h[i].sessions[id].tasks;
    assert forall a | 0 <= a < |k.ran| :: Over(k, k.ran[a].0, k.ran[a].1);
  }
}
