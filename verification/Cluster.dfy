/**
 One task of one host, between two awaits of src/container-runner.ts: it takes a step of the claim
 protocol, and at each await every other task of every host may go on.
 */
module Cluster {
  import opened Wrappers
  import opened Claims
  import Safety = ClaimsSafety

  /** The claim of one session by one host. */
  type Slot = (SessionId, Host)

  /**
   The history so far; the slots in which only the running task starts a claim, because a wake or
   the startup adoption is under way there; and those of them that began without a runtime.
   */
  datatype Past = Past(h: seq<World>, held: set<Slot>, bare: set<Slot>)

  predicate Free(w: World, slot: Slot) {
    slot.0 in w.sessions && slot.1 !in w.sessions[slot.0].claims
  }

  predicate NotRunning(w: World, slot: Slot) {
    slot.0 in w.sessions && slot.1 !in w.sessions[slot.0].tasks.registry
  }

  predicate Starts(e: Event, slot: Slot) {
    e.InSession? && e.id == slot.0 && e.action.StartClaim? && e.action.h == slot.1
  }

  /** A claim starts, and a runtime is registered, in no other way. */
  lemma StaysFree(w: World, e: Event, slot: Slot)
    requires Free(w, slot) && Step(w, e).Some? && !Starts(e, slot)
    ensures Free(Step(w, e).value, slot)
    ensures NotRunning(w, slot) ==> NotRunning(Step(w, e).value, slot)
  {
    if e.InSession? && e.id == slot.0 {
      var s := w.sessions[slot.0];
      match e.action
      case FinishStep(task, ok) => Safety.FinalizedRegistry(s.tasks, task, ok, s.row);
      case _ =>
    }
  }

  /**
   The claim table and the hosts, as one task of one host finds them. On a calm one nothing else goes
   on and whatever is asked for succeeds.
   */
  class Cluster {
    const calm: bool
    var s: World
    var past: Past

    ghost predicate Valid()
      reads this
    {
      && History(past.h) && past.h[|past.h| - 1] == s && past.bare <= past.held
      && (forall slot <- past.held :: Free(s, slot))
      && (forall slot <- past.bare :: NotRunning(s, slot))
    }

    /** Time has passed, and no held slot was touched. */
    ghost predicate Onward(before: Past)
      reads this
    {
      Valid() && before.h <= past.h && past.held == before.held && past.bare == before.bare
    }

    constructor (calm: bool, s: World)
      requires Init(s)
      ensures Valid() && this.calm == calm && this.s == s && past == Past([s], {}, {})
    {
      this.calm, this.s := calm, s;
      past := Past([s], {}, {});
    }

    method Take(e: Event)
      requires Valid() && Step(s, e).Some? && forall slot <- past.held :: !Starts(e, slot)
      modifies this
      ensures Onward(old(past)) && s == Step(old(s), e).value
    {
      var next := Step(s, e).value;
      var longer := past.h + [next];
      forall i: nat | i + 1 < |longer|
        ensures NextAt(longer, i)
      {
        if i + 1 < |past.h| {
          assert NextAt(past.h, i);
        } else {
          assert Step(longer[i], e) == Some(longer[i + 1]);
        }
      }
      forall slot <- past.held
        ensures Free(next, slot) && (slot in past.bare ==> NotRunning(next, slot))
      {
        StaysFree(s, e, slot);
      }
      s, past := next, past.(h := longer);
    }

    /** Whether a driver, a store or a gateway does what it is asked for. */
    method Works() returns (ok: bool)
      ensures calm ==> ok
    {
      ok := *;
      ok := ok || calm;
    }

    /** The task takes a slot for itself. */
    method Hold(slot: Slot)
      requires Valid() && Free(s, slot)
      modifies this`past
      ensures Valid()
      ensures past == old(past).(held := old(past.held) + {slot},
                                 bare := old(past.bare) + if NotRunning(s, slot) then {slot} else {})
    {
      past := past.(held := past.held + {slot}, bare := past.bare + if NotRunning(s, slot) then {slot} else {});
    }

    method Yield(slot: Slot)
      requires Valid()
      modifies this`past
      ensures Valid() && past == old(past).(held := old(past.held) - {slot}, bare := old(past.bare) - {slot})
    {
      past := past.(held := past.held - {slot}, bare := past.bare - {slot});
    }

    /** The run of `finish` called `task` is at this point. */
    predicate At(id: SessionId, task: Task, f: Finish)
      reads this
    {
      FinishAt(s, id, task, f)
    }

    /** Everything but this run of `finish` may go on. */
    method WhileFinishing(id: SessionId, task: Task, f: Finish)
      requires Valid() && At(id, task, f)
      modifies this
      ensures Onward(old(past)) && At(id, task, f) && (calm ==> s == old(s))
    {
      if calm {
        return;
      }
      var n: int := *;
      for i := 0 to if n < 0 then 0 else n
        invariant Onward(old(past)) && At(id, task, f)
      {
        var e: Event := *;
        if Step(s, e).Some? && !OwnFinish(e, id, task) && Elsewhere(e) {
          Now();
          TasksOk(s, id);
          OthersKeepFinish(s, e, id, task, f);
          Take(e);
        }
      }
    }

    predicate Claiming(id: SessionId, host: Host, pc: ClaimPc)
      reads this
    {
      ClaimAt(s, id, host, pc)
    }

    /** Everything but this host's claim of the session may go on. */
    method WhileClaiming(id: SessionId, host: Host, pc: ClaimPc)
      requires Valid() && Claiming(id, host, pc)
      modifies this
      ensures Onward(old(past)) && Claiming(id, host, pc) && (calm ==> s == old(s))
    {
      if calm {
        return;
      }
      var n: int := *;
      for i := 0 to if n < 0 then 0 else n
        invariant Onward(old(past)) && Claiming(id, host, pc)
      {
        var e: Event := *;
        if Step(s, e).Some? && !OwnClaim(e, id, host) && Elsewhere(e) {
          OthersKeepClaim(s, e, id, host, pc);
          Take(e);
        }
      }
    }

    /** Everything may go on while the driver is awaited. */
    method WhileWaiting()
      requires Valid()
      modifies this
      ensures Onward(old(past)) && (calm ==> s == old(s))
    {
      if calm {
        return;
      }
      var n: int := *;
      for i := 0 to if n < 0 then 0 else n
        invariant Onward(old(past))
      {
        var e: Event := *;
        if Step(s, e).Some? && Elsewhere(e) {
          Take(e);
        }
      }
    }

    predicate Elsewhere(e: Event)
      reads this
    {
      forall slot <- past.held :: !Starts(e, slot)
    }

    lemma Now()
      requires Valid()
      ensures Safety.Inv(s)
    {
      Safety.HistoryKeeps(past.h, |past.h| - 1);
    }
  }

  predicate Known(w: World, id: SessionId, rt: Runtime) {
    id in w.sessions && rt in w.sessions[id].tasks.runtimes
  }

  predicate IsFinished(w: World, id: SessionId, rt: Runtime) {
    Known(w, id, rt) && w.sessions[id].tasks.runtimes[rt].finished
  }

  /** How many exit callbacks were pushed on a runtime. */
  function Pushed(w: World, id: SessionId, rt: Runtime): nat
    requires Known(w, id, rt)
  {
    w.sessions[id].tasks.runtimes[rt].callbacks
  }

  lemma StaysKnown(w: World, e: Event, id: SessionId, rt: Runtime)
    requires Known(w, id, rt) && Safety.KInv(w.sessions[id].tasks) && Step(w, e).Some?
    ensures Known(Step(w, e).value, id, rt) && Pushed(w, id, rt) <= Pushed(Step(w, e).value, id, rt)
    ensures IsFinished(w, id, rt) ==> IsFinished(Step(w, e).value, id, rt)
  {
    if e.InSession? && e.id == id {
      var s := w.sessions[id];
      match e.action
      case FinishStep(task, ok) => RuntimesKept(s.tasks, task, ok, s.row);
      case _ =>
    }
  }

  lemma RuntimesKept(k: Tasks, task: Task, ok: bool, row: Option<Row>)
    requires task in k.finishes && k.finishes[task].rt in k.runtimes
    ensures var after := Finalized(k, task, ok, row).runtimes;
            after.Keys == k.runtimes.Keys
            && forall rt <- after :: after[rt].finished == k.runtimes[rt].finished && after[rt].callbacks == k.runtimes[rt].callbacks
  {
  }

  predicate FinishAt(w: World, id: SessionId, task: Task, f: Finish) {
    && id in w.sessions && task in w.sessions[id].tasks.finishes
    && w.sessions[id].tasks.finishes[task] == f && f.rt in w.sessions[id].tasks.runtimes
  }

  predicate OwnFinish(e: Event, id: SessionId, task: Task) {
    e.InSession? && e.id == id && e.action.FinishStep? && e.action.task == task
  }

  lemma TasksOk(w: World, id: SessionId)
    requires Safety.Inv(w) && id in w.sessions
    ensures Safety.KInv(w.sessions[id].tasks)
  {
    assert Safety.SessionInv(w.live, w.sessions[id]);
  }

  lemma OthersKeepFinish(w: World, e: Event, id: SessionId, task: Task, f: Finish)
    requires FinishAt(w, id, task, f) && Safety.KInv(w.sessions[id].tasks)
    requires Step(w, e).Some? && !OwnFinish(e, id, task)
    ensures FinishAt(Step(w, e).value, id, task, f)
  {
    if e.InSession? && e.id == id {
      OtherActionKeepsFinish(w.live, w.sessions[id], e.action, task, f);
    }
  }

  lemma OtherActionKeepsFinish(live: set<Host>, s: Session, a: Action, task: Task, f: Finish)
    requires Safety.KInv(s.tasks) && task in s.tasks.finishes && s.tasks.finishes[task] == f && f.rt in s.tasks.runtimes
    requires SessionStep(live, s, a).Some? && !(a.FinishStep? && a.task == task)
    ensures var k := SessionStep(live, s, a).value.tasks;
            task in k.finishes && k.finishes[task] == f && f.rt in k.runtimes
  {
    assert task < s.tasks.ids;
    match a
    case FinishStep(other, ok) => FinalizedKeepsOther(s.tasks, other, ok, s.row, task);
    case Kill(_) =>
    case Terminal(rt) => assert SessionStep(live, s, a).value.tasks == Terminated(s.tasks, rt);
    case TimerFires(timer) => assert SessionStep(live, s, a).value.tasks == Fired(s.tasks, timer);
    case _ => ClaimKeepsFinish(live, s, a, task);
  }

  lemma FinalizedKeepsOther(k: Tasks, other: Task, ok: bool, row: Option<Row>, task: Task)
    requires other in k.finishes && k.finishes[other].rt in k.runtimes && task in k.finishes && task != other
    ensures var after := Finalized(k, other, ok, row);
            && task in after.finishes && after.finishes[task] == k.finishes[task]
            && after.runtimes.Keys == k.runtimes.Keys
  {
  }

  lemma ClaimKeepsFinish(live: set<Host>, s: Session, a: Action, task: Task)
    requires task in s.tasks.finishes && ClaimStep(live, s, a).Some?
    ensures var k := ClaimStep(live, s, a).value.tasks;
            k.finishes == s.tasks.finishes && s.tasks.runtimes.Keys <= k.runtimes.Keys
  {
  }

  predicate ClaimAt(w: World, id: SessionId, host: Host, pc: ClaimPc) {
    id in w.sessions && host in w.sessions[id].claims && w.sessions[id].claims[host] == pc
  }

  predicate OwnClaim(e: Event, id: SessionId, host: Host) {
    && e.InSession? && e.id == id
    && match e.action
       case ClaimRead(h, _) => h == host
       case ClaimCheck(h, _) => h == host
       case ClaimSwap(h, _, _, _) => h == host
       case ClaimFails(h) => h == host
       case ClaimRelease(h, _) => h == host
       case Register(h) => h == host
       case _ => false
  }

  lemma OthersKeepClaim(w: World, e: Event, id: SessionId, host: Host, pc: ClaimPc)
    requires ClaimAt(w, id, host, pc) && Step(w, e).Some? && !OwnClaim(e, id, host)
    ensures ClaimAt(Step(w, e).value, id, host, pc)
  {
  }
}
