/**
 claimSessionRun, wakeContainer, spawnContainer, the startup adoption, finish and killContainer of
 src/container-runner.ts as they run on one host, while every other task of every host goes on
 between two awaits. They only take steps of the claim protocol.
 */
module ContainerRunner {
  import opened Wrappers
  import opened Claims
  import opened Cluster

  lemma TasksKeep(h: seq<World>, i: nat, id: SessionId)
    requires History(h) && i < |h| && id in h[i].sessions
    ensures Safety.KInv(h[i].sessions[id].tasks)
  {
    Safety.HistoryKeeps(h, i);
    TasksOk(h[i], id);
  }

  lemma NextStays(h: seq<World>, i: nat, id: SessionId, rt: Runtime)
    requires History(h) && i + 1 < |h| && Known(h[i], id, rt)
    ensures Known(h[i + 1], id, rt) && Pushed(h[i], id, rt) <= Pushed(h[i + 1], id, rt)
    ensures IsFinished(h[i], id, rt) ==> IsFinished(h[i + 1], id, rt)
  {
    TasksKeep(h, i, id);
    assert NextAt(h, i);
    var e :| Step(h[i], e) == Some(h[i + 1]);
    StaysKnown(h[i], e, id, rt);
  }

  /** What is known of a runtime stays known, a finished one stays finished, and callbacks stay pushed. */
  lemma {:induction false} RuntimeStays(h: seq<World>, i: nat, id: SessionId, rt: Runtime)
    requires History(h) && i < |h| && Known(h[i], id, rt)
    ensures Known(h[|h| - 1], id, rt) && Pushed(h[i], id, rt) <= Pushed(h[|h| - 1], id, rt)
    ensures IsFinished(h[i], id, rt) ==> IsFinished(h[|h| - 1], id, rt)
    decreases |h| - i
  {
    if i + 1 < |h| {
      NextStays(h, i, id, rt);
      RuntimeStays(h, i + 1, id, rt);
    }
  }

  // ----- Claiming -----

  /** Nobody who is alive owns the session, but for this host itself. */
  predicate Claimable(w: World, id: SessionId, host: Host) {
    id in w.sessions
    && var row := w.sessions[id].row;
       row.Some? && row.value.owner.Some? && row.value.owner.value != host ==> row.value.owner.value !in w.live
  }

  /** This host has the runtime registered, and it is not finished. */
  predicate Runs(w: World, id: SessionId, host: Host, rt: Runtime) {
    && Known(w, id, rt) && host in w.sessions[id].tasks.registry && w.sessions[id].tasks.registry[host] == rt
    && !w.sessions[id].tasks.runtimes[rt].finished
  }

  /** A claim at an incarnation; lost to a live peer or in the swap; or the store threw. */
  datatype Claimed = Won(incarnation: nat) | Lost | Unwritten

  /** A claim under way: the slot is taken out of the held ones. */
  ghost predicate InClaim(c: Cluster, before: Past, slot: Slot)
    reads c
  {
    c.Onward(before.(held := before.held - {slot}, bare := before.bare - {slot}))
  }

  /** The claim is over, and the slot is held again. */
  ghost predicate After(c: Cluster, before: Past)
    reads c
  {
    c.Valid() && before.h <= c.past.h && c.past.held == before.held
  }

  /** The row names another host as its owner. */
  predicate OwnedElsewhere(row: Option<Row>, host: Host) {
    row.Some? && row.value.owner.Some? && row.value.owner.value != host
  }

  /** Begin a claim with a read of the row. */
  method ReadRow(c: Cluster, id: SessionId, host: Host, kind: Kind) returns (read: bool)
    requires c.Valid() && (id, host) in c.past.held && (kind.Wake? ==> (id, host) in c.past.bare)
    modifies c
    ensures InClaim(c, old(c.past), (id, host)) && id in c.s.sessions
    ensures if read then c.Claiming(id, host, if OwnedElsewhere(c.s.sessions[id].row, host) then CheckHolder(c.s.sessions[id].row.value)
                                              else Swap(c.s.sessions[id].row))
            else host !in c.s.sessions[id].claims
    ensures c.calm ==> read && c.s.live == old(c.s.live) && c.s.sessions[id].row == old(c.s.sessions[id].row)
  {
    c.Yield((id, host));
    c.Take(InSession(id, StartClaim(host, kind)));
    c.WhileClaiming(id, host, ReadClaim);
    read := c.Works();
    c.Take(InSession(id, ClaimRead(host, read)));
  }

  /** A foreign owner is looked up among the live hosts. */
  method CheckPeer(c: Cluster, id: SessionId, host: Host, holder: Row) returns (refused: Option<Claimed>)
    requires c.Valid() && c.Claiming(id, host, CheckHolder(holder)) && holder.owner.Some?
    modifies c
    ensures c.Onward(old(c.past)) && id in c.s.sessions
    ensures refused.Some? ==> host !in c.s.sessions[id].claims && !refused.value.Won?
    ensures refused.None? ==> c.Claiming(id, host, Swap(Some(holder)))
    ensures c.calm ==> c.s.live == old(c.s.live) && c.s.sessions[id].row == old(c.s.sessions[id].row)
    ensures c.calm ==> refused == if holder.owner.value in c.s.live then Some(Lost) else None
  {
    c.WhileClaiming(id, host, CheckHolder(holder));
    var checked := c.Works();
    c.Take(InSession(id, ClaimCheck(host, checked)));
    refused := if host in c.s.sessions[id].claims then None else Some(if checked then Lost else Unwritten);
  }

  /** Read the row, and refuse it to a live peer; None goes on to the swap. */
  method ReadHolder(c: Cluster, id: SessionId, host: Host, kind: Kind) returns (refused: Option<Claimed>)
    requires c.Valid() && (id, host) in c.past.held && (kind.Wake? ==> (id, host) in c.past.bare)
    modifies c
    ensures InClaim(c, old(c.past), (id, host)) && id in c.s.sessions
    ensures refused.Some? ==> host !in c.s.sessions[id].claims && !refused.value.Won?
    ensures refused.None? ==> host in c.s.sessions[id].claims && c.s.sessions[id].claims[host].Swap?
    ensures c.calm ==> c.s.live == old(c.s.live) && c.s.sessions[id].row == old(c.s.sessions[id].row)
    ensures c.calm ==> if Claimable(old(c.s), id, host) then refused.None? && c.s.sessions[id].claims[host].seen == c.s.sessions[id].row
                       else refused == Some(Lost)
  {
    hide History;
    var read := ReadRow(c, id, host, kind);
    if !read {
      return Some(Unwritten);
    }
    refused := None;
    if OwnedElsewhere(c.s.sessions[id].row, host) {
      refused := CheckPeer(c, id, host, c.s.sessions[id].row.value);
    }
  }

  /** The compare-and-set; `effect` without `answered` is a write whose answer never came. */
  method SwapClaim(c: Cluster, id: SessionId, host: Host) returns (r: Claimed)
    requires c.Valid() && id in c.s.sessions && host in c.s.sessions[id].claims && c.s.sessions[id].claims[host].Swap?
    modifies c
    ensures c.Onward(old(c.past)) && id in c.s.sessions
    ensures if r.Won? then c.Claiming(id, host, Holding(r.incarnation))
                           && c.s.sessions[id].row == Some(Row(Some(host), r.incarnation))
            else host !in c.s.sessions[id].claims
    ensures c.calm && Incarnation(old(c.s.sessions[id].claims[host]).seen) == Incarnation(old(c.s.sessions[id].row)) ==> r.Won?
    ensures c.calm ==> c.s.live == old(c.s.live)
  {
    c.WhileClaiming(id, host, c.s.sessions[id].claims[host]);
    var effect := c.Works();
    var answered := c.Works();
    var gap: int := *;
    var larger := Incarnation(c.s.sessions[id].row) + 1 + if gap < 0 then 0 else gap;
    var expected := Incarnation(c.s.sessions[id].claims[host].seen) == Incarnation(c.s.sessions[id].row);
    c.Take(InSession(id, ClaimSwap(host, larger, effect, answered)));
    r := if !effect then Unwritten
         else if !expected then (if answered then Lost else Unwritten)
         else if answered then Won(larger) else Unwritten;
  }

  method ClaimSessionRun(c: Cluster, id: SessionId, host: Host, kind: Kind) returns (r: Claimed)
    requires c.Valid() && (id, host) in c.past.held && (kind.Wake? ==> (id, host) in c.past.bare)
    modifies c
    ensures id in c.s.sessions
    ensures r.Won? ==> InClaim(c, old(c.past), (id, host)) && c.Claiming(id, host, Holding(r.incarnation))
                       && c.s.sessions[id].row == Some(Row(Some(host), r.incarnation))
    ensures !r.Won? ==> After(c, old(c.past))
    ensures c.calm ==> c.s.live == old(c.s.live) && if Claimable(old(c.s), id, host) then r.Won? else r.Lost? && !Claimable(c.s, id, host)
  {
    ghost var held := c.past.held;
    var refused := ReadHolder(c, id, host, kind);
    if refused.Some? {
      r := refused.value;
    } else {
      r := SwapClaim(c, id, host);
    }
    if !r.Won? {
      c.Hold((id, host));
      assert c.past.held == held;
    }
  }

  /** releaseClaimQuietly, when what was claimed for cannot be prepared. */
  method GiveBack(c: Cluster, id: SessionId, host: Host, incarnation: nat)
    requires c.Valid() && c.Claiming(id, host, Holding(incarnation))
    modifies c
    ensures c.Valid() && old(c.past.h) <= c.past.h && c.past.held == old(c.past.held) + {(id, host)}
  {
    c.Take(InSession(id, ClaimFails(host)));
    c.WhileClaiming(id, host, Releasing(incarnation));
    var released := c.Works();
    c.Take(InSession(id, ClaimRelease(host, released)));
    c.Hold((id, host));
  }

  /** registerRuntime, and the claim it was registered at. */
  method RegisterRuntime(c: Cluster, id: SessionId, host: Host, incarnation: nat) returns (rt: Runtime)
    requires c.Valid() && c.Claiming(id, host, Holding(incarnation))
    modifies c
    ensures c.Valid() && old(c.past.h) <= c.past.h && c.past.held == old(c.past.held) + {(id, host)}
    ensures Known(c.s, id, rt) && host in c.s.sessions[id].tasks.registry && c.s.sessions[id].tasks.registry[host] == rt
    ensures c.s.sessions[id].tasks.runtimes[rt] == Info(host, incarnation, false, false, 0)
    ensures c.s.live == old(c.s.live)
  {
    rt := c.s.sessions[id].tasks.ids;
    c.Take(InSession(id, Register(host)));
    c.Hold((id, host));
  }

  /** Claim first; then prepare, and either register the runtime or give the claim back. */
  method ClaimAndRegister(c: Cluster, id: SessionId, host: Host, kind: Kind) returns (r: Claimed, rt: Option<Runtime>)
    requires c.Valid() && (id, host) in c.past.held && (kind.Wake? ==> (id, host) in c.past.bare)
    modifies c
    ensures After(c, old(c.past))
    ensures rt.Some? ==> r.Won? && Known(c.s, id, rt.value)
    ensures rt.Some? ==> var k := c.s.sessions[id].tasks;
                         host in k.registry && k.registry[host] == rt.value
                         && k.runtimes[rt.value] == Info(host, r.incarnation, false, false, 0)
    ensures c.calm ==> c.s.live == old(c.s.live) && if Claimable(old(c.s), id, host) then rt.Some? else r.Lost? && !Claimable(c.s, id, host)
  {
    ghost var held := c.past.held;
    rt := None;
    r := ClaimSessionRun(c, id, host, kind);
    if !r.Won? {
      return;
    }
    c.WhileClaiming(id, host, Holding(r.incarnation));
    var prepared := c.Works();
    if prepared {
      var registered := RegisterRuntime(c, id, host, r.incarnation);
      rt := Some(registered);
    } else {
      GiveBack(c, id, host, r.incarnation);
    }
    assert c.past.held == held;
  }

  // ----- Finishing -----

  /** A complete run knows whether the release of its claim was written. */
  datatype FinishEnd = Deferred | FencedOff | Complete(released: bool)

  /** What a run of `finish` leaves behind when it returns. */
  predicate FinishLeaves(s: Session, rt: Runtime, end: FinishEnd) {
    var k := s.tasks;
    && rt in k.runtimes
    && match end
       case Deferred => k.runtimes[rt].scheduled
       case FencedOff => !Registered(k, rt)
       case Complete(released) =>
         && !Registered(k, rt) && k.ran != [] && k.ran[|k.ran| - 1] == (rt, k.runtimes[rt].callbacks) && rt in k.torn
         && (released ==> s.row != Some(Row(Some(k.runtimes[rt].host), k.runtimes[rt].incarnation)))
  }

  /** Neither the row nor what the runtime was claimed at has changed. */
  predicate SameRows(w: World, w': World, id: SessionId, rt: Runtime) {
    && Known(w, id, rt) && Known(w', id, rt) && w'.live == w.live && w'.sessions[id].row == w.sessions[id].row
    && w'.sessions[id].tasks.runtimes[rt].host == w.sessions[id].tasks.runtimes[rt].host
    && w'.sessions[id].tasks.runtimes[rt].incarnation == w.sessions[id].tasks.runtimes[rt].incarnation
  }

  /** The row names the runtime's host at the incarnation it was claimed at. */
  predicate Owned(w: World, id: SessionId, rt: Runtime) {
    Known(w, id, rt)
    && w.sessions[id].row == Some(Row(Some(w.sessions[id].tasks.runtimes[rt].host), w.sessions[id].tasks.runtimes[rt].incarnation))
  }

  /** The fence reads with their retries; None when the store never answered. */
  method ReadFenceRow(c: Cluster, id: SessionId, task: Task, rt: Runtime) returns (fenced: Option<bool>)
    requires c.Valid() && c.At(id, task, Finish(rt, ReadFence(0)))
    modifies c
    ensures c.Onward(old(c.past)) && id in c.s.sessions
    ensures var s := c.s.sessions[id];
            match fenced
            case None => task !in s.tasks.finishes && FinishLeaves(s, rt, Deferred)
            case Some(true) => task !in s.tasks.finishes && FinishLeaves(s, rt, FencedOff)
            case Some(false) => c.At(id, task, Finish(rt, Stop))
    ensures c.calm && !Fenced(old(c.s.sessions[id].row), old(c.s.sessions[id].tasks.runtimes[rt])) ==>
              fenced == Some(false) && SameRows(old(c.s), c.s, id, rt)
  {
    fenced := None;
    for attempt := 0 to FENCE_RETRIES + 1
      invariant c.Onward(old(c.past)) && id in c.s.sessions
      invariant if attempt <= FENCE_RETRIES then c.At(id, task, Finish(rt, ReadFence(attempt)))
                else task !in c.s.sessions[id].tasks.finishes && FinishLeaves(c.s.sessions[id], rt, Deferred)
      invariant c.calm ==> attempt == 0 && c.s == old(c.s)
    {
      c.WhileFinishing(id, task, Finish(rt, ReadFence(attempt)));
      var answered := c.Works();
      if answered {
        fenced := Some(Fenced(c.s.sessions[id].row, c.s.sessions[id].tasks.runtimes[rt]));
        c.Take(InSession(id, FinishStep(task, true)));
        return;
      }
      c.Take(InSession(id, FinishStep(task, false)));
    }
  }

  /** What every await of `finish` finds afterwards: the run where it was, and its runtime. */
  method AwaitEffect(c: Cluster, id: SessionId, task: Task, f: Finish)
    requires c.Valid() && c.At(id, task, f)
    modifies c
    ensures c.Onward(old(c.past)) && c.At(id, task, f) && (c.calm ==> c.s == old(c.s))
    ensures Safety.FinishOk(c.s.sessions[id].tasks, f)
  {
    c.WhileFinishing(id, task, f);
    c.Now();
    TasksOk(c.s, id);
  }

  method StopRuntime(c: Cluster, id: SessionId, task: Task, rt: Runtime) returns (ok: bool)
    requires c.Valid() && c.At(id, task, Finish(rt, Stop))
    modifies c
    ensures c.Onward(old(c.past)) && id in c.s.sessions
    ensures if ok then c.At(id, task, Finish(rt, Mark))
            else task !in c.s.sessions[id].tasks.finishes && FinishLeaves(c.s.sessions[id], rt, Deferred)
    ensures c.calm ==> ok && SameRows(old(c.s), c.s, id, rt)
  {
    AwaitEffect(c, id, task, Finish(rt, Stop));
    ok := c.Works();
    c.Take(InSession(id, FinishStep(task, ok)));
  }

  function NextEffect(pc: FinishPc): FinishPc
    requires pc.Mark? || pc.Drop? || pc.Release?
  {
    match pc
    case Mark => Drop
    case Drop => Release
    case _ => Callbacks
  }

  lemma ReleaseWritten(w: World, id: SessionId, task: Task)
    requires Safety.Inv(w) && id in w.sessions && task in w.sessions[id].tasks.finishes
    requires w.sessions[id].tasks.finishes[task].pc.Release? && w.sessions[id].tasks.finishes[task].rt in w.sessions[id].tasks.runtimes
    ensures Safety.LetGo(FinishStepOf(w.live, w.sessions[id], task, true), w.sessions[id].tasks.finishes[task].rt)
  {
    assert Safety.SessionInv(w.live, w.sessions[id]);
    Safety.ReleaseLetsGo(w.live, w.sessions[id], task);
  }

  lemma EffectGoesOn(w: World, id: SessionId, task: Task, rt: Runtime, pc: FinishPc, ok: bool)
    requires FinishAt(w, id, task, Finish(rt, pc)) && (pc.Mark? || pc.Drop? || pc.Release?)
    ensures var next := Step(w, InSession(id, FinishStep(task, ok)));
            next.Some? && FinishAt(next.value, id, task, Finish(rt, NextEffect(pc)))
  {
  }

  lemma EffectDone(w: World, id: SessionId, task: Task, rt: Runtime, pc: FinishPc, ok: bool)
    requires Safety.Inv(w) && FinishAt(w, id, task, Finish(rt, pc)) && (pc.Mark? || pc.Drop? || pc.Release?)
    ensures var next := Step(w, InSession(id, FinishStep(task, ok)));
            && next.Some? && FinishAt(next.value, id, task, Finish(rt, NextEffect(pc)))
            && (pc.Release? && ok ==> Safety.LetGo(next.value.sessions[id], rt))
  {
    hide Safety.Inv, Safety.LetGo, FinishStepOf;
    EffectGoesOn(w, id, task, rt, pc, ok);
    if pc.Release? && ok {
      ReleaseWritten(w, id, task);
    }
  }

  /** Recording the stop, dropping the entry and releasing the claim go on even when they fail. */
  method BestEffort(c: Cluster, id: SessionId, task: Task, rt: Runtime, pc: FinishPc) returns (ok: bool)
    requires c.Valid() && c.At(id, task, Finish(rt, pc)) && (pc.Mark? || pc.Drop? || pc.Release?)
    modifies c
    ensures c.Onward(old(c.past)) && c.At(id, task, Finish(rt, NextEffect(pc)))
    ensures pc.Release? && ok ==> Safety.LetGo(c.s.sessions[id], rt)
    ensures c.calm ==> ok && (!pc.Release? ==> SameRows(old(c.s), c.s, id, rt))
    ensures c.calm && pc.Release? && Owned(old(c.s), id, rt) ==>
              c.s.sessions[id].row == Some(Row(None, old(c.s.sessions[id].tasks.runtimes[rt].incarnation)))
  {
    hide Safety.LetGo, Safety.Inv;
    c.WhileFinishing(id, task, Finish(rt, pc));
    ok := c.Works();
    c.Now();
    EffectDone(c.s, id, task, rt, pc, ok);
    c.Take(InSession(id, FinishStep(task, ok)));
  }

  method RunCallbacks(c: Cluster, id: SessionId, task: Task, rt: Runtime, released: bool)
    requires c.Valid() && c.At(id, task, Finish(rt, Callbacks)) && (released ==> Safety.LetGo(c.s.sessions[id], rt))
    modifies c
    ensures c.Onward(old(c.past)) && id in c.s.sessions
    ensures task !in c.s.sessions[id].tasks.finishes && FinishLeaves(c.s.sessions[id], rt, Complete(released))
    ensures c.calm ==> c.s.sessions[id].row == old(c.s.sessions[id].row)
  {
    ghost var now := |c.past.h| - 1;
    AwaitEffect(c, id, task, Finish(rt, Callbacks));
    if released {
      Safety.LetGoForGood(c.past.h, now, |c.past.h| - 1, id, rt);
    }
    CallbacksKeep(c.s, id, task, rt, released);
    c.Take(InSession(id, FinishStep(task, true)));
  }

  lemma CallbacksKeep(w: World, id: SessionId, task: Task, rt: Runtime, released: bool)
    requires FinishAt(w, id, task, Finish(rt, Callbacks)) && Safety.FinishOk(w.sessions[id].tasks, Finish(rt, Callbacks))
    requires released ==> Safety.LetGo(w.sessions[id], rt)
    ensures var s := FinishStepOf(w.live, w.sessions[id], task, true);
            task !in s.tasks.finishes && FinishLeaves(s, rt, Complete(released))
  {
  }

  /** finish: behind the fence, stop, record, drop the entry, release the claim, run the callbacks. */
  method RunFinish(c: Cluster, id: SessionId, task: Task, rt: Runtime) returns (end: FinishEnd)
    requires c.Valid() && c.At(id, task, Finish(rt, ReadFence(0)))
    modifies c
    ensures c.Onward(old(c.past)) && id in c.s.sessions
    ensures task !in c.s.sessions[id].tasks.finishes && FinishLeaves(c.s.sessions[id], rt, end)
    ensures c.calm && Owned(old(c.s), id, rt) ==>
              end == Complete(true) && c.s.sessions[id].row == Some(Row(None, old(c.s.sessions[id].tasks.runtimes[rt].incarnation)))
  {
    hide Safety.LetGo, History, FinishLeaves;
    var fenced := ReadFenceRow(c, id, task, rt);
    if fenced.None? {
      return Deferred;
    }
    if fenced.value {
      return FencedOff;
    }
    var stopped := StopRuntime(c, id, task, rt);
    if !stopped {
      return Deferred;
    }
    var _ := BestEffort(c, id, task, rt, Mark);
    var _ := BestEffort(c, id, task, rt, Drop);
    var released := BestEffort(c, id, task, rt, Release);
    RunCallbacks(c, id, task, rt, released);
    end := Complete(released);
  }

  /** finishAndResolve: the first terminal event of the registered runtime starts its one finish. */
  method FinishAndResolve(c: Cluster, id: SessionId, rt: Runtime) returns (end: Option<FinishEnd>)
    requires c.Valid() && id in c.s.sessions && rt in c.s.sessions[id].tasks.runtimes
    modifies c
    ensures c.Onward(old(c.past)) && id in c.s.sessions
    ensures end.Some? <==> !old(c.s.sessions[id].tasks.runtimes[rt].finished) && old(Registered(c.s.sessions[id].tasks, rt))
    ensures end.Some? ==> FinishLeaves(c.s.sessions[id], rt, end.value)
    ensures c.calm && end.Some? && Owned(old(c.s), id, rt) ==>
              end == Some(Complete(true)) && c.s.sessions[id].row == Some(Row(None, old(c.s.sessions[id].tasks.runtimes[rt].incarnation)))
    ensures IsFinished(c.s, id, rt) && Pushed(old(c.s), id, rt) <= Pushed(c.s, id, rt)
  {
    var k := c.s.sessions[id].tasks;
    c.Take(InSession(id, Terminal(rt)));
    if k.runtimes[rt].finished || !Registered(k, rt) {
      return None;
    }
    ghost var now := |c.past.h| - 1;
    var left := RunFinish(c, id, k.ids, rt);
    RuntimeStays(c.past.h, now, id, rt);
    end := Some(left);
  }

  lemma FiringStarts(w: World, id: SessionId, timer: Task, rt: Runtime)
    requires id in w.sessions && Safety.KInv(w.sessions[id].tasks)
    requires timer in w.sessions[id].tasks.timers && w.sessions[id].tasks.timers[timer] == rt
    ensures var next := Step(w, InSession(id, TimerFires(timer)));
            next.Some? && FinishAt(next.value, id, w.sessions[id].tasks.ids, Finish(rt, ReadFence(0)))
  {
    assert Safety.TimerOk(w.sessions[id].tasks, rt);
  }

  /** The deferred timer: the same finish once more. */
  method FireTimer(c: Cluster, id: SessionId, timer: Task, rt: Runtime) returns (task: Task)
    requires c.Valid() && id in c.s.sessions
    requires timer in c.s.sessions[id].tasks.timers && c.s.sessions[id].tasks.timers[timer] == rt
    modifies c
    ensures c.Onward(old(c.past)) && c.At(id, task, Finish(rt, ReadFence(0)))
  {
    task := c.s.sessions[id].tasks.ids;
    c.Now();
    TasksOk(c.s, id);
    FiringStarts(c.s, id, timer, rt);
    c.Take(InSession(id, TimerFires(timer)));
  }

  method DeferredFinish(c: Cluster, id: SessionId, timer: Task, rt: Runtime) returns (end: FinishEnd)
    requires c.Valid() && id in c.s.sessions
    requires timer in c.s.sessions[id].tasks.timers && c.s.sessions[id].tasks.timers[timer] == rt
    modifies c
    ensures c.Onward(old(c.past)) && id in c.s.sessions
    ensures FinishLeaves(c.s.sessions[id], rt, end)
  {
    var task := FireTimer(c, id, timer, rt);
    end := RunFinish(c, id, task, rt);
  }

  // ----- Killing -----

  lemma KillingKeeps(w: World, id: SessionId, host: Host, rt: Runtime)
    requires id in w.sessions && Safety.KInv(w.sessions[id].tasks)
    requires host in w.sessions[id].tasks.registry && w.sessions[id].tasks.registry[host] == rt
    ensures Known(w, id, rt)
    ensures var next := Step(w, InSession(id, Kill(host)));
            && next.Some? && Known(next.value, id, rt) && Pushed(next.value, id, rt) == Pushed(w, id, rt) + 1
            && SameRows(w, next.value, id, rt) && (Runs(w, id, host, rt) ==> Runs(next.value, id, host, rt))
  {
  }

  /** Leave a callback with the registered runtime. */
  method PushCallback(c: Cluster, id: SessionId, host: Host, rt: Runtime)
    requires c.Valid() && id in c.s.sessions
    requires host in c.s.sessions[id].tasks.registry && c.s.sessions[id].tasks.registry[host] == rt
    modifies c
    ensures c.Onward(old(c.past)) && Known(old(c.s), id, rt)
    ensures Known(c.s, id, rt) && Pushed(c.s, id, rt) == Pushed(old(c.s), id, rt) + 1
    ensures SameRows(old(c.s), c.s, id, rt) && (Runs(old(c.s), id, host, rt) ==> Runs(c.s, id, host, rt))
  {
    c.Now();
    TasksOk(c.s, id);
    KillingKeeps(c.s, id, host, rt);
    c.Take(InSession(id, Kill(host)));
  }

  /** The driver or the store is awaited; the runtime stays known. */
  method WhileKnown(c: Cluster, id: SessionId, rt: Runtime)
    requires c.Valid() && Known(c.s, id, rt)
    modifies c
    ensures c.Onward(old(c.past)) && Known(c.s, id, rt) && Pushed(old(c.s), id, rt) <= Pushed(c.s, id, rt)
    ensures c.calm ==> c.s == old(c.s)
  {
    ghost var now := |c.past.h| - 1;
    c.WhileWaiting();
    RuntimeStays(c.past.h, now, id, rt);
  }

  lemma RegisteredIsKnown(c: Cluster, id: SessionId, host: Host)
    requires c.Valid() && id in c.s.sessions && host in c.s.sessions[id].tasks.registry
    ensures Known(c.s, id, c.s.sessions[id].tasks.registry[host])
    ensures Registered(c.s.sessions[id].tasks, c.s.sessions[id].tasks.registry[host])
  {
    c.Now();
    TasksOk(c.s, id);
  }

  /** killContainer: leave the callback, stop the runtime, and finish it whether or not that worked. */
  method KillContainer(c: Cluster, id: SessionId, host: Host, onExit: bool) returns (end: Option<FinishEnd>)
    requires c.Valid() && id in c.s.sessions
    modifies c
    ensures c.Onward(old(c.past)) && id in c.s.sessions
    ensures var registry := old(c.s.sessions[id].tasks.registry);
            if host in registry then IsFinished(c.s, id, registry[host]) else end.None? && c.s == old(c.s)
    ensures var registry := old(c.s.sessions[id].tasks.registry);
            onExit && host in registry ==>
              Known(old(c.s), id, registry[host]) && Pushed(c.s, id, registry[host]) > Pushed(old(c.s), id, registry[host])
    ensures var registry := old(c.s.sessions[id].tasks.registry);
            c.calm && host in registry && Runs(old(c.s), id, host, registry[host]) && Owned(old(c.s), id, registry[host]) ==>
              end == Some(Complete(true)) && Claimable(c.s, id, host)
              && c.s.sessions[id].row.Some? && c.s.sessions[id].row.value.owner.None?
  {
    if host !in c.s.sessions[id].tasks.registry {
      return None;
    }
    var rt := c.s.sessions[id].tasks.registry[host];
    RegisteredIsKnown(c, id, host);
    if onExit {
      PushCallback(c, id, host, rt);
    }
    WhileKnown(c, id, rt);
    if host in c.s.sessions[id].tasks.registry {
      RegisteredIsKnown(c, id, host);
    }
    end := FinishAndResolve(c, id, rt);
  }

  // ----- One host process: waking -----

  /** The module-level sets: wakes in flight, and containers whose adoption claim could not be written. */
  class HostProcess {
    const me: Host
    var waking: set<SessionId>
    var pending: set<SessionId>

    constructor (me: Host)
      ensures this.me == me && waking == {} && pending == {}
    {
      this.me, waking, pending := me, {}, {};
    }
  }

  /** armGatewayAvailability on the runtime just registered: true when it reports the lease as gone. */
  method ArmGateway(c: Cluster, id: SessionId, host: Host, rt: Runtime) returns (unavailable: bool)
    requires c.Valid() && id in c.s.sessions
    requires host in c.s.sessions[id].tasks.registry && c.s.sessions[id].tasks.registry[host] == rt
    modifies c
    ensures c.Onward(old(c.past)) && Known(c.s, id, rt)
    ensures unavailable ==> IsFinished(c.s, id, rt)
    ensures c.calm ==> !unavailable && c.s == old(c.s)
  {
    RegisteredIsKnown(c, id, host);
    var available := c.Works();
    unavailable := !available;
    if unavailable {
      var _ := KillContainer(c, id, host, false);
    }
  }

  /** Gone and FellThrough return false, Reclaimed true; the others throw. */
  datatype Retried = Gone | FellThrough(rt: Runtime) | Reclaimed(rt: Runtime) | LostClaim | Failed

  /** The container stays pending until it is found gone, lost to another host, or adopted for good. */
  method RetryPendingAdoption(c: Cluster, p: HostProcess, id: SessionId) returns (r: Retried)
    requires c.Valid() && (id, p.me) in c.past.bare
    modifies c, p`pending
    ensures After(c, old(c.past))
    ensures r.Gone? ==> (id, p.me) in c.past.bare
    ensures r.FellThrough? ==> IsFinished(c.s, id, r.rt)
    ensures r.Reclaimed? ==> Known(c.s, id, r.rt)
    ensures p.pending == if r.Gone? || r.LostClaim? || r.Reclaimed? then old(p.pending) - {id} else old(p.pending)
    ensures c.calm ==> c.s.live == old(c.s.live) && (r.Gone? ==> c.s == old(c.s))
    ensures c.calm ==> r.Gone? || if Claimable(old(c.s), id, p.me) then r.Reclaimed? && Runs(c.s, id, p.me, r.rt) else r.LostClaim?
  {
    c.WhileWaiting();
    var answered := c.Works();
    var running: bool := *;
    if !answered {
      return Failed;
    }
    if !running {
      p.pending := p.pending - {id};
      return Gone;
    }
    var claim, rt := ClaimAndRegister(c, id, p.me, Wake);
    if claim.Lost? {
      p.pending := p.pending - {id};
      return LostClaim;
    }
    if rt.None? {
      return Failed;
    }
    var unavailable := ArmGateway(c, id, p.me, rt.value);
    if unavailable {
      return FellThrough(rt.value);
    }
    WhileKnown(c, id, rt.value);
    var marked := c.Works();
    if !marked {
      return Failed;
    }
    p.pending := p.pending - {id};
    r := Reclaimed(rt.value);
  }

  datatype Spawned = Started(rt: Runtime) | Readopted(rt: Runtime) | NoGroup | Threw

  /** What armSessionLifecycle does when the runtime does not come up: finish it, and throw. */
  method StartSession(c: Cluster, id: SessionId, rt: Runtime) returns (started: bool)
    requires c.Valid() && Known(c.s, id, rt)
    modifies c
    ensures c.Onward(old(c.past)) && Known(c.s, id, rt)
    ensures !started ==> IsFinished(c.s, id, rt)
    ensures c.calm ==> started && c.s == old(c.s)
  {
    WhileKnown(c, id, rt);
    started := c.Works();
    if !started {
      var _ := FinishAndResolve(c, id, rt);
    }
  }

  /** Prepare, claim, register, start. A retry that fell through may claim over its own runtime. */
  method SpawnContainer(c: Cluster, p: HostProcess, id: SessionId) returns (r: Spawned)
    requires c.Valid() && (id, p.me) in c.past.bare
    modifies c, p`pending
    ensures After(c, old(c.past))
    ensures r.Started? ==> Known(c.s, id, r.rt)
    ensures p.pending == old(p.pending) || p.pending == old(p.pending) - {id}
    ensures r.Readopted? ==> Known(c.s, id, r.rt) && id in old(p.pending) && id !in p.pending
    ensures c.calm ==> if Claimable(old(c.s), id, p.me) then (r.Started? || r.Readopted?) && Runs(c.s, id, p.me, r.rt) else r.Threw?
  {
    var kind := Wake;
    if id in p.pending {
      var retried := RetryPendingAdoption(c, p, id);
      match retried {
        case Gone =>
        case FellThrough(_) => kind := Reclaim;
        case Reclaimed(rt) => return Readopted(rt);
        case _ => return Threw;
      }
    }
    c.WhileWaiting();
    var group := c.Works();
    var composed := c.Works();
    if !group {
      return NoGroup;
    }
    if !composed {
      return Threw;
    }
    var claim, rt := ClaimAndRegister(c, id, p.me, kind);
    if rt.None? {
      return Threw;
    }
    var started := StartSession(c, id, rt.value);
    r := if started then Started(rt.value) else Threw;
  }

  /**
   wakeContainer: a running session needs nothing, a second wake joins the first (None). Otherwise
   false means that the spawn threw, and true that a runtime was started or adopted again, or that
   its group is gone.
   */
  method WakeContainer(c: Cluster, p: HostProcess, id: SessionId) returns (woken: Option<bool>, ghost spawned: Option<Spawned>)
    requires c.Valid() && id in c.s.sessions
    requires id !in p.waking && NotRunning(c.s, (id, p.me)) ==> Free(c.s, (id, p.me)) && (id, p.me) !in c.past.held
    modifies c, p
    ensures After(c, old(c.past)) && p.waking == old(p.waking)
    ensures !NotRunning(old(c.s), (id, p.me)) ==> woken == Some(true) && c.s == old(c.s)
    ensures NotRunning(old(c.s), (id, p.me)) && id in p.waking ==> woken == None && c.s == old(c.s)
    ensures NotRunning(old(c.s), (id, p.me)) && id !in p.waking ==> woken.Some? && Free(c.s, (id, p.me))
    ensures spawned.Some? <==> NotRunning(old(c.s), (id, p.me)) && id !in p.waking
    ensures spawned.Some? ==>
              match spawned.value
              case Started(rt) => woken == Some(true) && Known(c.s, id, rt)
              case Readopted(rt) => woken == Some(true) && Known(c.s, id, rt) && id in old(p.pending) && id !in p.pending
              case NoGroup => woken == Some(true)
              case Threw => woken == Some(false)
    ensures c.calm && spawned.Some? ==>
              if Claimable(old(c.s), id, p.me)
              then woken == Some(true) && p.me in c.s.sessions[id].tasks.registry
                   && Runs(c.s, id, p.me, c.s.sessions[id].tasks.registry[p.me])
              else woken == Some(false)
    ensures forall other | other != id :: other in p.pending <==> other in old(p.pending)
  {
    if p.me in c.s.sessions[id].tasks.registry {
      return Some(true), None;
    }
    if id in p.waking {
      return None, None;
    }
    ghost var held := c.past.held;
    p.waking := p.waking + {id};
    c.Hold((id, p.me));
    var r := SpawnContainer(c, p, id);
    c.Yield((id, p.me));
    p.waking := p.waking - {id};
    assert c.past.held == held;
    woken, spawned := Some(!r.Threw?), Some(r);
  }

  // ----- Startup adoption -----

  /** A listed container; `ours` when it runs and its session and group are there and active. */
  datatype Snapshot = Snapshot(id: SessionId, ours: bool)

  datatype Adoption = Unread | Orphan | Unfenced | Foreign | Refused | Ended | Unmarked | Adopted

  /** One turn of the adoption loop; Unread and Unmarked are the errors that end the loop. */
  method AdoptSession(c: Cluster, p: HostProcess, snapshot: Snapshot) returns (outcome: Adoption)
    requires c.Valid() && (snapshot.ours ==> (snapshot.id, p.me) in c.past.held)
    modifies c, p`pending
    ensures After(c, old(c.past))
    ensures outcome.Orphan? ==> !snapshot.ours
    ensures p.pending == match outcome
                         case Unfenced => old(p.pending) + {snapshot.id}
                         case Unread => old(p.pending)
                         case Orphan => old(p.pending)
                         case Foreign => old(p.pending)
                         case _ => old(p.pending) - {snapshot.id}
    ensures c.calm ==> if !snapshot.ours then outcome.Orphan?
                       else if Claimable(old(c.s), snapshot.id, p.me) then outcome.Adopted? && p.me in c.s.sessions[snapshot.id].tasks.registry
                       else outcome.Foreign?
  {
    c.WhileWaiting();
    var read := c.Works();
    if !read {
      return Unread;
    }
    if !snapshot.ours {
      return Orphan;
    }
    var claim, rt := ClaimAndRegister(c, snapshot.id, p.me, Adopt);
    match claim {
      case Unwritten =>
        p.pending := p.pending + {snapshot.id};
        return Unfenced;
      case Lost =>
        return Foreign;
      case Won(_) =>
        p.pending := p.pending - {snapshot.id};
    }
    if rt.None? {
      return Refused;
    }
    var unavailable := ArmGateway(c, snapshot.id, p.me, rt.value);
    WhileKnown(c, snapshot.id, rt.value);
    var marked := c.Works();
    outcome := if unavailable then Ended else if marked then Adopted else Unmarked;
  }

  /** The k-th turn decided whether this session is pending. */
  predicate Decides(snapshots: seq<Snapshot>, outcomes: seq<Adoption>, k: int, id: SessionId) {
    0 <= k < |outcomes| <= |snapshots| && snapshots[k].id == id
    && !outcomes[k].Unread? && !outcomes[k].Orphan? && !outcomes[k].Foreign?
  }

  predicate LastDecides(snapshots: seq<Snapshot>, outcomes: seq<Adoption>, k: int, id: SessionId) {
    Decides(snapshots, outcomes, k, id) && forall l | k < l < |outcomes| :: !Decides(snapshots, outcomes, l, id)
  }

  ghost predicate StillPending(snapshots: seq<Snapshot>, outcomes: seq<Adoption>, before: set<SessionId>, id: SessionId) {
    || (exists k :: LastDecides(snapshots, outcomes, k, id) && outcomes[k].Unfenced?)
    || (id in before && forall k | 0 <= k < |outcomes| :: !Decides(snapshots, outcomes, k, id))
  }

  lemma NextPending(snapshots: seq<Snapshot>, outcomes: seq<Adoption>, outcome: Adoption, before: set<SessionId>, id: SessionId)
    requires |outcomes| < |snapshots|
    ensures StillPending(snapshots, outcomes + [outcome], before, id) <==>
            var n := |outcomes|;
            if Decides(snapshots, outcomes + [outcome], n, id) then outcome.Unfenced?
            else StillPending(snapshots, outcomes, before, id)
  {
    var n, more := |outcomes|, outcomes + [outcome];
    assert forall k | 0 <= k < n :: Decides(snapshots, more, k, id) <==> Decides(snapshots, outcomes, k, id);
    if Decides(snapshots, more, n, id) {
      assert LastDecides(snapshots, more, n, id);
    } else {
      assert forall k | 0 <= k < n :: LastDecides(snapshots, more, k, id) <==> LastDecides(snapshots, outcomes, k, id);
    }
  }

  predicate EndsLoop(outcome: Adoption) {
    outcome.Unread? || outcome.Unmarked?
  }

  /**
   adoptRunningSessions: a session is left to the wake path exactly when the last turn that could
   decide failed to write its claim.
   */
  method AdoptRunningSessions(c: Cluster, p: HostProcess, snapshots: seq<Snapshot>)
    returns (outcomes: seq<Adoption>, adopted: nat, stopped: nat)
    requires c.Valid() && forall snapshot <- snapshots :: snapshot.ours ==> (snapshot.id, p.me) in c.past.held
    modifies c, p`pending
    ensures After(c, old(c.past)) && |outcomes| <= |snapshots|
    ensures |outcomes| < |snapshots| ==> outcomes != [] && EndsLoop(outcomes[|outcomes| - 1])
    ensures adopted == multiset(outcomes)[Adopted]
    ensures stopped == multiset(outcomes)[Orphan] + multiset(outcomes)[Refused] + multiset(outcomes)[Ended]
    ensures forall id :: id in p.pending <==> StillPending(snapshots, outcomes, old(p.pending), id)
  {
    outcomes, adopted, stopped := [], 0, 0;
    for i := 0 to |snapshots|
      invariant After(c, old(c.past)) && |outcomes| == i
      invariant adopted == multiset(outcomes)[Adopted]
      invariant stopped == multiset(outcomes)[Orphan] + multiset(outcomes)[Refused] + multiset(outcomes)[Ended]
      invariant forall id :: id in p.pending <==> StillPending(snapshots, outcomes, old(p.pending), id)
    {
      var outcome := AdoptSession(c, p, snapshots[i]);
      forall id
        ensures StillPending(snapshots, outcomes + [outcome], old(p.pending), id) <==>
                if Decides(snapshots, outcomes + [outcome], i, id) then outcome.Unfenced?
                else StillPending(snapshots, outcomes, old(p.pending), id)
      {
        NextPending(snapshots, outcomes, outcome, old(p.pending), id);
      }
      outcomes := outcomes + [outcome];
      match outcome {
        case Adopted => adopted := adopted + 1;
        case Unfenced =>
        case Foreign =>
        case Unread => return;
        case Unmarked => return;
        case _ => stopped := stopped + 1;
      }
    }
  }
}
