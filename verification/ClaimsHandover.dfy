/**
 How a session gets from one host to another: by the release at the end of `finish`, or because its
 owner's lease has lapsed.
 */
module ClaimsHandover {
  import opened Wrappers
  import opened Claims
  import opened ClaimsLimits

  /** One effect of `finish` that succeeds. */
  lemma Finished(w: World, id: SessionId, task: Task, s': Session)
    requires id in w.sessions && task in w.sessions[id].tasks.finishes
    requires w.sessions[id].tasks.finishes[task].rt in w.sessions[id].tasks.runtimes
    requires s' == FinishStepOf(w.live, w.sessions[id], task, true)
    ensures Executes(w, [InSession(id, FinishStep(task, true))], With(w, id, s'))
  {
    One(w, id, w.sessions[id], FinishStep(task, true), s');
  }

  lemma Longer(w: World, events: seq<Event>, mid: World, id: SessionId, task: Task) returns (more: seq<Event>, w': World)
    requires Executes(w, events, mid) && id in mid.sessions && task in mid.sessions[id].tasks.finishes
    requires mid.sessions[id].tasks.finishes[task].rt in mid.sessions[id].tasks.runtimes
    ensures Executes(w, more, w')
    ensures w' == With(mid, id, FinishStepOf(mid.live, mid.sessions[id], task, true))
  {
    w' := With(mid, id, FinishStepOf(mid.live, mid.sessions[id], task, true));
    Finished(mid, id, task, w'.sessions[id]);
    Chain(w, events, mid, [InSession(id, FinishStep(task, true))], w');
    more := events + [InSession(id, FinishStep(task, true))];
  }

  /** The runtime of h is over, and its claim is released. */
  ghost predicate Vacated(w: World, w': World, id: SessionId, h: Host)
    requires id in w.sessions && h in w.sessions[id].tasks.registry && w.sessions[id].tasks.registry[h] in w.sessions[id].tasks.runtimes
  {
    var s := w.sessions[id];
    && w'.live == w.live && id in w'.sessions && w'.sessions[id].claims == s.claims
    && w'.sessions[id].tasks.registry == s.tasks.registry - {h}
    && w'.sessions[id].row == Some(Row(None, s.tasks.runtimes[s.tasks.registry[h]].incarnation))
  }

  /** The stop, its record and the dropped entry. */
  lemma StoppedAndDropped(w: World, events: seq<Event>, mid: World, id: SessionId, task: Task, h: Host, rt: Runtime)
    returns (more: seq<Event>, w': World)
    requires Executes(w, events, mid) && id in mid.sessions && task in mid.sessions[id].tasks.finishes
    requires var k := mid.sessions[id].tasks;
             k.finishes[task] == Finish(rt, Stop) && rt in k.runtimes && k.runtimes[rt].host == h && h in k.registry && k.registry[h] == rt
    ensures Executes(w, more, w') && w'.live == mid.live && id in w'.sessions
    ensures var s, s' := mid.sessions[id], w'.sessions[id];
            && s'.row == s.row && s'.claims == s.claims && s'.tasks.registry == s.tasks.registry - {h}
            && s'.tasks.runtimes == s.tasks.runtimes
            && task in s'.tasks.finishes && s'.tasks.finishes[task] == Finish(rt, Release)
  {
    var e1, w1 := Longer(w, events, mid, id, task);
    var e2, w2 := Longer(w, e1, w1, id, task);
    more, w' := Longer(w, e2, w2, id, task);
  }

  /** The release and the callbacks. */
  lemma ReleasedAndOver(w: World, events: seq<Event>, mid: World, id: SessionId, task: Task, rt: Runtime)
    returns (more: seq<Event>, w': World)
    requires Executes(w, events, mid) && id in mid.sessions && task in mid.sessions[id].tasks.finishes
    requires var s := mid.sessions[id];
             && s.tasks.finishes[task] == Finish(rt, Release) && rt in s.tasks.runtimes
             && s.row == Some(Row(Some(s.tasks.runtimes[rt].host), s.tasks.runtimes[rt].incarnation))
    ensures Executes(w, more, w') && w'.live == mid.live && id in w'.sessions
    ensures var s, s' := mid.sessions[id], w'.sessions[id];
            && s'.row == Some(Row(None, s.tasks.runtimes[rt].incarnation))
            && s'.claims == s.claims && s'.tasks.registry == s.tasks.registry
  {
    var e1, w1 := Longer(w, events, mid, id, task);
    more, w' := Longer(w, e1, w1, id, task);
  }

  /** An undisturbed end of the runtime that a live host owns. */
  lemma EndVacates(w: World, id: SessionId, h: Host) returns (events: seq<Event>, w': World)
    requires id in w.sessions && Owns(w.live, w.sessions[id], h)
    ensures Executes(w, events, w') && Vacated(w, w', id, h)
  {
    var s := w.sessions[id];
    var rt, task := s.tasks.registry[h], s.tasks.ids;
    var e1, w1 := FencePassed(w, id, h);
    var e2, w2 := StoppedAndDropped(w, e1, w1, id, task, h, rt);
    events, w' := ReleasedAndOver(w, e2, w2, id, task, rt);
  }

  /**
   From any moment in which a live host owns a session, an undisturbed end of its runtime lets any
   other live host, that has nothing to do with the session yet, claim and register it.
   */
  lemma EndHandsOver(w: World, id: SessionId, h: Host, other: Host) returns (events: seq<Event>, w': World)
    requires id in w.sessions && Owns(w.live, w.sessions[id], h) && other in w.live && other != h
    requires other !in w.sessions[id].claims && other !in w.sessions[id].tasks.registry
    ensures Executes(w, events, w') && w'.live == w.live && id in w'.sessions
    ensures var s, s' := w.sessions[id], w'.sessions[id];
            && other in s'.tasks.registry && h !in s'.tasks.registry
            && s'.row == Some(Row(Some(other), s.tasks.runtimes[s.tasks.registry[h]].incarnation + 1))
  {
    var vacated, w1 := EndVacates(w, id, h);
    var taken, w2 := ClaimTaken(w1, id, other, Wake);
    Chain(w, vacated, w1, taken, w2);
    var s2 := w2.sessions[id];
    var s3 := ClaimStep(w2.live, s2, Register(other)).value;
    One(w2, id, s2, Register(other), s3);
    Chain(w, vacated + taken, w2, [InSession(id, Register(other))], With(w2, id, s3));
    events, w' := vacated + taken + [InSession(id, Register(other))], With(w2, id, s3);
  }

  /**
   A crashed claimant does not wedge a session: when the lease of the owner lapses, any other live
   host that has nothing to do with the session can claim and register it.
   */
  lemma LapsedOwnerIsReplaced(w: World, id: SessionId, h: Host, n: nat, other: Host) returns (events: seq<Event>, w': World)
    requires id in w.sessions && w.sessions[id].row == Some(Row(Some(h), n)) && other in w.live && other != h
    requires other !in w.sessions[id].claims && other !in w.sessions[id].tasks.registry
    ensures Executes(w, events, w') && id in w'.sessions && w'.live == w.live - {h}
    ensures events != [] && events[0] == LeaseLapses(h)
    ensures other in w'.sessions[id].tasks.registry && w'.sessions[id].row == Some(Row(Some(other), n + 1))
  {
    var w1 := w.(live := w.live - {h});
    assert Step(w, LeaseLapses(h)) == Some(w1);
    assert Executes(w1, [], w1) && [LeaseLapses(h)][1..] == [];
    var taken, w2 := DeadOwnersRowTaken(w1, id, h, n, other);
    Chain(w, [LeaseLapses(h)], w1, taken, w2);
    var s := w2.sessions[id];
    var s' := ClaimStep(w2.live, s, Register(other)).value;
    One(w2, id, s, Register(other), s');
    Chain(w, [LeaseLapses(h)] + taken, w2, [InSession(id, Register(other))], With(w2, id, s'));
    events, w' := [LeaseLapses(h)] + taken + [InSession(id, Register(other))], With(w2, id, s');
  }

  /** The claim reads the row, finds that its owner is not alive, and swaps. */
  lemma DeadOwnersRowTaken(w: World, id: SessionId, h: Host, n: nat, other: Host) returns (events: seq<Event>, w': World)
    requires id in w.sessions && w.sessions[id].row == Some(Row(Some(h), n)) && h !in w.live && other != h
    requires other !in w.sessions[id].claims && other !in w.sessions[id].tasks.registry
    ensures Executes(w, events, w') && w'.live == w.live && id in w'.sessions
    ensures var s, s' := w.sessions[id], w'.sessions[id];
            && other in s'.claims && s'.claims[other] == Holding(n + 1) && s'.row == Some(Row(Some(other), n + 1))
            && s'.tasks == s.tasks
  {
    var s := w.sessions[id];
    var s1 := ClaimStep(w.live, s, StartClaim(other, Wake)).value;
    var s2 := s1.(claims := s1.claims[other := CheckHolder(Row(Some(h), n))]);
    var s3 := s2.(claims := s2.claims[other := Swap(s.row)]);
    var s4 := s3.(row := Some(Row(Some(other), n + 1)), claims := s3.claims[other := Holding(n + 1)]);
    One(w, id, s, StartClaim(other, Wake), s1);
    One(With(w, id, s1), id, s1, ClaimRead(other, true), s2);
    One(With(w, id, s2), id, s2, ClaimCheck(other, true), s3);
    One(With(w, id, s3), id, s3, ClaimSwap(other, n + 1, true, true), s4);
    WithTwice(w, id, s1, s2);
    WithTwice(w, id, s2, s3);
    WithTwice(w, id, s3, s4);
    var e1, e2 := InSession(id, StartClaim(other, Wake)), InSession(id, ClaimRead(other, true));
    var e3, e4 := InSession(id, ClaimCheck(other, true)), InSession(id, ClaimSwap(other, n + 1, true, true));
    Chain(w, [e1], With(w, id, s1), [e2], With(w, id, s2));
    Chain(w, [e1] + [e2], With(w, id, s2), [e3], With(w, id, s3));
    Chain(w, [e1] + [e2] + [e3], With(w, id, s3), [e4], With(w, id, s4));
    events, w' := [e1] + [e2] + [e3] + [e4], With(w, id, s4);
  }

  lemma WithTwice(w: World, id: SessionId, s: Session, s': Session)
    ensures With(With(w, id, s), id, s') == With(w, id, s')
  {
  }

  /** A live owner, on the other hand, refuses everybody else: the claim ends without touching the row. */
  lemma LiveOwnerRefuses(live: set<Host>, s: Session, h: Host, n: nat, other: Host, ok: bool)
    requires s.row == Some(Row(Some(h), n)) && h in live && other != h
    requires other in s.claims && s.claims[other].ReadClaim?
    ensures var read := SessionStep(live, s, ClaimRead(other, true));
            && read.Some? && SessionStep(live, read.value, ClaimCheck(other, ok)) == Some(s.(claims := s.claims - {other}))
  {
    var s1 := SessionStep(live, s, ClaimRead(other, true)).value;
    assert s1.claims - {other} == s.claims - {other};
  }

  /** Three failed reads of the fence are repeated; the fourth gives up and schedules a later run. */
  lemma FourthReadDefers(live: set<Host>, s: Session, task: Task)
    requires task in s.tasks.finishes && s.tasks.finishes[task].pc == ReadFence(0)
    requires s.tasks.finishes[task].rt in s.tasks.runtimes
    ensures var rt := s.tasks.finishes[task].rt;
            var s1 := FinishStepOf(live, s, task, false);
            var s2 := FinishStepOf(live, s1, task, false);
            var s3 := FinishStepOf(live, s2, task, false);
            var s4 := FinishStepOf(live, s3, task, false);
            && s3 == s.(tasks := s.tasks.(finishes := s.tasks.finishes[task := Finish(rt, ReadFence(3))]))
            && task !in s4.tasks.finishes && s4.tasks.runtimes[rt].scheduled && s4.row == s.row && s4.claims == s.claims
            && s4.tasks.registry == s.tasks.registry
  {
    var rt := s.tasks.finishes[task].rt;
    var s1 := FinishStepOf(live, s, task, false);
    assert s1.tasks.finishes == s.tasks.finishes[task := Finish(rt, ReadFence(1))];
    var s2 := FinishStepOf(live, s1, task, false);
    assert s2.tasks.finishes == s.tasks.finishes[task := Finish(rt, ReadFence(2))];
    var s3 := FinishStepOf(live, s2, task, false);
    assert s3.tasks.finishes == s.tasks.finishes[task := Finish(rt, ReadFence(3))];
  }
}
