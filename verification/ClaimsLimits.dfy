/**
 Where the claim protocol stops protecting: a host that starts a claim over a runtime it has
 registered. Startup adoption does so for a second listed container of a session, and a spawn
 does so after retryPendingAdoption registered a runtime whose finalization was deferred.
 */
module ClaimsLimits {
  import opened Wrappers
  import opened Claims

  ghost predicate Executes(w: World, events: seq<Event>, w': World)
    decreases |events|
  {
    if events == [] then w == w'
    else Step(w, events[0]).Some? && Executes(Step(w, events[0]).value, events[1..], w')
  }

  lemma {:induction false} Chain(w: World, first: seq<Event>, mid: World, rest: seq<Event>, w': World)
    requires Executes(w, first, mid) && Executes(mid, rest, w')
    ensures Executes(w, first + rest, w')
    decreases |first|
  {
    if first == [] {
      assert first + rest == rest;
    } else {
      Chain(Step(w, first[0]).value, first[1..], mid, rest, w');
      assert (first + rest)[1..] == first[1..] + rest;
    }
  }

  /** Executions are histories. */
  lemma {:induction false} ExecutesIsHistory(h: seq<World>, events: seq<Event>, w': World) returns (h': seq<World>)
    requires History(h) && Executes(h[|h| - 1], events, w')
    ensures History(h') && h <= h' && h'[|h'| - 1] == w'
    decreases |events|
  {
    if events == [] {
      h' := h;
    } else {
      var next := Step(h[|h| - 1], events[0]).value;
      var longer := h + [next];
      forall i: nat | i + 1 < |longer|
        ensures NextAt(longer, i)
      {
        if i + 1 < |h| {
          assert NextAt(h, i);
        } else {
          assert Step(longer[i], events[0]) == Some(longer[i + 1]);
        }
      }
      h' := ExecutesIsHistory(longer, events[1..], w');
    }
  }

  function With(w: World, id: SessionId, s: Session): World {
    w.(sessions := w.sessions[id := s])
  }

  lemma One(w: World, id: SessionId, s: Session, a: Action, s': Session)
    requires id in w.sessions && w.sessions[id] == s && SessionStep(w.live, s, a) == Some(s')
    ensures Executes(w, [InSession(id, a)], With(w, id, s'))
  {
    assert Executes(With(w, id, s'), [], With(w, id, s'));
    assert [InSession(id, a)][1..] == [];
  }

  /** An undisturbed claim task takes a row that nobody else owns. */
  lemma ClaimTaken(w: World, id: SessionId, h: Host, kind: Kind) returns (events: seq<Event>, w': World)
    requires id in w.sessions && h !in w.sessions[id].claims
    requires kind.Wake? ==> h !in w.sessions[id].tasks.registry
    requires var row := w.sessions[id].row; row.Some? && row.value.owner.Some? ==> row.value.owner.value == h
    ensures events != [] && events[0] == InSession(id, StartClaim(h, kind)) && Executes(w, events, w')
    ensures
      var s := w.sessions[id];
      var n := Incarnation(s.row) + 1;
      w' == With(w, id, s.(row := Some(Row(Some(h), n)), claims := s.claims[h := Holding(n)],
                           overclaimed := if h in s.tasks.registry then s.overclaimed + {h} else s.overclaimed))
  {
    var s := w.sessions[id];
    var n := Incarnation(s.row) + 1;
    var s1 := ClaimStep(w.live, s, StartClaim(h, kind)).value;
    var s2 := s1.(claims := s.claims[h := Swap(s.row)]);
    var s3 := s2.(row := Some(Row(Some(h), n)), claims := s.claims[h := Holding(n)]);
    assert s1.claims[h := Swap(s.row)] == s2.claims;
    assert s2.claims[h := Holding(n)] == s3.claims;
    One(w, id, s, StartClaim(h, kind), s1);
    One(With(w, id, s1), id, s1, ClaimRead(h, true), s2);
    One(With(w, id, s2), id, s2, ClaimSwap(h, n, true, true), s3);
    assert With(With(w, id, s1), id, s2) == With(w, id, s2) && With(With(w, id, s2), id, s3) == With(w, id, s3);
    var e1, e2, e3 := InSession(id, StartClaim(h, kind)), InSession(id, ClaimRead(h, true)), InSession(id, ClaimSwap(h, n, true, true));
    Chain(w, [e1], With(w, id, s1), [e2], With(w, id, s2));
    Chain(w, [e1] + [e2], With(w, id, s2), [e3], With(w, id, s3));
    events, w' := [e1] + [e2] + [e3], With(w, id, s3);
  }

  /**
   From any moment in which a live host owns a session, one claim over its own runtime can end
   with two live hosts having the session registered: the new claim is released when the spawn
   or adoption behind it fails, and the release opens the row to everyone.
   */
  lemma OverclaimCanSplitOwnership(w: World, id: SessionId, h: Host, other: Host) returns (events: seq<Event>, w': World)
    requires id in w.sessions && {h, other} <= w.live && h != other
    requires var s := w.sessions[id];
             && h in s.tasks.registry && other !in s.tasks.registry
             && h !in s.claims && other !in s.claims
             && s.row.Some? && s.row.value.owner == Some(h)
    ensures Executes(w, events, w') && events != [] && events[0] == InSession(id, StartClaim(h, Reclaim))
    ensures id in w'.sessions && {h, other} <= w'.live
    ensures {h, other} <= w'.sessions[id].tasks.registry.Keys
  {
    var claimed, w1 := ClaimTaken(w, id, h, Reclaim);
    var s1 := w1.sessions[id];
    var n := s1.claims[h].incarnation;
    var s2 := s1.(claims := s1.claims[h := Releasing(n)]);
    var s3 := s2.(claims := s2.claims - {h}, row := Some(Row(None, n)));
    One(w1, id, s1, ClaimFails(h), s2);
    One(With(w1, id, s2), id, s2, ClaimRelease(h, true), s3);
    var w3 := With(With(w1, id, s2), id, s3);
    Chain(w, claimed, w1, [InSession(id, ClaimFails(h))], With(w1, id, s2));
    var released := claimed + [InSession(id, ClaimFails(h))];
    Chain(w, released, With(w1, id, s2), [InSession(id, ClaimRelease(h, true))], w3);
    released := released + [InSession(id, ClaimRelease(h, true))];
    var taken, w4 := ClaimTaken(w3, id, other, Wake);
    Chain(w, released, w3, taken, w4);
    var s4 := w4.sessions[id];
    var s5 := ClaimStep(w4.live, s4, Register(other)).value;
    One(w4, id, s4, Register(other), s5);
    Chain(w, released + taken, w4, [InSession(id, Register(other))], With(w4, id, s5));
    events, w' := released + taken + [InSession(id, Register(other))], With(w4, id, s5);
    assert events[0] == claimed[0];
  }

  /** A session that host 0 runs, with host 1 alive beside it. */
  lemma HostZeroRuns(id: SessionId) returns (h: seq<World>)
    ensures History(h)
    ensures
      var w := h[|h| - 1];
      && w.live == {0, 1} && id in w.sessions
      && w.sessions[id].tasks.registry == map[0 := 0] && w.sessions[id].claims == map[]
      && w.sessions[id].tasks.runtimes == map[0 := Info(0, 1, false, false, 0)]
      && w.sessions[id].tasks.finishes == map[] && w.sessions[id].tasks.ids == 1
      && w.sessions[id].row == Some(Row(Some(0), 1)) && w.sessions[id].marks == []
  {
    var w0 := World({0, 1}, map[id := EMPTY_SESSION]);
    assert History([w0]);
    var taken, w1 := ClaimTaken(w0, id, 0, Wake);
    var s1 := w1.sessions[id];
    var s2 := ClaimStep(w1.live, s1, Register(0)).value;
    One(w1, id, s1, Register(0), s2);
    Chain(w0, taken, w1, [InSession(id, Register(0))], With(w1, id, s2));
    h := ExecutesIsHistory([w0], taken + [InSession(id, Register(0))], With(w1, id, s2));
  }

  /** So single ownership does not hold of every history. */
  lemma SingleOwnerNeedsNoOverclaim(id: SessionId)
    ensures exists h: seq<World> ::
      && History(h) && id in h[|h| - 1].sessions
      && {0, 1} <= h[|h| - 1].live && {0, 1} <= h[|h| - 1].sessions[id].tasks.registry.Keys
  {
    var h := HostZeroRuns(id);
    var events, w' := OverclaimCanSplitOwnership(h[|h| - 1], id, 0, 1);
    var h' := ExecutesIsHistory(h, events, w');
  }

  /** The runtime that a live host has registered, and owns the row for. */
  predicate Owns(live: set<Host>, s: Session, h: Host) {
    && h in live && h !in s.claims && h in s.tasks.registry && s.tasks.registry[h] in s.tasks.runtimes
    && var info := s.tasks.runtimes[s.tasks.registry[h]];
       info.host == h && !info.finished && s.row == Some(Row(Some(h), info.incarnation))
  }

  /** The end of the owned runtime has been seen, and its finish has passed the fence. */
  lemma FencePassed(w: World, id: SessionId, h: Host) returns (events: seq<Event>, w': World)
    requires id in w.sessions && Owns(w.live, w.sessions[id], h)
    ensures Executes(w, events, w')
    ensures
      var s := w.sessions[id];
      var rt, task := s.tasks.registry[h], s.tasks.ids;
      var k := Begun(s.tasks.(runtimes := s.tasks.runtimes[rt := s.tasks.runtimes[rt].(finished := true)]), rt);
      w' == With(w, id, s.(tasks := Goto(k, task, Stop)))
  {
    var s := w.sessions[id];
    var rt, task := s.tasks.registry[h], s.tasks.ids;
    var s1 := s.(tasks := Terminated(s.tasks, rt));
    var s2 := FinishStepOf(w.live, s1, task, true);
    One(w, id, s, Terminal(rt), s1);
    One(With(w, id, s1), id, s1, FinishStep(task, true), s2);
    w' := With(With(w, id, s1), id, s2);
    events := [InSession(id, Terminal(rt))] + [InSession(id, FinishStep(task, true))];
    Chain(w, [InSession(id, Terminal(rt))], With(w, id, s1), [InSession(id, FinishStep(task, true))], w');
  }

  /** A finish before its stop goes on to record the stop, whatever the row says by then. */
  lemma StopRecorded(w: World, id: SessionId, task: Task) returns (events: seq<Event>, w': World)
    requires id in w.sessions && task in w.sessions[id].tasks.finishes && w.sessions[id].tasks.finishes[task].pc.Stop?
    requires w.sessions[id].tasks.finishes[task].rt in w.sessions[id].tasks.runtimes
    ensures Executes(w, events, w') && w'.live == w.live && id in w'.sessions
    ensures
      var s, s' := w.sessions[id], w'.sessions[id];
      var rt := s.tasks.finishes[task].rt;
      && s'.tasks.runtimes == s.tasks.runtimes
      && s'.marks == s.marks + [Stopped(rt, s.row, s.tasks.runtimes[rt].host in w.live)]
  {
    var s := w.sessions[id];
    var s1 := FinishStepOf(w.live, s, task, true);
    var s2 := FinishStepOf(w.live, s1, task, true);
    One(w, id, s, FinishStep(task, true), s1);
    One(With(w, id, s1), id, s1, FinishStep(task, true), s2);
    w' := With(With(w, id, s1), id, s2);
    events := [InSession(id, FinishStep(task, true))] + [InSession(id, FinishStep(task, true))];
    Chain(w, [InSession(id, FinishStep(task, true))], With(w, id, s1), [InSession(id, FinishStep(task, true))], w');
  }

  /**
   Nor does the fence hold: from any moment in which a live host owns a session, a claim over its
   own runtime, taken while the finish of that runtime waits for the driver, is stopped under its
   feet. The stop is recorded for the old incarnation while the row names a larger one.
   */
  lemma OverclaimCanBreakFence(w: World, id: SessionId, h: Host) returns (events: seq<Event>, w': World)
    requires id in w.sessions && Owns(w.live, w.sessions[id], h)
    ensures Executes(w, events, w') && w'.live == w.live && id in w'.sessions
    ensures
      var s, s' := w.sessions[id], w'.sessions[id];
      var rt := s.tasks.registry[h];
      var n := s.tasks.runtimes[rt].incarnation;
      && s'.marks == s.marks + [Stopped(rt, Some(Row(Some(h), n + 1)), true)]
      && rt in s'.tasks.runtimes && s'.tasks.runtimes[rt].incarnation == n
  {
    var passed, w1 := FencePassed(w, id, h);
    var taken, w2 := ClaimTaken(w1, id, h, Reclaim);
    Chain(w, passed, w1, taken, w2);
    var recorded;
    recorded, w' := StopRecorded(w2, id, w.sessions[id].tasks.ids);
    Chain(w, passed + taken, w2, recorded, w');
    events := passed + taken + recorded;
  }

  /** So the fence does not hold of every history either. */
  lemma FenceNeedsNoOverclaim(id: SessionId)
    ensures exists h: seq<World> ::
      && History(h) && id in h[|h| - 1].sessions
      && h[|h| - 1].sessions[id].marks == [Stopped(0, Some(Row(Some(0), 2)), true)]
      && 0 in h[|h| - 1].sessions[id].tasks.runtimes
      && h[|h| - 1].sessions[id].tasks.runtimes[0].incarnation == 1
  {
    var h := HostZeroRuns(id);
    var events, w' := OverclaimCanBreakFence(h[|h| - 1], id, 0);
    var h' := ExecutesIsHistory(h, events, w');
    assert w'.sessions[id].marks == [Stopped(0, Some(Row(Some(0), 2)), true)];
  }
}
