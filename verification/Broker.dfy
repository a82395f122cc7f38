/**
 The loop of broker/main.py, effect by effect. The program only ever takes steps of the
 protocol, so everything proved over histories holds at each of its crash points; and it
 gives back the budget it reserved on every way out.
 */
module Broker {
  import opened Wrappers
  import opened Budget
  import opened Journal
  import opened BrokerAnswers
  import opened BrokerProtocol
  import Safety = BrokerSafety

  const DEFAULT_TARGET: string := "default"

  /**
   The machine one broker process runs on; clients act whenever an effect is awaited. On a calm one
   nobody else acts, nothing fails that need not, and the file taken at moment `mark` is read and
   answered as `given`.
   */
  class World {
    const me: Proc
    const calm: bool
    var given: Given
    var s: State
    ghost var h: seq<State>
    ghost var mark: nat

    ghost predicate Valid()
      reads this
    {
      && History(h) && h[|h| - 1] == s && given.admitted.None?
      && (calm ==> Calm(h, mark, |h| - 1, me, given))
    }

    predicate Doing(l: Local)
      reads this
    {
      me in s.locals && s.locals[me] == l
    }

    constructor (me: Proc, calm: bool, s: State)
      requires Init(s)
      ensures Valid() && this.me == me && this.calm == calm && this.s == s
    {
      this.me, this.calm, this.s := me, calm, s;
      given := Given(Raw("", None), None, Reply(""));
      h, mark := [s], 0;
    }

    ghost method Extend(a: Action)
      requires Valid() && Step(s, a).Some?
      modifies this`h
      ensures History(h) && h == old(h) + [Step(s, a).value]
      ensures calm && a.Run? && a.p == me && CalmEvent(s, me, a.event, given) ==> Calm(h, mark, |h| - 1, me, given)
    {
      var h' := h + [Step(s, a).value];
      forall i: nat | i + 1 < |h'|
        ensures NextAt(h', i)
      {
        if i + 1 < |h| {
          assert NextAt(h, i);
        } else {
          assert Step(h'[i], a) == Some(h'[i + 1]);
        }
      }
      if calm && a.Run? && a.p == me && CalmEvent(s, me, a.event, given) {
        assert CalmNext(h'[|h| - 1], h'[|h|], me, given);
        forall k: nat | mark <= k < |h|
          ensures CalmAt(h', k, me, given)
        {
          assert k + 1 < |h| ==> CalmAt(h, k, me, given);
        }
      }
      h := h';
    }

    /** What clients cannot touch. */
    ghost predicate Undisturbed(before: State)
      reads this
    {
      && s.record == before.record && s.owner == before.owner && s.locals == before.locals
      && s.files.pending == before.files.pending && s.files.uuids == before.files.uuids
    }

    method Interfere()
      requires Valid()
      modifies this`s, this`h
      ensures Valid() && old(h) <= h && Undisturbed(old(s))
      ensures calm ==> s == old(s)
    {
      if calm {
        return;
      }
      var n: int := *;
      for i := 0 to if n < 0 then 0 else n
        invariant Valid() && old(h) <= h && Undisturbed(old(s))
      {
        var c: Client := *;
        var f := ClientStep(s.files, c);
        if f.Some? {
          Extend(ByClient(c));
          s := s.(files := f.value);
        }
      }
    }

    /** A step inside a batch. */
    method Take(e: Event)
      requires Valid() && Step(s, Run(me, e)).Some? && (calm ==> CalmEvent(s, me, e, given))
      modifies this`s, this`h
      ensures Valid() && old(h) <= h && s == Step(old(s), Run(me, e)).value
    {
      Extend(Run(me, e));
      s := Step(s, Run(me, e)).value;
    }

    /** Whether the next effect fails before or after it takes place. */
    method Trouble() returns (early: bool, late: bool)
      ensures calm ==> !early && !late
    {
      early, late := *, *;
      if calm {
        early, late := false, false;
      }
    }

    lemma Now()
      requires Valid()
      ensures Safety.Inv(s)
    {
      Safety.HistoryKeeps(h, |h| - 1);
    }

    /** The first entries of the inbox, in any order: all of them, or eight. */
    method ListInbox() returns (queue: seq<Name>)
      ensures Listing(s.files.inbox.Keys, queue)
    {
      queue := [];
      var rest := s.files.inbox.Keys;
      while |queue| < MAX_QUEUE_SIZE && rest != {}
        invariant |queue| <= MAX_QUEUE_SIZE && |queue| + |rest| == |s.files.inbox.Keys|
        invariant rest <= s.files.inbox.Keys && forall k | 0 <= k < |queue| :: queue[k] in s.files.inbox.Keys - rest
        invariant forall k, l | 0 <= k < l < |queue| :: queue[k] != queue[l]
        decreases rest
      {
        var name :| name in rest;
        queue, rest := queue + [name], rest - {name};
      }
    }

    /** Journal.__enter__ and the directory listing; false is BlockingIOError. */
    method Enter() returns (locked: bool, queue: seq<Name>)
      requires Valid() && me !in s.locals
      modifies this
      ensures Valid() && old(h) <= h
      ensures s.files.pending == old(s.files.pending)
      ensures calm ==> s.record == old(s.record) && s.files == old(s.files) && locked == (old(s).owner == None)
      ensures locked ==> Doing(Batch(queue, s.files.pending.Keys)) && Listing(s.files.inbox.Keys, queue)
      ensures !locked ==> me !in s.locals
    {
      Interfere();
      queue := ListInbox();
      locked := s.owner == None;
      if locked {
        Extend(Lock(me, queue));
        s := Step(s, Lock(me, queue)).value;
        mark := |h| - 1;
      }
    }

    method Exit(ghost base: set<Uuid>)
      requires Valid() && Doing(Batch([], base))
      modifies this`s, this`h
      ensures Valid() && old(h) <= h && me !in s.locals && s.files.pending.Keys == base
    {
      Safety.BatchLeavesNothingPending(h, |h| - 1, me);
      Take(Leave);
    }

    method NextFile(l: Local) returns (job: Job)
      requires Valid() && l.Batch? && l.queue != [] && Doing(l)
      modifies this
      ensures Valid() && old(h) <= h && Doing(Work(l.queue[1..], l.base, job, Rename)) && !job.reserved
      ensures mark == |old(h)| - 1
    {
      var raw: Raw, response: Response := *, *;
      given := Given(raw, None, response);
      mark := |h| - 1;
      var uuid := Unused(s.files.uuids);
      job := Job(l.queue[0], uuid, false);
      Take(Begin(uuid));
    }

    /** An effect that raises before it happens. */
    method Throw(l: Local)
      requires Valid() && l.Work? && Doing(l)
      requires !l.pc.Admit? && !l.pc.Handle? && !l.pc.Move? && !l.pc.Cleanup?
      requires calm ==> Impossible(s, me)
      modifies this`s, this`h
      ensures Valid() && old(h) <= h && Doing(l.(pc := Handle(IdentityAt(l.pc))))
    {
      Take(Fail);
    }

    /** rename and the two directory syncs. */
    method RenameClaimed(l: Local) returns (ok: bool)
      requires Valid() && l.Work? && l.pc == Rename && Doing(l)
      modifies this`s, this`h
      ensures Valid() && old(h) <= h && Doing(l.(pc := if ok then Read else Handle(None)))
    {
      Interfere();
      var early, late := Trouble();
      if early || l.job.name !in s.files.inbox {
        Throw(l);
        return false;
      }
      Take(if late then FailLate else Done);
      return !late;
    }

    /** read_request and parse_request, on whatever bytes are found. */
    method ReadRequest(l: Local) returns (raw: Option<Raw>)
      requires Valid() && l.Work? && l.pc == Read && Doing(l)
      modifies this`s, this`h
      ensures Valid() && old(h) <= h
      ensures Doing(l.(pc := if raw.Some? then AfterRead(l.job.name, raw.value) else Handle(None)))
    {
      Interfere();
      var early, _ := Trouble();
      if early {
        Throw(l);
        return None;
      }
      raw := Some(given.raw);
      Take(Got(given.raw));
    }

    /** Journal.claim: the commit happens, fails, or happens before an exception. */
    method ClaimRow(l: Local) returns (outcome: Option<Outcome>)
      requires Valid() && l.Work? && l.pc.Claim? && Doing(l)
      modifies this`s, this`h
      ensures Valid() && old(h) <= h
      ensures
        Doing(l.(pc := if outcome.None? || outcome.value.CONFLICT? then Handle(Some(l.pc.req.id))
                       else Look(l.pc.req, outcome.value)))
    {
      Interfere();
      var early, late := Trouble();
      if early {
        Throw(l);
        return None;
      }
      outcome := if late then None else Some(Claimed(s.record.rows, l.pc.req.id, l.pc.raw).1);
      Take(if late then FailLate else Done);
    }

    /** os.path.lexists on the response path. */
    method ResponsePresent(l: Local) returns (found: bool)
      requires Valid() && l.Work? && l.pc.Look? && Doing(l)
      modifies this`s, this`h
      ensures Valid() && old(h) <= h
      ensures Doing(l.(pc := if found then MarkExisting(l.pc.req) else Dispatch(l.pc.req, l.pc.outcome)))
    {
      Interfere();
      found := l.pc.req.id in s.files.out;
      Take(Done);
    }

    /** Journal.uncertain: raising or not, the handler comes next. */
    method UncertainRow(l: Local)
      requires Valid() && l.Work? && l.pc.MarkExisting? && Doing(l)
      modifies this`s, this`h
      ensures Valid() && old(h) <= h && Doing(l.(pc := Handle(Some(l.pc.req.id))))
    {
      Interfere();
      var early, late := Trouble();
      Take(if early then Fail else if late then FailLate else Done);
    }

    /** publish: fails on an existing file, or after the link when a sync or the unlink fails. */
    method PublishResponse(l: Local) returns (ok: bool)
      requires Valid() && l.Work? && l.pc.Publish? && Doing(l)
      modifies this`s, this`h
      ensures Valid() && old(h) <= h
      ensures Doing(l.(pc := if ok && !l.pc.raises then Unlink(l.pc.req) else Handle(Some(l.pc.req.id))))
    {
      Interfere();
      var early, late := Trouble();
      if early || l.pc.req.id in s.files.out {
        Throw(l);
        return false;
      }
      Take(if late then FailLate else Done);
      return !late;
    }

    method Admission(l: Local, ok: bool)
      requires Valid() && l.Work? && l.pc.Admit? && Doing(l)
      modifies this`s, this`h
      ensures Valid() && old(h) <= h
      ensures Doing(if ok then l.(job := l.job.(reserved := true), pc := Call(l.pc.req)) else l.(pc := Refuse(l.pc.req)))
    {
      Take(Allowed(ok));
    }

    /** Journal.finish with the answer to publish. */
    method FinishRow(l: Local) returns (ok: bool)
      requires Valid() && l.Work? && (l.pc.Refuse? || l.pc.Finish?) && Doing(l)
      modifies this`s, this`h
      ensures Valid() && old(h) <= h
      ensures
        var answer := if l.pc.Refuse? then BudgetExhausted(l.pc.req.id) else l.pc.response;
        Doing(l.(pc := if ok then Publish(l.pc.req, answer, Answer, l.pc.Refuse?) else Handle(Some(l.pc.req.id))))
    {
      Interfere();
      Now();
      var early, late := Trouble();
      if early {
        Throw(l);
        return false;
      }
      Take(if late then FailLate else Done);
      return !late;
    }

    /** The model call: it has begun once the request left, whether or not an answer comes. */
    method CallModel(l: Local) returns (response: Option<Response>)
      requires Valid() && l.Work? && l.pc.Call? && Doing(l)
      modifies this`s, this`h
      ensures Valid() && old(h) <= h
      ensures Doing(l.(pc := if response.Some? then Finish(l.pc.req, response.value) else Handle(Some(l.pc.req.id))))
    {
      Interfere();
      var early, unanswered := Trouble();
      if early {
        Throw(l);
        return None;
      }
      Take(Done);
      Interfere();
      response := if unanswered then None else Some(given.response);
      Take(if unanswered then Fail else Returned(given.response));
    }

    method UnlinkClaimed(l: Local) returns (ok: bool)
      requires Valid() && l.Work? && l.pc.Unlink? && Doing(l)
      modifies this`s, this`h
      ensures Valid() && old(h) <= h
      ensures Doing(l.(pc := if ok then Cleanup(false) else Handle(Some(l.pc.req.id))))
    {
      Interfere();
      Now();
      assert Safety.LocalInv(s.files, l);
      var early, late := Trouble();
      if early {
        Throw(l);
        return false;
      }
      Take(if late then FailLate else Done);
      return !late;
    }

    /** Move the claimed file, if it is still there, to a free name among the failed ones. */
    method MovePending(l: Local) returns (escapes: bool)
      requires Valid() && l.Work? && l.pc.Move? && Doing(l)
      modifies this`s, this`h
      ensures Valid() && old(h) <= h && Doing(l.(pc := Cleanup(escapes))) && (calm ==> !escapes)
    {
      Interfere();
      if l.job.uuid !in s.files.pending {
        Take(Done);
        return false;
      }
      var early, late := Trouble();
      if early {
        Take(Fail);
        return true;
      }
      var suffix := Unused(s.files.uuids);
      Take(Moved(suffix, late));
      return late;
    }

    /** The except clause: mark the row uncertain, then move what is still pending to failed. */
    method HandleException(l: Local) returns (escapes: bool)
      requires Valid() && l.Work? && l.pc.Handle? && Doing(l)
      modifies this`s, this`h
      ensures Valid() && old(h) <= h && Doing(l.(pc := Cleanup(escapes))) && (calm ==> !escapes)
    {
      Interfere();
      var early, late := Trouble();
      if l.pc.identity.Some? && (early || late) {
        Take(if early then Fail else FailLate);
        return true;
      }
      Take(Done);
      escapes := MovePending(l.(pc := Move));
    }

    /** The end of the finally clause: on to the next file, or out of the batch. */
    method EndFile(l: Local)
      requires Valid() && l.Work? && l.pc.Cleanup? && Doing(l)
      modifies this`s, this`h
      ensures Valid() && old(h) <= h
      ensures if l.pc.escaping then me !in s.locals else Doing(Batch(l.queue, l.base))
    {
      Take(Done);
    }
  }

  /** What a pass takes on: different names, at most eight, and not fewer if there are more. */
  ghost predicate Listing(names: set<Name>, listed: seq<Name>) {
    && (forall k | 0 <= k < |listed| :: listed[k] in names)
    && (forall k, l | 0 <= k < l < |listed| :: listed[k] != listed[l])
    && |listed| == if |names| <= 8 then |names| else 8
  }

  /** uuid4: a name that was never used. */
  method Unused(used: set<Uuid>) returns (unused: Uuid)
    ensures unused !in used
  {
    unused := 0;
    var rest := used;
    while rest != {}
      invariant forall u <- used :: u in rest || u < unused
      decreases rest
    {
      var u :| u in rest;
      rest := rest - {u};
      if u >= unused {
        unused := u + 1;
      }
    }
  }

  ghost predicate BudgetRestored(before: Tracker, t: Tracker) {
    Agree(t) && SameActive(before, t)
  }

  ghost predicate BudgetHeld(before: Tracker, t: Tracker, m: Model) {
    && Agree(before)
    && SameActive(if Limited(m) then Activate(before, m, DEFAULT_TARGET) else before, t)
  }

  lemma HeldIsGivenBack(before: Tracker, t: Tracker, m: Model)
    requires BudgetHeld(before, t, m)
    ensures BudgetRestored(before, Release(t, m, DEFAULT_TARGET))
  {
    if Limited(m) {
      LowerUndoesRaise(before.activeRequests, (m, DEFAULT_TARGET));
      LowerUndoesRaise(before.activeTargets, DEFAULT_TARGET);
    }
  }

  /** can_request and record_request as the broker uses them, each reading the clock anew. */
  method Reserve(t: BudgetTracker, m: Model) returns (ok: bool)
    requires Agree(t.State())
    modifies t
    ensures ok ==> BudgetHeld(old(t.State()), t.State(), m)
    ensures !ok ==> BudgetRestored(old(t.State()), t.State()) && Limited(m)
  {
    var g: real, n: real := *, *;
    CountingKeepsActive(t.State(), m, DEFAULT_TARGET, g, n);
    ok := t.Can(m, DEFAULT_TARGET, g, n);
    if ok {
      g, n := *, *;
      CountingKeepsActive(t.State(), m, DEFAULT_TARGET, g, n);
      t.RecordRequest(m, DEFAULT_TARGET, g, n);
    }
  }

  /** The branch for a request id that was never seen: admission, one call, finish, publish. */
  method ProcessNew(w: World, t: BudgetTracker, l: Local) returns (ok: bool, reserved: bool)
    requires w.Valid() && l.Work? && l.pc.Admit? && w.Doing(l) && Agree(t.State())
    modifies w`s, w`h, t
    ensures w.Valid() && old(w.h) <= w.h
    ensures w.Doing(l.(job := l.job.(reserved := l.job.reserved || reserved),
                       pc := if ok then Unlink(l.pc.req) else Handle(Some(l.pc.req.id))))
    ensures if reserved then BudgetHeld(old(t.State()), t.State(), l.pc.req.model)
            else BudgetRestored(old(t.State()), t.State())
  {
    hide Calm, History, BudgetHeld;
    var req := l.pc.req;
    reserved := Reserve(t, req.model);
    w.Admission(l, reserved);
    if !reserved {
      var finished := w.FinishRow(l.(pc := Refuse(req)));
      if finished {
        var _ := w.PublishResponse(l.(pc := Publish(req, BudgetExhausted(req.id), Answer, true)));
      }
      return false, false;
    }
    var l' := l.(job := l.job.(reserved := true), pc := Call(req));
    var response := w.CallModel(l');
    if response.None? {
      return false, true;
    }
    ok := w.FinishRow(l'.(pc := Finish(req, response.value)));
    if ok {
      ok := w.PublishResponse(l'.(pc := Publish(req, response.value, Answer, false)));
    }
  }

  /** What follows for a claimed id without a response file. */
  method DispatchClaimed(w: World, t: BudgetTracker, l: Local, req: Request, outcome: Outcome) returns (ok: bool, reserved: bool)
    requires l.Work? && l.pc == Dispatch(req, outcome) && !outcome.CONFLICT? && !l.job.reserved
    requires w.Valid() && w.Doing(l) && Agree(t.State())
    modifies w`s, w`h, t
    ensures w.Valid() && old(w.h) <= w.h
    ensures w.Doing(l.(job := l.job.(reserved := reserved), pc := if ok then Unlink(req) else Handle(Some(req.id))))
    ensures if reserved then BudgetHeld(old(t.State()), t.State(), req.model)
            else BudgetRestored(old(t.State()), t.State())
  {
    ok, reserved := false, false;
    match outcome {
      case NEW =>
        ok, reserved := ProcessNew(w, t, l);
      case KNOWN(COMPLETE, None) =>
      case KNOWN(COMPLETE, _) =>
        ok := w.PublishResponse(l);
      case KNOWN(_, _) =>
        var _ := w.PublishResponse(l);
    }
  }

  /** Claim the file by renaming it, and read the request in it. */
  method ReadClaimed(w: World, l: Local) returns (l': Local)
    requires w.Valid() && l.Work? && l.pc == Rename && w.Doing(l)
    modifies w`s, w`h
    ensures w.Valid() && old(w.h) <= w.h && w.Doing(l')
    ensures l'.Work? && l' == l.(pc := l'.pc) && (l'.pc.Handle? || l'.pc.Claim?)
  {
    l' := l.(pc := Handle(None));
    var renamed := w.RenameClaimed(l);
    if !renamed {
      return;
    }
    var raw := w.ReadRequest(l.(pc := Read));
    if raw.Some? {
      l' := l.(pc := AfterRead(l.job.name, raw.value));
    }
  }

  /** Claim the id in the journal and look for a response file; None when the handler comes next. */
  method ClaimRequest(w: World, l: Local) returns (outcome: Option<Outcome>)
    requires w.Valid() && l.Work? && l.pc.Claim? && w.Doing(l)
    modifies w`s, w`h
    ensures w.Valid() && old(w.h) <= w.h && (outcome.Some? ==> !outcome.value.CONFLICT?)
    ensures w.Doing(l.(pc := if outcome.Some? then Dispatch(l.pc.req, outcome.value) else Handle(Some(l.pc.req.id))))
  {
    var req := l.pc.req;
    outcome := w.ClaimRow(l);
    if outcome.None? || outcome.value.CONFLICT? {
      return None;
    }
    var found := w.ResponsePresent(l.(pc := Look(req, outcome.value)));
    if found {
      w.UncertainRow(l.(pc := MarkExisting(req)));
      return None;
    }
  }

  /** The try clause for one claimed file; `model` is the one reserved for. */
  method TryRequest(w: World, t: BudgetTracker, l: Local) returns (l': Local, model: Model)
    requires w.Valid() && l.Work? && l.pc == Rename && !l.job.reserved && w.Doing(l) && Agree(t.State())
    modifies w`s, w`h, t
    ensures w.Valid() && old(w.h) <= w.h && w.Doing(l')
    ensures l'.Work? && l'.queue == l.queue && l'.base == l.base
    ensures l'.pc == Cleanup(false) || l'.pc.Handle?
    ensures if l'.job.reserved then BudgetHeld(old(t.State()), t.State(), model)
            else BudgetRestored(old(t.State()), t.State())
  {
    model := Fast;
    l' := ReadClaimed(w, l);
    if l'.pc.Handle? {
      return;
    }
    var req := l'.pc.req;
    model := req.model;
    var outcome := ClaimRequest(w, l');
    if outcome.None? {
      return l.(pc := Handle(Some(req.id))), model;
    }
    var ok, reserved := DispatchClaimed(w, t, l.(pc := Dispatch(req, outcome.value)), req, outcome.value);
    l' := l.(job := l.job.(reserved := reserved), pc := if ok then Unlink(req) else Handle(Some(req.id)));
    if ok {
      var unlinked := w.UnlinkClaimed(l');
      l' := l'.(pc := if unlinked then Cleanup(false) else Handle(Some(req.id)));
    }
  }

  /** One turn of the loop with its except and finally clauses. */
  method ProcessFile(w: World, t: BudgetTracker, l: Local) returns (escapes: bool)
    requires w.Valid() && l.Batch? && l.queue != [] && w.Doing(l) && Agree(t.State())
    modifies w, t
    ensures w.Valid() && old(w.h) <= w.h
    ensures if escapes then w.me !in w.s.locals else w.Doing(Batch(l.queue[1..], l.base))
    ensures BudgetRestored(old(t.State()), t.State())
    ensures w.calm ==> !escapes && exists ok :: FileComes(old(w.s), w.s, l.queue[0], w.given, ok)
  {
    hide Calm, History, FileComes, CalmEvent;
    var job := w.NextFile(l);
    var l', model := TryRequest(w, t, Work(l.queue[1..], l.base, job, Rename));
    escapes := false;
    if l'.pc.Handle? {
      escapes := w.HandleException(l');
    }
    if l'.job.reserved {
      HeldIsGivenBack(old(t.State()), t.State(), model);
      t.ReleaseRequest(model, DEFAULT_TARGET);
    }
    w.EndFile(l'.(pc := Cleanup(escapes)));
    if w.calm {
      var ok := FileAnswered(w.h, w.mark, |w.h| - 1, w.me, w.given);
    }
  }

  /** Some moment of the history since `from` found the broker done with the k-th listed file. */
  ghost predicate FileDone(h: seq<State>, from: nat, p: Proc, listed: seq<Name>, base: set<Uuid>, k: int) {
    && 0 <= k < |listed|
    && exists i :: from <= i < |h| && p in h[i].locals && h[i].locals[p] == Batch(listed[k + 1..], base)
  }

  ghost predicate FilesDone(h: seq<State>, from: nat, p: Proc, listed: seq<Name>, base: set<Uuid>, n: int) {
    forall k | 0 <= k < n :: FileDone(h, from, p, listed, base, k)
  }

  lemma FilesStayDone(h: seq<State>, h': seq<State>, from: nat, p: Proc, listed: seq<Name>, base: set<Uuid>, n: int)
    requires h <= h' && FilesDone(h, from, p, listed, base, n)
    ensures FilesDone(h', from, p, listed, base, n)
  {
    forall k | 0 <= k < n
      ensures FileDone(h', from, p, listed, base, k)
    {
      assert FileDone(h, from, p, listed, base, k);
      var i :| from <= i < |h| && p in h[i].locals && h[i].locals[p] == Batch(listed[k + 1..], base);
      assert h'[i] == h[i];
    }
  }

  /** Two moments of the history around the k-th listed file, and what it came to in between. */
  ghost predicate AnsweredIn(h: seq<State>, from: nat, p: Proc, listed: seq<Name>, base: set<Uuid>, k: int) {
    && 0 <= k < |listed|
    && exists i: nat, j: nat, g, ok ::
         && from <= i < j < |h| && p in h[i].locals && h[i].locals[p] == Batch(listed[k..], base)
         && p in h[j].locals && h[j].locals[p] == Batch(listed[k + 1..], base) && FileComes(h[i], h[j], listed[k], g, ok)
  }

  ghost predicate AllAnswered(h: seq<State>, from: nat, p: Proc, listed: seq<Name>, base: set<Uuid>, n: int) {
    forall k | 0 <= k < n :: AnsweredIn(h, from, p, listed, base, k)
  }

  lemma AnsweredStays(h: seq<State>, h': seq<State>, from: nat, earlier: nat, p: Proc, listed: seq<Name>, base: set<Uuid>, n: int)
    requires h <= h' && earlier <= from && AllAnswered(h, from, p, listed, base, n)
    ensures AllAnswered(h', earlier, p, listed, base, n)
  {
    hide FileComes;
    forall k | 0 <= k < n
      ensures AnsweredIn(h', earlier, p, listed, base, k)
    {
      assert AnsweredIn(h, from, p, listed, base, k);
      var i: nat, j: nat, g, ok :|
        && from <= i < j < |h| && p in h[i].locals && h[i].locals[p] == Batch(listed[k..], base)
        && p in h[j].locals && h[j].locals[p] == Batch(listed[k + 1..], base) && FileComes(h[i], h[j], listed[k], g, ok);
      assert h'[i] == h[i] && h'[j] == h[j];
    }
  }

  lemma OneMoreDone(h: seq<State>, h': seq<State>, from: nat, p: Proc, listed: seq<Name>, base: set<Uuid>, n: nat)
    requires h <= h' && n < |listed| && h' != [] && |h| < |h'| && from <= |h| && FilesDone(h, from, p, listed, base, n)
    requires p in h'[|h'| - 1].locals && h'[|h'| - 1].locals[p] == Batch(listed[n + 1..], base)
    ensures FilesDone(h', from, p, listed, base, n + 1)
  {
    FilesStayDone(h, h', from, p, listed, base, n);
    assert FileDone(h', from, p, listed, base, n);
  }

  lemma OneMoreAnswered(h: seq<State>, h': seq<State>, from: nat, p: Proc, listed: seq<Name>, base: set<Uuid>, n: nat, g: Given, ok: bool)
    requires h <= h' && n < |listed| && h != [] && |h| < |h'| && from < |h| && AllAnswered(h, from, p, listed, base, n)
    requires p in h[|h| - 1].locals && h[|h| - 1].locals[p] == Batch(listed[n..], base)
    requires p in h'[|h'| - 1].locals && h'[|h'| - 1].locals[p] == Batch(listed[n + 1..], base)
    requires FileComes(h[|h| - 1], h'[|h'| - 1], listed[n], g, ok)
    ensures AllAnswered(h', from, p, listed, base, n + 1)
  {
    hide FileComes;
    AnsweredStays(h, h', from, from, p, listed, base, n);
    var i, j := |h| - 1, |h'| - 1;
    assert h'[i] == h[i] && FileComes(h'[i], h'[j], listed[n], g, ok);
    assert AnsweredIn(h', from, p, listed, base, n);
  }

  /** The loop over the listed files. */
  method ProcessListed(w: World, t: BudgetTracker, listed: seq<Name>, base: set<Uuid>) returns (escaped: bool)
    requires w.Valid() && w.Doing(Batch(listed, base)) && Agree(t.State())
    modifies w, t
    ensures w.Valid() && old(w.h) <= w.h
    ensures BudgetRestored(old(t.State()), t.State())
    ensures if escaped then w.me !in w.s.locals else w.Doing(Batch([], base))
    ensures !escaped ==> FilesDone(w.h, |old(w.h)|, w.me, listed, base, |listed|)
    ensures w.calm ==> !escaped && AllAnswered(w.h, |old(w.h)| - 1, w.me, listed, base, |listed|)
  {
    hide Calm, FileComes, FilesDone, AllAnswered;
    escaped := false;
    var done := 0;
    NoneYet(w.h, w.me, listed, base);
    while done < |listed| && !escaped
      invariant 0 <= done <= |listed|
      invariant w.Valid() && old(w.h) <= w.h
      invariant BudgetRestored(old(t.State()), t.State())
      invariant if escaped then w.me !in w.s.locals else w.Doing(Batch(listed[done..], base))
      invariant !escaped ==> FilesDone(w.h, |old(w.h)|, w.me, listed, base, done)
      invariant w.calm ==> !escaped && AllAnswered(w.h, |old(w.h)| - 1, w.me, listed, base, done)
      decreases |listed| - done, !escaped
    {
      ghost var before := w.h;
      escaped := ProcessFile(w, t, Batch(listed[done..], base));
      assert listed[done..][1..] == listed[done + 1..] && listed[done..][0] == listed[done];
      if !escaped {
        OneMoreDone(before, w.h, |old(w.h)|, w.me, listed, base, done);
      }
      if w.calm {
        ghost var ok :| FileComes(before[|before| - 1], w.s, listed[done], w.given, ok);
        OneMoreAnswered(before, w.h, |old(w.h)| - 1, w.me, listed, base, done, w.given, ok);
      }
      done := done + 1;
    }
  }

  lemma NoneYet(h: seq<State>, p: Proc, listed: seq<Name>, base: set<Uuid>)
    requires h != []
    ensures FilesDone(h, |h|, p, listed, base, 0) && AllAnswered(h, |h| - 1, p, listed, base, 0)
  {
  }

  /**
   One pass of the broker: a history of the protocol that finishes with every listed file in
   turn, the budget as it was, and, unless an exception escaped from the handler, no new
   pending file. When nothing fails and no other broker holds the lock, it takes on the files that
   are there, up to eight, and each of them gets its answer.
   */
  method ProcessRequests(w: World, t: BudgetTracker) returns (listed: seq<Name>, escaped: bool)
    requires w.Valid() && w.me !in w.s.locals && Agree(t.State())
    modifies w, t
    ensures w.Valid() && old(w.h) <= w.h
    ensures w.me !in w.s.locals
    ensures BudgetRestored(old(t.State()), t.State())
    ensures !escaped ==> w.s.files.pending.Keys == old(w.s.files.pending.Keys)
    ensures !escaped ==> FilesDone(w.h, |old(w.h)|, w.me, listed, old(w.s.files.pending.Keys), |listed|)
    ensures w.calm ==> !escaped && AllAnswered(w.h, |old(w.h)| - 1, w.me, listed, old(w.s.files.pending.Keys), |listed|)
    ensures w.calm && old(w.s.owner) == None ==> Listing(old(w.s.files.inbox.Keys), listed)
  {
    hide Calm, FilesDone, AllAnswered, Listing;
    var locked, queue := w.Enter();
    listed, escaped := [], false;
    if !locked {
      NothingListed(w.h, |old(w.h)|, w.me, w.s.files.pending.Keys);
      return;
    }
    listed := queue;
    var base := w.s.files.pending.Keys;
    ghost var start := |w.h|;
    escaped := ProcessListed(w, t, listed, base);
    if !escaped {
      ghost var before := w.h;
      w.Exit(base);
      FilesStayDone(before, w.h, start, w.me, listed, base, |listed|);
      FilesDoneSince(w.h, start, |old(w.h)|, w.me, listed, base, |listed|);
      if w.calm {
        AnsweredStays(before, w.h, start - 1, |old(w.h)| - 1, w.me, listed, base, |listed|);
      }
    }
  }

  lemma NothingListed(h: seq<State>, from: nat, p: Proc, base: set<Uuid>)
    requires from > 0
    ensures FilesDone(h, from, p, [], base, 0) && AllAnswered(h, from - 1, p, [], base, 0)
  {
  }

  lemma FilesDoneSince(h: seq<State>, from: nat, earlier: nat, p: Proc, listed: seq<Name>, base: set<Uuid>, n: int)
    requires earlier <= from && FilesDone(h, from, p, listed, base, n)
    ensures FilesDone(h, earlier, p, listed, base, n)
  {
    forall k | 0 <= k < n
      ensures FileDone(h, earlier, p, listed, base, k)
    {
      assert FileDone(h, from, p, listed, base, k);
    }
  }
}
