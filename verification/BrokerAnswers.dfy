/**
 What becomes of a request file when nothing fails: which response is published, which row is
 left and where the file goes, for every request that broker/main.py can find.
 */
module BrokerAnswers {
  import opened Wrappers
  import opened Journal
  import opened BrokerProtocol
  import Safety = BrokerSafety

  /** What is read from the file, and what the model says if it is asked; the budget may be left open. */
  datatype Given = Given(raw: Raw, admitted: Option<bool>, response: Response)

  // ----- Calm runs -----

  /** The effect cannot take place: a file to rename or link is in the way or missing. */
  predicate Impossible(s: State, p: Proc) {
    p in s.locals && s.locals[p].Work? && (s.locals[p].pc.Rename? || s.locals[p].pc.Publish?) && WorkStep(s, p, Done).None?
  }

  /** Nothing fails that need not, and the outside answers as given. */
  predicate CalmEvent(s: State, p: Proc, e: Event, g: Given) {
    match e
    case Fail => Impossible(s, p)
    case FailLate => false
    case Got(raw) => raw == g.raw
    case Allowed(ok) => g.admitted.None? || ok == g.admitted.value
    case Returned(response) => response == g.response
    case Moved(_, late) => !late
    case _ => true
  }

  ghost predicate CalmNext(s: State, s': State, p: Proc, g: Given) {
    exists e :: CalmEvent(s, p, e, g) && Step(s, Run(p, e)) == Some(s')
  }

  ghost predicate CalmAt(h: seq<State>, i: nat, p: Proc, g: Given) {
    i + 1 < |h| && CalmNext(h[i], h[i + 1], p, g)
  }

  /** From moment i to moment j only this broker acts, calmly. */
  ghost predicate Calm(h: seq<State>, i: nat, j: nat, p: Proc, g: Given) {
    i <= j < |h| && forall k: nat | i <= k < j :: CalmAt(h, k, p, g)
  }

  /** The broker is at this point of the file at moment i, and done with the file at moment j. */
  ghost predicate Span(h: seq<State>, i: nat, j: nat, p: Proc, g: Given, job: Job, pc: PC) {
    && History(h) && Calm(h, i, j, p, g)
    && p in h[j].locals && h[j].locals[p].Batch?
    && p in h[i].locals && h[i].locals[p] == Work(h[j].locals[p].queue, h[j].locals[p].base, job, pc)
  }

  lemma FirstStep(h: seq<State>, i: nat, j: nat, p: Proc, g: Given, job: Job, pc: PC) returns (e: Event)
    requires Span(h, i, j, p, g, job, pc)
    ensures i < j && CalmEvent(h[i], p, e, g) && WorkStep(h[i], p, e) == Some(h[i + 1]) && Calm(h, i + 1, j, p, g)
    ensures Safety.Inv(h[i])
  {
    assert CalmAt(h, i, p, g);
    e :| CalmEvent(h[i], p, e, g) && Step(h[i], Run(p, e)) == Some(h[i + 1]);
    Safety.HistoryKeeps(h, i);
  }

  lemma Onward(h: seq<State>, i: nat, j: nat, p: Proc, g: Given, job: Job, pc: PC, job': Job, pc': PC)
    requires Span(h, i, j, p, g, job, pc) && i < j && p in h[i + 1].locals
    requires h[i + 1].locals[p] == h[i].locals[p].(job := job', pc := pc')
    ensures Span(h, i + 1, j, p, g, job', pc')
  {
  }

  // ----- The end of a file -----

  /** The broker has left, or has fewer files before it. */
  predicate Past(s: State, p: Proc, n: nat) {
    p in s.locals ==> |s.locals[p].queue| < n
  }

  lemma PastNext(s: State, s': State, p: Proc, g: Given, n: nat)
    requires Past(s, p, n) && CalmNext(s, s', p, g)
    ensures Past(s', p, n)
  {
    var e :| CalmEvent(s, p, e, g) && Step(s, Run(p, e)) == Some(s');
  }

  lemma {:induction false} PastStays(h: seq<State>, i: nat, j: nat, p: Proc, g: Given, n: nat)
    requires Calm(h, i, j, p, g) && Past(h[i], p, n)
    ensures Past(h[j], p, n)
    decreases j - i
  {
    if i < j {
      assert CalmAt(h, i, p, g);
      PastNext(h[i], h[i + 1], p, g, n);
      PastStays(h, i + 1, j, p, g, n);
    }
  }

  /** Once it is between files, a calm broker does not come back to the same place. */
  lemma BetweenFiles(h: seq<State>, i: nat, j: nat, p: Proc, g: Given, l: Local)
    requires Calm(h, i, j, p, g) && l.Batch? && p in h[i].locals && h[i].locals[p] == l
    requires p in h[j].locals && h[j].locals[p] == l
    ensures i == j
  {
    if i < j {
      assert CalmAt(h, i, p, g);
      assert CalmNext(h[i], h[i + 1], p, g);
      var e :| CalmEvent(h[i], p, e, g) && Step(h[i], Run(p, e)) == Some(h[i + 1]);
      assert Past(h[i + 1], p, |l.queue|) by {
        assert l.queue != [] ==> |l.queue[1..]| < |l.queue|;
      }
      PastStays(h, i + 1, j, p, g, |l.queue|);
    }
  }

  lemma AtCleanup(h: seq<State>, i: nat, j: nat, p: Proc, g: Given, job: Job)
    requires Span(h, i, j, p, g, job, Cleanup(false))
    ensures h[j].record == h[i].record && h[j].files == h[i].files
  {
    var e := FirstStep(h, i, j, p, g, job, Cleanup(false));
    BetweenFiles(h, i + 1, j, p, g, h[j].locals[p]);
  }

  /** The claimed file lies among the failed ones, under a name that was free. */
  ghost predicate Rejected(f: Files, f': Files, uuid: Uuid) {
    && uuid in f.pending
    && f'.inbox == f.inbox && f'.pending == f.pending - {uuid} && f'.out == f.out
    && exists dest :: dest !in f.failed && f'.failed == f.failed[dest := f.pending[uuid]]
                      && f'.place == f.place[f.pending[uuid] := InFailed(dest)]
  }

  /** The claimed file is gone. */
  predicate Removed(f: Files, f': Files, uuid: Uuid, id: Id) {
    && uuid in f.pending
    && f'.inbox == f.inbox && f'.pending == f.pending - {uuid} && f'.out == f.out && f'.failed == f.failed
    && f'.place == f.place[f.pending[uuid] := Deleted(id)]
  }

  lemma AtMove(h: seq<State>, i: nat, j: nat, p: Proc, g: Given, job: Job)
    requires Span(h, i, j, p, g, job, Move) && job.uuid in h[i].files.pending
    ensures h[j].record == h[i].record && Rejected(h[i].files, h[j].files, job.uuid)
  {
    var e := FirstStep(h, i, j, p, g, job, Move);
    Onward(h, i, j, p, g, job, Move, job, Cleanup(false));
    AtCleanup(h, i + 1, j, p, g, job);
    MovedAway(h[i].files, job, e, h[j].files);
  }

  lemma MovedAway(f: Files, job: Job, e: Event, f': Files)
    requires FileStep(f, job, Move, e) == Some(f') && e.Moved? && Safety.FilesInv(f)
    ensures Rejected(f, f', job.uuid)
  {
    assert Destination(f, job.name, e.suffix) !in f.failed;
  }

  /** A claimed row becomes uncertain; every other row stays. */
  predicate MarkedUncertain(rows: Rows, rows': Rows, id: Id) {
    rows' == if id in rows && rows[id].state == CLAIMED then rows[id := rows[id].(state := UNCERTAIN)] else rows
  }

  /** What the handler does with the row, if it knows the id. */
  predicate Marked(r: Record, r': Record, identity: Option<Id>) {
    && r'.calls == r.calls && r'.pubs == r.pubs
    && if identity.None? then r'.rows == r.rows else MarkedUncertain(r.rows, r'.rows, identity.value)
  }

  lemma AtHandle(h: seq<State>, i: nat, j: nat, p: Proc, g: Given, job: Job, identity: Option<Id>)
    requires Span(h, i, j, p, g, job, Handle(identity)) && job.uuid in h[i].files.pending
    ensures Marked(h[i].record, h[j].record, identity) && Rejected(h[i].files, h[j].files, job.uuid)
  {
    var e := FirstStep(h, i, j, p, g, job, Handle(identity));
    Onward(h, i, j, p, g, job, Handle(identity), job, Move);
    AtMove(h, i + 1, j, p, g, job);
  }

  lemma AtUnlink(h: seq<State>, i: nat, j: nat, p: Proc, g: Given, job: Job, req: Request)
    requires Span(h, i, j, p, g, job, Unlink(req)) && job.uuid in h[i].files.pending
    ensures h[j].record == h[i].record && Removed(h[i].files, h[j].files, job.uuid, req.id)
  {
    var e := FirstStep(h, i, j, p, g, job, Unlink(req));
    Onward(h, i, j, p, g, job, Unlink(req), job, Cleanup(false));
    AtCleanup(h, i + 1, j, p, g, job);
  }

  // ----- Publishing -----

  /** One more response is out. */
  predicate Answered(r: Record, r': Record, f: Files, f': Files, pub: Publication) {
    && r'.calls == r.calls && r'.rows == r.rows && r'.pubs == r.pubs + [pub]
    && f' == f.(out := f.out[pub.id := pub.response])
  }

  /** The response is published and the file removed; or it is rejected, when the publication reports an error. */
  ghost predicate Settled(s: State, s': State, uuid: Uuid, pub: Publication, rejected: bool) {
    var f := s.files.(out := s.files.out[pub.id := pub.response]);
    && s'.record.calls == s.record.calls && s'.record.pubs == s.record.pubs + [pub]
    && if rejected then MarkedUncertain(s.record.rows, s'.record.rows, pub.id) && Rejected(f, s'.files, uuid)
       else s'.record.rows == s.record.rows && Removed(f, s'.files, uuid, pub.id)
  }

  lemma AtPublish(h: seq<State>, i: nat, j: nat, p: Proc, g: Given, job: Job, pc: PC)
    requires Span(h, i, j, p, g, job, pc) && pc.Publish? && job.uuid in h[i].files.pending && pc.req.id !in h[i].files.out
    ensures Settled(h[i], h[j], job.uuid, Publication(pc.req.id, pc.response, pc.kind), pc.raises)
  {
    var e := FirstStep(h, i, j, p, g, job, pc);
    assert e == Done;
    if pc.raises {
      Onward(h, i, j, p, g, job, pc, job, Handle(Some(pc.req.id)));
      AtHandle(h, i + 1, j, p, g, job, Some(pc.req.id));
    } else {
      Onward(h, i, j, p, g, job, pc, job, Unlink(pc.req));
      AtUnlink(h, i + 1, j, p, g, job, pc.req);
    }
  }

  // ----- A new request -----

  /** Recorded, published and removed; or recorded, published and rejected. */
  ghost predicate Recorded(s: State, s': State, uuid: Uuid, id: Id, response: Response, rejected: bool) {
    var f := s.files.(out := s.files.out[id := response]);
    && id in s.record.rows
    && s'.record.calls == s.record.calls && s'.record.pubs == s.record.pubs + [Publication(id, response, Answer)]
    && s'.record.rows == s.record.rows[id := Row(s.record.rows[id].digest, COMPLETE, Some(response))]
    && if rejected then Rejected(f, s'.files, uuid) else Removed(f, s'.files, uuid, id)
  }

  lemma AtRecord(h: seq<State>, i: nat, j: nat, p: Proc, g: Given, job: Job, pc: PC, response: Response)
    requires Span(h, i, j, p, g, job, pc) && job.uuid in h[i].files.pending
    requires (pc.Refuse? && response == BudgetExhausted(pc.req.id)) || (pc.Finish? && response == pc.response)
    requires pc.req.id !in h[i].files.out
    ensures Recorded(h[i], h[j], job.uuid, pc.req.id, response, pc.Refuse?)
  {
    var e := FirstStep(h, i, j, p, g, job, pc);
    assert Safety.PcInv(h[i].record, pc);
    assert e == Done;
    Onward(h, i, j, p, g, job, pc, job, Publish(pc.req, response, Answer, pc.Refuse?));
    AtPublish(h, i + 1, j, p, g, job, Publish(pc.req, response, Answer, pc.Refuse?));
  }

  lemma AtAwait(h: seq<State>, i: nat, j: nat, p: Proc, g: Given, job: Job, req: Request)
    requires Span(h, i, j, p, g, job, Await(req)) && job.uuid in h[i].files.pending && req.id !in h[i].files.out
    ensures Recorded(h[i], h[j], job.uuid, req.id, g.response, false)
  {
    var e := FirstStep(h, i, j, p, g, job, Await(req));
    assert e == Returned(g.response);
    Onward(h, i, j, p, g, job, Await(req), job, Finish(req, g.response));
    AtRecord(h, i + 1, j, p, g, job, Finish(req, g.response), g.response);
  }

  ghost predicate Called(s: State, s': State, uuid: Uuid, id: Id, response: Response) {
    Recorded(s.(record := s.record.(calls := s.record.calls + [id])), s', uuid, id, response, false)
  }

  lemma AtCall(h: seq<State>, i: nat, j: nat, p: Proc, g: Given, job: Job, req: Request)
    requires Span(h, i, j, p, g, job, Call(req)) && job.uuid in h[i].files.pending && req.id !in h[i].files.out
    ensures Called(h[i], h[j], job.uuid, req.id, g.response)
  {
    var e := FirstStep(h, i, j, p, g, job, Call(req));
    assert e == Done;
    Onward(h, i, j, p, g, job, Call(req), job, Await(req));
    AtAwait(h, i + 1, j, p, g, job, req);
  }

  lemma AtAdmit(h: seq<State>, i: nat, j: nat, p: Proc, g: Given, job: Job, req: Request) returns (ok: bool)
    requires Span(h, i, j, p, g, job, Admit(req)) && job.uuid in h[i].files.pending && req.id !in h[i].files.out
    ensures g.admitted.Some? ==> ok == g.admitted.value
    ensures if ok then Called(h[i], h[j], job.uuid, req.id, g.response)
            else Recorded(h[i], h[j], job.uuid, req.id, BudgetExhausted(req.id), true)
  {
    var e := FirstStep(h, i, j, p, g, job, Admit(req));
    assert e.Allowed?;
    ok := e.ok;
    if ok {
      Onward(h, i, j, p, g, job, Admit(req), job.(reserved := true), Call(req));
      AtCall(h, i + 1, j, p, g, job.(reserved := true), req);
    } else {
      Onward(h, i, j, p, g, job, Admit(req), job, Refuse(req));
      AtRecord(h, i + 1, j, p, g, job, Refuse(req), BudgetExhausted(req.id));
    }
  }

  // ----- Any request -----

  /**
   What a readable request with a fitting name comes to. Another payload under a known id is rejected
   without an answer, and so is a request whose response file is already there. A new id is put to
   the model and gets its response, or the budget error without a call. A complete one gets its
   recorded response once more; one of unknown outcome gets the uncertain error and no call.
   */
  ghost predicate RequestComes(s: State, s': State, uuid: Uuid, req: Request, g: Given, ok: bool) {
    var rows, id := s.record.rows, req.id;
    if id in rows && rows[id].digest != g.raw
    then Marked(s.record, s'.record, Some(id)) && Rejected(s.files, s'.files, uuid)
    else
      var claimed := if id in rows then rows else rows[id := Row(g.raw, CLAIMED, None)];
      var now := s.(record := s.record.(rows := claimed));
      if id in s.files.out then Marked(now.record, s'.record, Some(id)) && Rejected(s.files, s'.files, uuid)
      else if id !in rows then
        if ok then Called(now, s', uuid, id, g.response) else Recorded(now, s', uuid, id, BudgetExhausted(id), true)
      else if rows[id].state == COMPLETE then
        && rows[id].response.Some?
        && Settled(now, s', uuid, Publication(id, rows[id].response.value, Answer), false)
      else Settled(now, s', uuid, Publication(id, OutcomeUncertain(id), Doubt), true)
  }

  lemma AtDispatch(h: seq<State>, i: nat, j: nat, p: Proc, g: Given, job: Job, req: Request, outcome: Outcome) returns (ok: bool)
    requires Span(h, i, j, p, g, job, Dispatch(req, outcome)) && job.uuid in h[i].files.pending && req.id !in h[i].files.out
    requires !outcome.CONFLICT? && (outcome.KNOWN? ==> outcome.response.Some? == (outcome.state == COMPLETE))
    ensures g.admitted.Some? ==> ok == g.admitted.value
    ensures match outcome
            case NEW =>
              if ok then Called(h[i], h[j], job.uuid, req.id, g.response)
              else Recorded(h[i], h[j], job.uuid, req.id, BudgetExhausted(req.id), true)
            case KNOWN(COMPLETE, response) =>
              Settled(h[i], h[j], job.uuid, Publication(req.id, response.value, Answer), false)
            case KNOWN(_, _) => Settled(h[i], h[j], job.uuid, Publication(req.id, OutcomeUncertain(req.id), Doubt), true)
  {
    ok := g.admitted.Some? && g.admitted.value;
    match outcome
    case NEW => ok := AtAdmit(h, i, j, p, g, job, req);
    case KNOWN(_, _) => AtPublish(h, i, j, p, g, job, Dispatch(req, outcome));
  }

  lemma AtLook(h: seq<State>, i: nat, j: nat, p: Proc, g: Given, job: Job, req: Request, outcome: Outcome) returns (ok: bool)
    requires Span(h, i, j, p, g, job, Look(req, outcome)) && job.uuid in h[i].files.pending && !outcome.CONFLICT?
    ensures g.admitted.Some? ==> ok == g.admitted.value
    ensures
      if req.id in h[i].files.out then Marked(h[i].record, h[j].record, Some(req.id)) && Rejected(h[i].files, h[j].files, job.uuid)
      else match outcome
           case NEW =>
             if ok then Called(h[i], h[j], job.uuid, req.id, g.response)
             else Recorded(h[i], h[j], job.uuid, req.id, BudgetExhausted(req.id), true)
           case KNOWN(COMPLETE, response) =>
             && response.Some? && Settled(h[i], h[j], job.uuid, Publication(req.id, response.value, Answer), false)
           case KNOWN(_, _) => Settled(h[i], h[j], job.uuid, Publication(req.id, OutcomeUncertain(req.id), Doubt), true)
  {
    var e := FirstStep(h, i, j, p, g, job, Look(req, outcome));
    assert Safety.PcInv(h[i].record, Look(req, outcome));
    if req.id in h[i].files.out {
      ok := g.admitted.Some? && g.admitted.value;
      Onward(h, i, j, p, g, job, Look(req, outcome), job, MarkExisting(req));
      AtMarkExisting(h, i + 1, j, p, g, job, req);
    } else {
      Onward(h, i, j, p, g, job, Look(req, outcome), job, Dispatch(req, outcome));
      ok := AtDispatch(h, i + 1, j, p, g, job, req, outcome);
    }
  }

  lemma AtMarkExisting(h: seq<State>, i: nat, j: nat, p: Proc, g: Given, job: Job, req: Request)
    requires Span(h, i, j, p, g, job, MarkExisting(req)) && job.uuid in h[i].files.pending
    ensures Marked(h[i].record, h[j].record, Some(req.id)) && Rejected(h[i].files, h[j].files, job.uuid)
  {
    var e := FirstStep(h, i, j, p, g, job, MarkExisting(req));
    Onward(h, i, j, p, g, job, MarkExisting(req), job, Handle(Some(req.id)));
    AtHandle(h, i + 1, j, p, g, job, Some(req.id));
  }

  lemma AtClaim(h: seq<State>, i: nat, j: nat, p: Proc, g: Given, job: Job, req: Request) returns (ok: bool)
    requires Span(h, i, j, p, g, job, Claim(req, g.raw)) && job.uuid in h[i].files.pending
    ensures g.admitted.Some? ==> ok == g.admitted.value
    ensures RequestComes(h[i], h[j], job.uuid, req, g, ok)
  {
    var e := FirstStep(h, i, j, p, g, job, Claim(req, g.raw));
    var (rows, outcome) := Claimed(h[i].record.rows, req.id, g.raw);
    assert e == Done;
    if outcome.CONFLICT? {
      ok := g.admitted.Some? && g.admitted.value;
      Onward(h, i, j, p, g, job, Claim(req, g.raw), job, Handle(Some(req.id)));
      AtHandle(h, i + 1, j, p, g, job, Some(req.id));
    } else {
      Onward(h, i, j, p, g, job, Claim(req, g.raw), job, Look(req, outcome));
      ok := AtLook(h, i + 1, j, p, g, job, req, outcome);
    }
  }

  /** What a file that was claimed by its rename comes to; an unreadable or misnamed one is rejected. */
  ghost predicate ClaimedComes(s: State, s': State, name: Name, uuid: Uuid, g: Given, ok: bool) {
    if g.raw.parsed.None? then Marked(s.record, s'.record, None) && Rejected(s.files, s'.files, uuid)
    else
      var req := g.raw.parsed.value;
      if name == req.id || name == "req-" + req.id then RequestComes(s, s', uuid, req, g, ok)
      else Marked(s.record, s'.record, Some(req.id)) && Rejected(s.files, s'.files, uuid)
  }

  lemma AtRead(h: seq<State>, i: nat, j: nat, p: Proc, g: Given, job: Job) returns (ok: bool)
    requires Span(h, i, j, p, g, job, Read) && job.uuid in h[i].files.pending
    ensures g.admitted.Some? ==> ok == g.admitted.value
    ensures ClaimedComes(h[i], h[j], job.name, job.uuid, g, ok)
  {
    var e := FirstStep(h, i, j, p, g, job, Read);
    assert e == Got(g.raw);
    var next := AfterRead(job.name, g.raw);
    Onward(h, i, j, p, g, job, Read, job, next);
    if next.Claim? {
      ok := AtClaim(h, i + 1, j, p, g, job, g.raw.parsed.value);
    } else {
      ok := g.admitted.Some? && g.admitted.value;
      AtHandle(h, i + 1, j, p, g, job, next.identity);
    }
  }

  /** The file under its new name among the pending ones. */
  function Taken(s: State, name: Name, uuid: Uuid): State
    requires name in s.files.inbox
  {
    var f, t := s.files, s.files.inbox[name];
    s.(files := f.(inbox := f.inbox - {name}, pending := f.pending[uuid := t],
                   place := f.place[t := InPending(uuid)], uuids := f.uuids + {uuid}))
  }

  /** What a listed file comes to; one that is gone from the inbox changes nothing. */
  ghost predicate FileComes(s: State, s': State, name: Name, g: Given, ok: bool) {
    if name in s.files.inbox
    then exists uuid :: uuid !in s.files.uuids && ClaimedComes(Taken(s, name, uuid), s', name, uuid, g, ok)
    else s'.record == s.record && s'.files == s.files.(uuids := s'.files.uuids)
  }

  lemma AtMissing(h: seq<State>, i: nat, j: nat, p: Proc, g: Given, job: Job)
    requires Span(h, i, j, p, g, job, Handle(None)) && job.uuid !in h[i].files.pending
    ensures h[j].record == h[i].record && h[j].files == h[i].files
  {
    var e := FirstStep(h, i, j, p, g, job, Handle(None));
    Onward(h, i, j, p, g, job, Handle(None), job, Move);
    var e2 := FirstStep(h, i + 1, j, p, g, job, Move);
    Onward(h, i + 1, j, p, g, job, Move, job, Cleanup(false));
    AtCleanup(h, i + 2, j, p, g, job);
  }

  lemma AtRename(h: seq<State>, i: nat, j: nat, p: Proc, g: Given, job: Job, s: State) returns (ok: bool)
    requires Span(h, i, j, p, g, job, Rename) && job.uuid !in s.files.uuids
    requires h[i].record == s.record && h[i].files == s.files.(uuids := s.files.uuids + {job.uuid})
    ensures g.admitted.Some? ==> ok == g.admitted.value
    ensures FileComes(s, h[j], job.name, g, ok)
  {
    var e := FirstStep(h, i, j, p, g, job, Rename);
    if job.name in s.files.inbox {
      assert e == Done;
      Onward(h, i, j, p, g, job, Rename, job, Read);
      ok := AtRead(h, i + 1, j, p, g, job);
      var taken := Taken(s, job.name, job.uuid);
      assert h[i + 1].record == taken.record && h[i + 1].files == taken.files;
      SameComes(h[i + 1], taken, h[j], job.name, job.uuid, g, ok);
    } else {
      ok := g.admitted.Some? && g.admitted.value;
      assert e == Fail;
      assert Safety.LocalInv(h[i].files, h[i].locals[p]);
      Onward(h, i, j, p, g, job, Rename, job, Handle(None));
      AtMissing(h, i + 1, j, p, g, job);
    }
  }

  /** Only records and directories matter. */
  lemma SameComes(s: State, t: State, s': State, name: Name, uuid: Uuid, g: Given, ok: bool)
    requires s.record == t.record && s.files == t.files && ClaimedComes(s, s', name, uuid, g, ok)
    ensures ClaimedComes(t, s', name, uuid, g, ok)
  {
  }

  /**
   Every listed file gets its answer: from any moment of a history at which a broker is about to take
   a file, a run of that broker in which nothing fails ends between files with the file and the
   journal as FileComes says.
   */
  lemma FileAnswered(h: seq<State>, i: nat, j: nat, p: Proc, g: Given) returns (ok: bool)
    requires History(h) && Calm(h, i, j, p, g)
    requires p in h[i].locals && h[i].locals[p].Batch? && h[i].locals[p].queue != []
    requires p in h[j].locals && h[j].locals[p] == Batch(h[i].locals[p].queue[1..], h[i].locals[p].base)
    ensures g.admitted.Some? ==> ok == g.admitted.value
    ensures FileComes(h[i], h[j], h[i].locals[p].queue[0], g, ok)
  {
    var l := h[i].locals[p];
    assert |l.queue[1..]| < |l.queue|;
    assert CalmAt(h, i, p, g);
    var e :| CalmEvent(h[i], p, e, g) && Step(h[i], Run(p, e)) == Some(h[i + 1]);
    ok := AtRename(h, i + 1, j, p, g, Job(l.queue[0], e.uuid, false), h[i]);
  }
}
