/** Safety of the broker protocol over every history. */
module BrokerSafety {
  import opened Wrappers
  import opened Journal
  import opened BrokerProtocol

  // ----- Answers: rows, model calls and publications -----

  ghost predicate Published(pubs: seq<Publication>, id: Id) {
    exists i :: 0 <= i < |pubs| && pubs[i].id == id
  }

  /** Claimed in the current attempt: nothing was ever published for the id. */
  ghost predicate Fresh(r: Record, id: Id) {
    id in r.rows && r.rows[id].state == CLAIMED && !Published(r.pubs, id)
  }

  ghost predicate Uncalled(r: Record, id: Id) {
    Fresh(r, id) && id !in r.calls
  }

  /** A publication repeats the journal's answer, or the fixed response of an id without one. */
  ghost predicate Agrees(rows: Rows, pub: Publication) {
    && pub.id in rows
    && if pub.kind == Answer
       then rows[pub.id].state == COMPLETE && rows[pub.id].response == Some(pub.response)
       else rows[pub.id].state != COMPLETE && pub.response == OutcomeUncertain(pub.id)
  }

  ghost predicate PcInv(r: Record, pc: PC) {
    match pc
    case Look(req, NEW) => Uncalled(r, req.id)
    case Look(req, KNOWN(state, response)) =>
      req.id in r.rows && r.rows[req.id].state == state && r.rows[req.id].response == response
    case Look(req, CONFLICT) => false
    case Admit(req) => Uncalled(r, req.id)
    case Refuse(req) => Uncalled(r, req.id)
    case Call(req) => Uncalled(r, req.id)
    case Await(req) => Fresh(r, req.id)
    case Finish(req, _) => Fresh(r, req.id)
    case Publish(req, response, kind, raises) => Agrees(r.rows, Publication(req.id, response, kind)) && (kind == Doubt ==> raises)
    case Unlink(req) => Published(r.pubs, req.id)
    case _ => true
  }

  ghost predicate RecordInv(r: Record) {
    && (forall id <- r.rows :: r.rows[id].response.Some? == (r.rows[id].state == COMPLETE))
    && (forall i, j | 0 <= i < j < |r.calls| :: r.calls[i] != r.calls[j])
    && (forall id <- r.calls :: id in r.rows)
    && (forall i | 0 <= i < |r.pubs| :: Agrees(r.rows, r.pubs[i]))
  }

  ghost predicate LockInv(s: State) {
    forall p <- s.locals :: s.owner == Some(p)
  }

  ghost predicate AnswerInv(s: State) {
    && LockInv(s)
    && RecordInv(s.record)
    && (forall p <- s.locals :: s.locals[p].Work? ==> PcInv(s.record, s.locals[p].pc))
  }

  /** A row is never rewritten once it left CLAIMED, and a call is for a fresh, never called claim. */
  ghost predicate Progress(r: Record, r': Record) {
    && Evolves(r.rows, r'.rows)
    && r.pubs <= r'.pubs
    && (r'.calls == r.calls || exists id :: r'.calls == r.calls + [id] && Uncalled(r, id))
  }

  lemma DoubtedRecord(r: Record, id: Id)
    requires RecordInv(r)
    ensures RecordInv(r.(rows := Doubted(r.rows, id)))
    ensures Progress(r, r.(rows := Doubted(r.rows, id)))
  {
  }

  lemma ClaimedRecord(r: Record, req: Request, raw: Raw)
    requires RecordInv(r)
    ensures
      var (rows, outcome) := Claimed(r.rows, req.id, raw);
      var r' := r.(rows := rows);
      && RecordInv(r') && Progress(r, r')
      && (!outcome.CONFLICT? ==> PcInv(r', Look(req, outcome)))
  {
    if req.id !in r.rows {
      assert forall i | 0 <= i < |r.pubs| :: r.pubs[i].id in r.rows;
    }
  }

  lemma FinishedRecord(r: Record, req: Request, response: Response, raises: bool)
    requires RecordInv(r) && Fresh(r, req.id)
    ensures
      var rows := Finished(r.rows, req.id, response);
      && rows.Some?
      && RecordInv(r.(rows := rows.value)) && Progress(r, r.(rows := rows.value))
      && PcInv(r.(rows := rows.value), Publish(req, response, Answer, raises))
  {
    assert forall i | 0 <= i < |r.pubs| :: r.pubs[i].id != req.id;
  }

  lemma LinkedRecord(r: Record, pub: Publication)
    requires RecordInv(r) && Agrees(r.rows, pub)
    ensures
      var r' := r.(pubs := r.pubs + [pub]);
      RecordInv(r') && Progress(r, r') && Published(r'.pubs, pub.id)
  {
    assert (r.pubs + [pub])[|r.pubs|] == pub;
  }

  lemma CalledRecord(r: Record, id: Id)
    requires RecordInv(r) && Uncalled(r, id)
    ensures
      var r' := r.(calls := r.calls + [id]);
      RecordInv(r') && Progress(r, r') && Fresh(r', id)
  {
  }

  /** An effect that takes place before its exception. */
  lemma LateKeeps(r: Record, name: Name, pc: PC, responded: bool)
    requires RecordInv(r) && PcInv(r, pc) && Advance(r, name, pc, FailLate, responded).Some?
    ensures
      var (r', pc') := Advance(r, name, pc, FailLate, responded).value;
      RecordInv(r') && Progress(r, r') && PcInv(r', pc')
  {
    match pc
    case Claim(req, raw) => ClaimedRecord(r, req, raw);
    case MarkExisting(req) => DoubtedRecord(r, req.id);
    case Handle(Some(id)) => DoubtedRecord(r, id);
    case Refuse(req) => FinishedRecord(r, req, BudgetExhausted(req.id), true);
    case Finish(req, response) => FinishedRecord(r, req, response, false);
    case Publish(req, response, kind, _) => LinkedRecord(r, Publication(req.id, response, kind));
    case _ =>
  }

  lemma InTimeKeeps(r: Record, name: Name, pc: PC, e: Event, responded: bool)
    requires RecordInv(r) && PcInv(r, pc) && !e.Fail? && !e.FailLate? && Advance(r, name, pc, e, responded).Some?
    ensures
      var (r', pc') := Advance(r, name, pc, e, responded).value;
      RecordInv(r') && Progress(r, r') && PcInv(r', pc')
  {
    match pc
    case Claim(req, raw) => ClaimedRecord(r, req, raw);
    case MarkExisting(req) => DoubtedRecord(r, req.id);
    case Handle(Some(id)) => DoubtedRecord(r, id);
    case Refuse(req) => FinishedRecord(r, req, BudgetExhausted(req.id), true);
    case Finish(req, response) => FinishedRecord(r, req, response, false);
    case Publish(req, response, kind, _) => LinkedRecord(r, Publication(req.id, response, kind));
    case Call(req) => CalledRecord(r, req.id);
    case _ =>
  }

  /** One effect of the per-file body keeps the record and the assertion at the next effect. */
  lemma AdvanceKeeps(r: Record, name: Name, pc: PC, e: Event, responded: bool)
    requires RecordInv(r) && PcInv(r, pc) && Advance(r, name, pc, e, responded).Some?
    ensures
      var (r', pc') := Advance(r, name, pc, e, responded).value;
      RecordInv(r') && Progress(r, r') && PcInv(r', pc')
  {
    if e.FailLate? {
      LateKeeps(r, name, pc, responded);
    } else if !e.Fail? {
      InTimeKeeps(r, name, pc, e, responded);
    }
  }

  lemma StepAnswers(s: State, a: Action)
    requires AnswerInv(s) && Step(s, a).Some?
    ensures AnswerInv(Step(s, a).value) && Progress(s.record, Step(s, a).value.record)
  {
    if a.Run? && s.locals[a.p].Work? && !s.locals[a.p].pc.Cleanup? {
      var w := s.locals[a.p];
      AdvanceKeeps(s.record, w.job.name, w.pc, a.event, ResponseExists(s.files, w.pc));
    }
  }

  // ----- Files: every submission is in one place -----

  /** The directory entry a place stands for holds the ticket. */
  ghost predicate Holds(f: Files, t: Ticket, place: Place) {
    match place
    case InInbox(name) => name in f.inbox && f.inbox[name] == t
    case InPending(uuid) => uuid in f.pending && f.pending[uuid] == t
    case InFailed(dest) => dest in f.failed && f.failed[dest] == t
    case _ => t in f.place && f.place[t] == place
  }

  ghost predicate FilesInv(f: Files) {
    && (forall t :: t in f.place <==> 0 <= t < f.tickets)
    && (forall t <- f.place :: Holds(f, t, f.place[t]))
    && (forall name <- f.inbox :: f.inbox[name] in f.place && f.place[f.inbox[name]] == InInbox(name))
    && (forall uuid <- f.pending :: f.pending[uuid] in f.place && f.place[f.pending[uuid]] == InPending(uuid))
    && (forall dest <- f.failed :: f.failed[dest] in f.place && f.place[f.failed[dest]] == InFailed(dest))
    && f.pending.Keys <= f.uuids
    && (forall dest <- f.failed :: dest.Suffixed? ==> dest.uuid in f.uuids)
  }

  /** Between the rename and the end of the body the claimed file may be pending, and no other new one. */
  ghost predicate JobInv(pending: set<Uuid>, base: set<Uuid>, uuid: Uuid, pc: PC) {
    && uuid !in base
    && base <= pending <= base + {uuid}
    && match pc
       case Rename => uuid !in pending
       case Handle(_) => true
       case Move => true
       case Cleanup(escaping) => !escaping ==> uuid !in pending
       case _ => uuid in pending
  }

  ghost predicate LocalInv(f: Files, l: Local) {
    match l
    case Batch(_, base) => f.pending.Keys == base && base <= f.uuids
    case Work(_, base, job, pc) => job.uuid in f.uuids && base <= f.uuids && JobInv(f.pending.Keys, base, job.uuid, pc)
  }

  ghost predicate FileInv(s: State) {
    && LockInv(s)
    && FilesInv(s.files)
    && (forall p <- s.locals :: LocalInv(s.files, s.locals[p]))
    && (forall t <- s.files.place :: s.files.place[t].Deleted? ==> Published(s.record.pubs, s.files.place[t].id))
  }

  /** No entry of the failed directory is ever overwritten or lost. */
  ghost predicate FailedKept(f: Files, f': Files) {
    forall dest <- f.failed :: dest in f'.failed && f'.failed[dest] == f.failed[dest]
  }

  lemma SubmitFiles(f: Files, name: Name)
    requires FilesInv(f) && name !in f.inbox
    ensures FilesInv(ClientStep(f, Submit(name)).value)
  {
    var f' := ClientStep(f, Submit(name)).value;
    assert forall t <- f.place :: t != f.tickets;
    assert forall t <- f'.place :: Holds(f', t, f'.place[t]);
  }

  lemma WithdrawFiles(f: Files, name: Name)
    requires FilesInv(f) && name in f.inbox
    ensures FilesInv(ClientStep(f, Withdraw(name)).value)
  {
    var f' := ClientStep(f, Withdraw(name)).value;
    assert forall t <- f'.place :: Holds(f', t, f'.place[t]);
  }

  lemma ClientFiles(f: Files, c: Client)
    requires FilesInv(f) && ClientStep(f, c).Some?
    ensures
      var f' := ClientStep(f, c).value;
      && FilesInv(f') && f'.pending == f.pending && f'.uuids == f.uuids && f'.failed == f.failed
      && (forall t <- f'.place :: f'.place[t].Deleted? ==> t in f.place && f.place[t] == f'.place[t])
  {
    match c
    case Submit(name) => SubmitFiles(f, name);
    case Withdraw(name) => WithdrawFiles(f, name);
    case _ =>
      var f' := ClientStep(f, c).value;
      assert forall t <- f'.place :: Holds(f', t, f'.place[t]);
  }

  lemma RenameFiles(f: Files, job: Job, e: Event)
    requires FilesInv(f) && job.uuid in f.uuids && job.uuid !in f.pending
    requires !e.Fail? && FileStep(f, job, Rename, e).Some?
    ensures FilesInv(FileStep(f, job, Rename, e).value)
  {
    var f' := FileStep(f, job, Rename, e).value;
    assert forall t <- f'.place :: Holds(f', t, f'.place[t]);
  }

  lemma UnlinkFiles(f: Files, job: Job, req: Request, e: Event)
    requires FilesInv(f) && !e.Fail? && FileStep(f, job, Unlink(req), e).Some?
    ensures FilesInv(FileStep(f, job, Unlink(req), e).value)
  {
    var f' := FileStep(f, job, Unlink(req), e).value;
    assert forall t <- f'.place :: Holds(f', t, f'.place[t]);
  }

  lemma MoveFiles(f: Files, job: Job, e: Event)
    requires FilesInv(f) && e.Moved? && FileStep(f, job, Move, e).Some?
    ensures FilesInv(FileStep(f, job, Move, e).value)
    ensures FailedKept(f, FileStep(f, job, Move, e).value)
  {
    var f' := FileStep(f, job, Move, e).value;
    assert Destination(f, job.name, e.suffix) !in f.failed;
    assert forall t <- f'.place :: Holds(f', t, f'.place[t]);
  }

  lemma EffectFiles(f: Files, job: Job, pc: PC, e: Event)
    requires FilesInv(f) && FileStep(f, job, pc, e).Some?
    requires job.uuid in f.uuids && (pc.Rename? ==> job.uuid !in f.pending)
    ensures FilesInv(FileStep(f, job, pc, e).value)
    ensures FailedKept(f, FileStep(f, job, pc, e).value)
  {
    if !e.Fail? {
      match pc
      case Rename => RenameFiles(f, job, e);
      case Unlink(req) => UnlinkFiles(f, job, req, e);
      case Move => if e.Moved? { MoveFiles(f, job, e); }
      case Publish(_, _, _, _) =>
        var f' := FileStep(f, job, pc, e).value;
        assert forall t <- f'.place :: Holds(f', t, f'.place[t]);
      case _ =>
    }
  }

  /** The pending names after an effect, seen from the outside. */
  function PendingAfter(pending: set<Uuid>, uuid: Uuid, pc: PC, e: Event): set<Uuid> {
    if e.Fail? then pending
    else if pc.Rename? then pending + {uuid}
    else if pc.Unlink? || (pc.Move? && e.Moved?) then pending - {uuid}
    else pending
  }

  lemma EffectPending(f: Files, job: Job, pc: PC, e: Event)
    requires FileStep(f, job, pc, e).Some?
    ensures
      var f' := FileStep(f, job, pc, e).value;
      && f'.pending.Keys == PendingAfter(f.pending.Keys, job.uuid, pc, e) && f.uuids <= f'.uuids
      && (pc.Move? && e.Done? ==> job.uuid !in f.pending)
      && (forall t <- f'.place :: f'.place[t].Deleted? && !(t in f.place && f.place[t].Deleted?)
                                  ==> pc.Unlink? && f'.place[t].id == pc.req.id)
  {
  }

  lemma JobAdvances(r: Record, name: Name, pending: set<Uuid>, base: set<Uuid>, uuid: Uuid, pc: PC, e: Event, responded: bool)
    requires JobInv(pending, base, uuid, pc) && Advance(r, name, pc, e, responded).Some?
    requires pc.Move? && e.Done? ==> uuid !in pending
    ensures JobInv(PendingAfter(pending, uuid, pc, e), base, uuid, Advance(r, name, pc, e, responded).value.1)
  {
  }

  lemma WorkLocal(s: State, p: Proc, e: Event)
    requires AnswerInv(s) && FileInv(s) && p in s.locals && s.locals[p].Work?
    requires !s.locals[p].pc.Cleanup? && WorkStep(s, p, e).Some?
    ensures
      var s' := WorkStep(s, p, e).value;
      FilesInv(s'.files) && FailedKept(s.files, s'.files) && LocalInv(s'.files, s'.locals[p])
  {
    var Work(_, base, job, pc) := s.locals[p];
    assert LocalInv(s.files, s.locals[p]);
    EffectFiles(s.files, job, pc, e);
    EffectPending(s.files, job, pc, e);
    JobAdvances(s.record, job.name, s.files.pending.Keys, base, job.uuid, pc, e, ResponseExists(s.files, pc));
  }

  lemma WorkDeleted(s: State, p: Proc, e: Event, t: Ticket)
    requires AnswerInv(s) && FileInv(s) && p in s.locals && s.locals[p].Work?
    requires !s.locals[p].pc.Cleanup? && WorkStep(s, p, e).Some?
    requires t in WorkStep(s, p, e).value.files.place && WorkStep(s, p, e).value.files.place[t].Deleted?
    ensures
      var s' := WorkStep(s, p, e).value;
      Published(s'.record.pubs, s'.files.place[t].id)
  {
    var Work(_, _, job, pc) := s.locals[p];
    assert LocalInv(s.files, s.locals[p]) && PcInv(s.record, pc);
    AdvanceKeeps(s.record, job.name, pc, e, ResponseExists(s.files, pc));
    EffectPending(s.files, job, pc, e);
  }

  lemma WorkFiles(s: State, p: Proc, e: Event)
    requires AnswerInv(s) && FileInv(s) && p in s.locals && s.locals[p].Work?
    requires !s.locals[p].pc.Cleanup? && WorkStep(s, p, e).Some?
    ensures FileInv(WorkStep(s, p, e).value) && FailedKept(s.files, WorkStep(s, p, e).value.files)
  {
    var s' := WorkStep(s, p, e).value;
    WorkLocal(s, p, e);
    forall t <- s'.files.place | s'.files.place[t].Deleted?
      ensures Published(s'.record.pubs, s'.files.place[t].id)
    {
      WorkDeleted(s, p, e, t);
    }
  }

  lemma BatchFiles(s: State, p: Proc, e: Event)
    requires FileInv(s) && p in s.locals && s.locals[p].Batch? && BatchStep(s, p, e).Some?
    ensures FileInv(BatchStep(s, p, e).value) && FailedKept(s.files, BatchStep(s, p, e).value.files)
  {
    assert LocalInv(s.files, s.locals[p]);
    var f' := BatchStep(s, p, e).value.files;
    assert forall t, place :: Holds(s.files, t, place) ==> Holds(f', t, place);
  }

  /** The finally clause: on a normal end nothing new is pending. */
  lemma CleanupFiles(s: State, p: Proc, e: Event)
    requires FileInv(s) && p in s.locals && s.locals[p].Work?
    requires s.locals[p].pc.Cleanup? && WorkStep(s, p, e).Some?
    ensures FileInv(WorkStep(s, p, e).value) && WorkStep(s, p, e).value.files == s.files
  {
    var Work(queue, base, job, pc) := s.locals[p];
    assert LocalInv(s.files, s.locals[p]);
    assert !pc.escaping ==> LocalInv(s.files, Batch(queue, base));
  }

  lemma OutsideFiles(s: State, a: Action)
    requires FileInv(s) && Step(s, a).Some? && !a.Run?
    ensures FileInv(Step(s, a).value) && FailedKept(s.files, Step(s, a).value.files)
  {
    if a.ByClient? {
      ClientFiles(s.files, a.client);
      forall p <- s.locals
        ensures LocalInv(Step(s, a).value.files, s.locals[p])
      {
        assert LocalInv(s.files, s.locals[p]);
      }
    }
  }

  lemma StepFiles(s: State, a: Action)
    requires AnswerInv(s) && FileInv(s) && Step(s, a).Some?
    ensures FileInv(Step(s, a).value) && FailedKept(s.files, Step(s, a).value.files)
  {
    if a.Run? {
      if s.locals[a.p].Batch? {
        BatchFiles(s, a.p, a.event);
      } else if s.locals[a.p].pc.Cleanup? {
        CleanupFiles(s, a.p, a.event);
      } else {
        WorkFiles(s, a.p, a.event);
      }
    } else {
      OutsideFiles(s, a);
    }
  }

  // ----- Every history -----

  ghost predicate Inv(s: State) {
    AnswerInv(s) && FileInv(s)
  }

  lemma NextKeeps(s: State, s': State)
    requires Inv(s) && Next(s, s')
    ensures Inv(s') && Progress(s.record, s'.record) && FailedKept(s.files, s'.files)
  {
    var a :| Step(s, a) == Some(s');
    StepAnswers(s, a);
    StepFiles(s, a);
  }

  lemma {:induction false} HistoryKeeps(h: seq<State>, i: nat)
    requires History(h) && i < |h|
    ensures Inv(h[i])
  {
    if i > 0 {
      HistoryKeeps(h, i - 1);
      assert NextAt(h, i - 1);
      NextKeeps(h[i - 1], h[i]);
    }
  }

  /** What holds between two moments, however far apart. */
  ghost predicate Later(s: State, s': State) {
    && Evolves(s.record.rows, s'.record.rows)
    && s.record.pubs <= s'.record.pubs
    && FailedKept(s.files, s'.files)
  }

  lemma AdjacentProgress(h: seq<State>, i: nat)
    requires History(h) && i + 1 < |h|
    ensures Later(h[i], h[i + 1])
  {
    HistoryKeeps(h, i);
    assert NextAt(h, i);
    NextKeeps(h[i], h[i + 1]);
  }

  lemma LaterTransitive(s1: State, s2: State, s3: State)
    requires Later(s1, s2) && Later(s2, s3)
    ensures Later(s1, s3)
  {
  }

  lemma {:induction false} HistoryProgress(h: seq<State>, i: nat, j: nat)
    requires History(h) && i <= j < |h|
    ensures Later(h[i], h[j])
    decreases j - i
  {
    if i < j {
      HistoryProgress(h, i, j - 1);
      AdjacentProgress(h, j - 1);
      LaterTransitive(h[i], h[j - 1], h[j]);
    }
  }

  /** The model is called at most once per id, over crashes, resubmissions and rival brokers. */
  lemma AtMostOneInference(h: seq<State>, i: nat)
    requires History(h) && i < |h|
    ensures forall j, k | 0 <= j < k < |h[i].record.calls| :: h[i].record.calls[j] != h[i].record.calls[k]
  {
    HistoryKeeps(h, i);
  }

  /** A call begins only for an id whose CLAIMED row is already durable, never answered, never called. */
  lemma CallNeedsDurableClaim(h: seq<State>, i: nat)
    requires History(h) && i + 1 < |h| && h[i + 1].record.calls != h[i].record.calls
    ensures
      exists id ::
        && h[i + 1].record.calls == h[i].record.calls + [id]
        && id in h[i].record.rows && h[i].record.rows[id].state == CLAIMED
        && id !in h[i].record.calls && !Published(h[i].record.pubs, id)
  {
    HistoryKeeps(h, i);
    assert NextAt(h, i);
    NextKeeps(h[i], h[i + 1]);
  }

  /** All responses ever published for one id are the same, and of the same kind. */
  lemma OneAnswerPerId(h: seq<State>, i: nat, j: nat, k: nat)
    requires History(h) && i < |h|
    requires j < |h[i].record.pubs| && k < |h[i].record.pubs|
    requires h[i].record.pubs[j].id == h[i].record.pubs[k].id
    ensures h[i].record.pubs[j] == h[i].record.pubs[k]
  {
    HistoryKeeps(h, i);
    assert Agrees(h[i].record.rows, h[i].record.pubs[j]);
    assert Agrees(h[i].record.rows, h[i].record.pubs[k]);
  }

  /** Each publication is the journal's COMPLETE response or the fixed uncertain error, for good. */
  lemma PublishedMeaning(h: seq<State>, i: nat, j: nat, k: nat)
    requires History(h) && i <= j < |h| && k < |h[i].record.pubs|
    ensures
      var pub, rows := h[i].record.pubs[k], h[j].record.rows;
      && pub.id in rows
      && (pub.kind == Answer ==> rows[pub.id].state == COMPLETE && rows[pub.id].response == Some(pub.response))
      && (pub.kind == Doubt ==> rows[pub.id].state != COMPLETE && pub.response == OutcomeUncertain(pub.id))
  {
    HistoryProgress(h, i, j);
    HistoryKeeps(h, j);
    assert h[j].record.pubs[k] == h[i].record.pubs[k];
  }

  /** Every submission is in exactly one place, and deleted only after a publication for its id. */
  lemma RequestConservation(h: seq<State>, i: nat, t: Ticket)
    requires History(h) && i < |h| && t < h[i].files.tickets
    ensures exists place ::
      && Holds(h[i].files, t, place)
      && (forall other :: Holds(h[i].files, t, other) ==> other == place)
      && (place.Deleted? ==> Published(h[i].record.pubs, place.id))
  {
    HistoryKeeps(h, i);
    assert Holds(h[i].files, t, h[i].files.place[t]);
  }

  /** No move into the failed directory overwrites or removes an earlier file. */
  lemma FailedNeverOverwritten(h: seq<State>, i: nat, j: nat, dest: FailedName)
    requires History(h) && i <= j < |h| && dest in h[i].files.failed
    ensures dest in h[j].files.failed && h[j].files.failed[dest] == h[i].files.failed[dest]
  {
    HistoryProgress(h, i, j);
  }

  /** Between two files, and so when it leaves, a broker has added nothing to the pending files. */
  lemma BatchLeavesNothingPending(h: seq<State>, i: nat, p: Proc)
    requires History(h) && i < |h| && p in h[i].locals && h[i].locals[p].Batch?
    ensures h[i].files.pending.Keys == h[i].locals[p].base
  {
    HistoryKeeps(h, i);
    assert LocalInv(h[i].files, h[i].locals[p]);
  }

  /** Only the lock owner is inside a batch. */
  lemma OneBrokerAtWork(h: seq<State>, i: nat, p: Proc, q: Proc)
    requires History(h) && i < |h| && p in h[i].locals && q in h[i].locals
    ensures p == q
  {
    HistoryKeeps(h, i);
  }
}
