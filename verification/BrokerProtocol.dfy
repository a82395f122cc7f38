/**
 The durable request protocol of broker/main.py and broker/durability.py as a transition
 system. A step is one durable effect together with the exception it may raise; a crash may
 come between any two steps. Clients act at any time, and any number of brokers contend for
 the lock.
 */
module BrokerProtocol {
  import opened Wrappers
  import opened Journal

  type Name = string
  type Proc = nat
  type Uuid = nat
  type Ticket = nat

  const MAX_QUEUE_SIZE: nat := 8

  datatype FailedName = Plain(name: Name) | Suffixed(name: Name, uuid: Uuid)

  /** Where a submitted file is; the last two are remembered only by the history. */
  datatype Place =
    | InInbox(name: Name)
    | InPending(uuid: Uuid)
    | InFailed(dest: FailedName)
    | Deleted(id: Id)
    | Withdrawn

  /** Why a response was published: the journal's answer, or an outcome nobody knows. */
  datatype Kind = Answer | Doubt

  datatype Publication = Publication(id: Id, response: Response, kind: Kind)

  datatype Job = Job(name: Name, uuid: Uuid, reserved: bool)

  /** The next effect of a broker inside the body of the per-file loop. */
  datatype PC =
    | Rename
    | Read
    | Claim(req: Request, raw: Raw)
    | Look(req: Request, outcome: Outcome)
    | MarkExisting(req: Request)
    | Publish(req: Request, response: Response, kind: Kind, raises: bool)
    | Admit(req: Request)
    | Refuse(req: Request)
    | Call(req: Request)
    | Await(req: Request)
    | Finish(req: Request, response: Response)
    | Unlink(req: Request)
    | Handle(identity: Option<Id>)
    | Move
    | Cleanup(escaping: bool)

  /** `base` remembers the pending files found when the batch began. */
  datatype Local =
    | Batch(queue: seq<Name>, base: set<Uuid>)
    | Work(queue: seq<Name>, base: set<Uuid>, job: Job, pc: PC)

  /** What was decided and answered: journal rows, model calls begun and responses linked. */
  datatype Record = Record(rows: Rows, calls: seq<Id>, pubs: seq<Publication>)

  /** The directories, with the history of every submitted file. */
  datatype Files = Files(
    inbox: map<Name, Ticket>,
    pending: map<Uuid, Ticket>,
    failed: map<FailedName, Ticket>,
    out: map<Id, Response>,
    tickets: nat,
    place: map<Ticket, Place>,
    uuids: set<Uuid>)

  datatype State = State(record: Record, files: Files, owner: Option<Proc>, locals: map<Proc, Local>)

  datatype Client =
    | Submit(name: Name)
    | Withdraw(name: Name)
    | DeleteResponse(id: Id)
    | PlantResponse(id: Id, response: Response)

  /** `FailLate` is an exception raised after the effect took place. */
  datatype Event =
    | Begin(uuid: Uuid)
    | Leave
    | Done
    | Fail
    | FailLate
    | Got(raw: Raw)
    | Allowed(ok: bool)
    | Returned(response: Response)
    | Moved(suffix: Uuid, late: bool)

  datatype Action =
    | ByClient(client: Client)
    | Crash(p: Proc)
    | Lock(p: Proc, queue: seq<Name>)
    | Run(p: Proc, event: Event)

  predicate StemMatches(stem: Name, id: Id) {
    stem == id || stem == "req-" + id
  }

  function ClientStep(f: Files, c: Client): Option<Files> {
    match c
    case Submit(name) =>
      if name in f.inbox then None
      else Some(f.(inbox := f.inbox[name := f.tickets], tickets := f.tickets + 1,
                   place := f.place[f.tickets := InInbox(name)]))
    case Withdraw(name) =>
      if name !in f.inbox then None
      else Some(f.(inbox := f.inbox - {name}, place := f.place[f.inbox[name] := Withdrawn]))
    case DeleteResponse(id) => Some(f.(out := f.out - {id}))
    case PlantResponse(id, response) => Some(f.(out := f.out[id := response]))
  }

  /** Which branch follows the journal's answer once no response file is in the way. */
  function Dispatch(req: Request, outcome: Outcome): PC {
    match outcome
    case NEW => Admit(req)
    case KNOWN(COMPLETE, Some(response)) => Publish(req, response, Answer, false)
    case KNOWN(COMPLETE, None) => Handle(Some(req.id))
    case KNOWN(_, _) => Publish(req, OutcomeUncertain(req.id), Doubt, true)
    case CONFLICT => Handle(Some(req.id))
  }

  function AfterRead(name: Name, raw: Raw): PC {
    if raw.parsed.None? then Handle(None)
    else
      var req := raw.parsed.value;
      if StemMatches(name, req.id) then Claim(req, raw) else Handle(Some(req.id))
  }

  function AfterClaim(r: Record, req: Request, raw: Raw): (Record, PC) {
    var (rows, outcome) := Claimed(r.rows, req.id, raw);
    (r.(rows := rows), if outcome.CONFLICT? then Handle(Some(req.id)) else Look(req, outcome))
  }

  /** finish, then publish what was recorded; the ValueError for an unclaimed row is `Fail`. */
  function AfterFinish(r: Record, req: Request, response: Response, raises: bool): Option<(Record, PC)> {
    var rows := Finished(r.rows, req.id, response);
    if rows.None? then None
    else Some((r.(rows := rows.value), Publish(req, response, Answer, raises)))
  }

  function Linked(r: Record, pc: PC): Record
    requires pc.Publish?
  {
    r.(pubs := r.pubs + [Publication(pc.req.id, pc.response, pc.kind)])
  }

  /** The identity known to the exception handler. */
  function IdentityAt(pc: PC): Option<Id> {
    if pc.Rename? || pc.Read? || pc.Move? || pc.Cleanup? then None
    else if pc.Handle? then pc.identity
    else Some(pc.req.id)
  }

  /** The commit took effect, and then an exception went to the handler. */
  function Escaping(finished: Option<(Record, PC)>): Option<(Record, PC)> {
    match finished
    case Some((r, pc)) => Some((r, Handle(IdentityAt(pc))))
    case None => None
  }

  /**
   The record and the next effect after event `e`; `exists` says whether the response file of
   the request is there. None when the event cannot happen at `pc`.
   */
  function Advance(r: Record, name: Name, pc: PC, e: Event, responded: bool): Option<(Record, PC)> {
    if e.Fail? then
      match pc
      case Admit(_) => None
      case Handle(None) => None
      case Handle(Some(_)) => Some((r, Cleanup(true)))
      case Move => Some((r, Cleanup(true)))
      case Cleanup(_) => None
      case _ => Some((r, Handle(IdentityAt(pc))))
    else if e.FailLate? then
      match pc
      case Rename => Some((r, Handle(None)))
      case Claim(req, raw) => Some((AfterClaim(r, req, raw).0, Handle(Some(req.id))))
      case MarkExisting(req) => Some((r.(rows := Doubted(r.rows, req.id)), Handle(Some(req.id))))
      case Refuse(req) => Escaping(AfterFinish(r, req, BudgetExhausted(req.id), true))
      case Finish(req, response) => Escaping(AfterFinish(r, req, response, false))
      case Handle(Some(id)) => Some((r.(rows := Doubted(r.rows, id)), Cleanup(true)))
      case Publish(_, _, _, _) => Some((Linked(r, pc), Handle(IdentityAt(pc))))
      case Unlink(_) => Some((r, Handle(IdentityAt(pc))))
      case _ => None
    else
      match (pc, e)
      case (Rename, Done) => Some((r, Read))
      case (Read, Got(raw)) => Some((r, AfterRead(name, raw)))
      case (Claim(req, raw), Done) => Some(AfterClaim(r, req, raw))
      case (Look(req, outcome), Done) => Some((r, if responded then MarkExisting(req) else Dispatch(req, outcome)))
      case (MarkExisting(req), Done) => Some((r.(rows := Doubted(r.rows, req.id)), Handle(Some(req.id))))
      case (Publish(req, _, _, raises), Done) => Some((Linked(r, pc), if raises then Handle(Some(req.id)) else Unlink(req)))
      case (Admit(req), Allowed(ok)) => Some((r, if ok then Call(req) else Refuse(req)))
      case (Refuse(req), Done) => AfterFinish(r, req, BudgetExhausted(req.id), true)
      case (Call(req), Done) => Some((r.(calls := r.calls + [req.id]), Await(req)))
      case (Await(req), Returned(response)) => Some((r, Finish(req, response)))
      case (Finish(req, response), Done) => AfterFinish(r, req, response, false)
      case (Unlink(_), Done) => Some((r, Cleanup(false)))
      case (Handle(None), Done) => Some((r, Move))
      case (Handle(Some(id)), Done) => Some((r.(rows := Doubted(r.rows, id)), Move))
      case (Move, Done) => Some((r, Cleanup(false)))
      case (Move, Moved(_, late)) => Some((r, Cleanup(late)))
      case _ => None
  }

  function Destination(f: Files, name: Name, suffix: Uuid): FailedName {
    if Plain(name) in f.failed then Suffixed(name, suffix) else Plain(name)
  }

  /** The effect on the directories; None when it cannot succeed, as when a link target exists. */
  function FileStep(f: Files, job: Job, pc: PC, e: Event): Option<Files> {
    if e.Fail? then Some(f)
    else
      match pc
      case Rename =>
        if job.name !in f.inbox then None
        else
          var t := f.inbox[job.name];
          Some(f.(inbox := f.inbox - {job.name}, pending := f.pending[job.uuid := t],
                  place := f.place[t := InPending(job.uuid)]))
      case Publish(req, response, _, _) =>
        if req.id in f.out then None else Some(f.(out := f.out[req.id := response]))
      case Unlink(req) =>
        if job.uuid !in f.pending then None
        else Some(f.(pending := f.pending - {job.uuid}, place := f.place[f.pending[job.uuid] := Deleted(req.id)]))
      case Move =>
        if e.Done? then if job.uuid in f.pending then None else Some(f)
        else if !e.Moved? || job.uuid !in f.pending || e.suffix in f.uuids then None
        else
          var dest := Destination(f, job.name, e.suffix);
          Some(f.(pending := f.pending - {job.uuid}, failed := f.failed[dest := f.pending[job.uuid]],
                  place := f.place[f.pending[job.uuid] := InFailed(dest)], uuids := f.uuids + {e.suffix}))
      case _ => Some(f)
  }

  function ResponseExists(f: Files, pc: PC): bool {
    pc.Look? && pc.req.id in f.out
  }

  function Left(s: State, p: Proc): State {
    s.(locals := s.locals - {p}, owner := if s.owner == Some(p) then None else s.owner)
  }

  /** One effect of the per-file body, or its finally clause. */
  function WorkStep(s: State, p: Proc, e: Event): Option<State>
    requires p in s.locals && s.locals[p].Work?
  {
    var Work(queue, base, job, pc) := s.locals[p];
    if pc.Cleanup? then
      if !e.Done? then None
      else if pc.escaping then Some(Left(s, p))
      else Some(s.(locals := s.locals[p := Batch(queue, base)]))
    else
      var advanced := Advance(s.record, job.name, pc, e, ResponseExists(s.files, pc));
      var files := FileStep(s.files, job, pc, e);
      if advanced.None? || files.None? then None
      else
        var job' := job.(reserved := job.reserved || (pc.Admit? && e == Allowed(true)));
        Some(State(advanced.value.0, files.value, s.owner,
                   s.locals[p := Work(queue, base, job', advanced.value.1)]))
  }

  function BatchStep(s: State, p: Proc, e: Event): Option<State>
    requires p in s.locals && s.locals[p].Batch?
  {
    var Batch(queue, base) := s.locals[p];
    if queue == [] then if e.Leave? then Some(Left(s, p)) else None
    else if e.Begin? && e.uuid !in s.files.uuids then
      Some(s.(locals := s.locals[p := Work(queue[1..], base, Job(queue[0], e.uuid, false), Rename)],
              files := s.files.(uuids := s.files.uuids + {e.uuid})))
    else None
  }

  function Step(s: State, a: Action): Option<State> {
    match a
    case ByClient(c) =>
      var f := ClientStep(s.files, c);
      if f.None? then None else Some(s.(files := f.value))
    case Crash(p) => Some(Left(s, p))
    case Lock(p, queue) =>
      if s.owner == None && |queue| <= MAX_QUEUE_SIZE
      then Some(s.(owner := Some(p), locals := s.locals[p := Batch(queue, s.files.pending.Keys)]))
      else None
    case Run(p, e) =>
      if p !in s.locals then None
      else if s.locals[p].Batch? then BatchStep(s, p, e)
      else WorkStep(s, p, e)
  }

  ghost predicate Init(s: State) {
    && s.record == Record(map[], [], [])
    && s.files == Files(map[], map[], map[], s.files.out, 0, map[], {})
    && s.owner == None && s.locals == map[]
  }

  ghost predicate Next(s: State, s': State) {
    exists a :: Step(s, a) == Some(s')
  }

  ghost predicate NextAt(h: seq<State>, i: nat)
    requires i + 1 < |h|
  {
    Next(h[i], h[i + 1])
  }

  /** A history: every crash point is the end of some history. */
  ghost predicate History(h: seq<State>) {
    && |h| > 0 && Init(h[0])
    && (forall i: nat | i + 1 < |h| :: NextAt(h, i))
  }
}
