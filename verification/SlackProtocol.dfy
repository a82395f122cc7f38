/**
 nanoclaw/setup/slack-worker.ts: the worker that fetches a Slack bot token, saves it, acknowledges
 the delivery and installs the channel, as a state machine over the job file and one worker
 process. Every state of a history is a point where the process may stop.
 */
module SlackProtocol {
  import opened Wrappers

  datatype Status = AwaitingApproval | Installing | Complete | Failed | Expired

  datatype Job = Job(
    status: Status,
    token: Option<string>,
    delivery: Option<string>,
    acknowledged: bool,
    reported: Option<Status>)

  /** Where `report` was called from. */
  datatype Return = Top | BeforeLock | End

  /** The effect the worker is about to have. */
  datatype PC =
    | Check
    | Report(back: Return)
    | SaveReport(back: Return)
    | Fetch
    | SaveToken
    | Acknowledge
    | SaveAcknowledged
    | SaveInstalling
    | Confirm
    | ReportInstalling
    | Install
    | SaveComplete
    | Pause
    | SaveFailed
    | SaveExpired
    | ReportEnd

  datatype Mem = Mem(job: Job, reported: Option<Status>, pc: PC)

  /** `lost`: a save of a fresh token failed, and nothing was saved since. */
  datatype State = State(
    disk: Job,
    mem: Option<Mem>,
    acks: seq<string>,
    unsafeAcks: set<string>,
    installed: set<string>,
    lost: bool)

  /** An error with status 401 or 403, one the catch gives up on, or any other. */
  datatype Error = Auth | Hopeless | Transient

  datatype Answer =
    | Deleted
    | Waiting
    | NoToken
    | Delivered(token: string, delivery: string)
    | BadDelivery

  datatype Event =
    | Launch
    | Stop
    | Done
    | Throw(error: Error)
    | SaveThrows(written: bool)
    | Answered(answer: Answer)
    | Window(open: bool)
    | StatusIs(installed: bool)

  predicate Terminal(status: Status) {
    status.Failed? || status.Expired?
  }

  // ----- Between two effects -----

  /** After the token is in the job: acknowledge what is not acknowledged, then install. */
  function AfterToken(m: Mem): Mem {
    if m.job.delivery.Some? && !m.job.acknowledged then m.(pc := Acknowledge)
    else m.(job := m.job.(status := Installing), pc := SaveInstalling)
  }

  function AfterReport(m: Mem, back: Return): Option<Mem> {
    match back
    case Top =>
      if m.job.status.Complete? then
        if m.reported == Some(Complete) then None else Some(m.(pc := Pause))
      else if m.job.token.None? then Some(m.(pc := Fetch))
      else Some(AfterToken(m))
    case BeforeLock => Some(m.(pc := Confirm))
    case End => Some(m.(pc := Check))
  }

  /** report(): nothing to do when this status was reported already. */
  function StartReport(m: Mem, back: Return): Option<Mem> {
    if m.reported == Some(m.job.status) then AfterReport(m, back) else Some(m.(pc := Report(back)))
  }

  /** The catch: give up on some errors, and on all once the installation has begun. */
  function Caught(m: Mem, hopeless: bool): Mem {
    if hopeless then m.(job := m.job.(status := Failed), pc := SaveFailed) else m.(pc := Pause)
  }

  function Hopeful(error: Error): bool {
    error.Transient?
  }

  predicate Saves(pc: PC) {
    pc.SaveReport? || pc.SaveToken? || pc.SaveAcknowledged? || pc.SaveInstalling? || pc.SaveComplete?
    || pc.SaveFailed? || pc.SaveExpired?
  }

  function AfterSave(m: Mem): Option<Mem>
    requires Saves(m.pc)
  {
    match m.pc
    case SaveReport(back) => AfterReport(m, back)
    case SaveToken => Some(AfterToken(m))
    case SaveAcknowledged => Some(m.(job := m.job.(status := Installing), pc := SaveInstalling))
    case SaveInstalling => StartReport(m, BeforeLock)
    case SaveComplete => StartReport(m, End)
    case _ => Some(m.(pc := ReportEnd))
  }

  /** A throwing save: swallowed inside report, fatal once applying, and out of the catch or the end. */
  function AfterFailedSave(m: Mem): Option<Mem>
    requires Saves(m.pc)
  {
    match m.pc
    case SaveReport(back) => AfterReport(m, back)
    case SaveComplete => Some(Caught(m, true))
    case SaveFailed => None
    case SaveExpired => None
    case _ => Some(Caught(m, false))
  }

  function AfterFetch(m: Mem, answer: Answer): Mem {
    match answer
    case Waiting => m.(pc := Pause)
    case Delivered(token, delivery) =>
      m.(job := m.job.(token := Some(token), delivery := Some(delivery), status := Installing), pc := SaveToken)
    case _ => Caught(m, true)
  }

  // ----- Steps -----

  function SaveStep(s: State, m: Mem, e: Event): Option<State>
    requires Saves(m.pc)
  {
    match e
    case Done => Some(s.(disk := m.job, mem := AfterSave(m), lost := false))
    case SaveThrows(true) => Some(s.(disk := m.job, mem := AfterFailedSave(m), lost := false))
    case SaveThrows(false) =>
      var mem := AfterFailedSave(m);
      Some(s.(mem := mem, lost := mem.Some? && (s.lost || m.pc.SaveToken?)))
    case _ => None
  }

  /** The steps that only change memory. */
  function QuietStep(m: Mem, e: Event): Option<Option<Mem>> {
    match (m.pc, e)
    case (Check, Window(true)) => Some(StartReport(m, Top))
    case (Check, Window(false)) =>
      Some(if m.job.status.Complete? then None
           else Some(m.(job := m.job.(status := Expired), pc := SaveExpired)))
    case (Report(back), Done) =>
      Some(Some(m.(job := m.job.(reported := Some(m.job.status)), reported := Some(m.job.status), pc := SaveReport(back))))
    case (Report(back), Throw(error)) => Some(if error.Auth? then Some(Caught(m, true)) else AfterReport(m, back))
    case (Fetch, Answered(answer)) => Some(Some(AfterFetch(m, answer)))
    case (Fetch, Throw(error)) => Some(Some(Caught(m, !Hopeful(error))))
    case (Acknowledge, Throw(error)) => Some(Some(Caught(m, !Hopeful(error))))
    case (Confirm, StatusIs(installed)) => Some(Some(if installed then m.(pc := ReportInstalling) else Caught(m, true)))
    case (Confirm, Throw(error)) => Some(Some(Caught(m, !Hopeful(error))))
    case (ReportInstalling, Done) => Some(Some(m.(pc := Install)))
    case (ReportInstalling, Throw(error)) => Some(Some(Caught(m, !Hopeful(error))))
    case (Install, Throw(_)) => Some(Some(Caught(m, true)))
    case (Pause, Done) => Some(Some(m.(pc := Check)))
    case (ReportEnd, Done) => Some(None)
    case (ReportEnd, Throw(_)) => Some(None)
    case _ => None
  }

  /** Sending an acknowledgement; the request may arrive even when the call throws. */
  function AckStep(s: State, m: Mem, e: Event): Option<State>
    requires m.pc.Acknowledge? && m.job.delivery.Some?
  {
    var sent := s.(acks := s.acks + [m.job.delivery.value],
                   unsafeAcks := if s.lost then s.unsafeAcks + {m.job.delivery.value} else s.unsafeAcks);
    match e
    case Done => Some(sent.(mem := Some(m.(job := m.job.(acknowledged := true), pc := SaveAcknowledged))))
    case Throw(error) => Some(sent.(mem := Some(Caught(m, !Hopeful(error)))))
    case _ => None
  }

  function Ended(s: State, mem: Option<Mem>): State {
    s.(mem := mem, lost := s.lost && mem.Some?)
  }

  function Step(s: State, e: Event): Option<State> {
    if e.Stop? then Some(Ended(s, None))
    else if s.mem.None? then
      if e.Launch? && !Terminal(s.disk.status) then Some(s.(mem := Some(Mem(s.disk, s.disk.reported, Check)))) else None
    else
      var m := s.mem.value;
      if Saves(m.pc) then SaveStep(s, m, e)
      else if m.pc.Acknowledge? then
        if m.job.delivery.Some? then AckStep(s, m, e) else None
      else if m.pc.Install? && e.Done? then
        Some(s.(mem := Some(m.(job := m.job.(status := Complete), pc := SaveComplete)),
                installed := s.installed + if m.job.token.Some? then {m.job.token.value} else {}))
      else
        var next := QuietStep(m, e);
        if next.None? then None else Some(Ended(s, next.value))
  }

  /** The saved job agrees with the acknowledgements and installations there were. */
  predicate Settled(s: State) {
    && (forall d <- s.acks :: d !in s.unsafeAcks ==> s.disk.token.Some? && s.disk.delivery == Some(d))
    && (s.disk.status.Complete? ==> s.disk.token.Some? && s.disk.token.value in s.installed)
    && (s.disk.acknowledged ==> s.disk.token.Some? && s.disk.delivery.Some? && s.disk.delivery.value in s.acks)
  }

  /** A job as setup has queued it, or as it was before; no worker runs. */
  predicate Init(s: State) {
    s.mem.None? && s.unsafeAcks == {} && !s.lost && Settled(s)
  }

  ghost predicate Next(s: State, next: State) {
    exists e :: Step(s, e) == Some(next)
  }

  ghost predicate NextAt(h: seq<State>, i: nat)
    requires i + 1 < |h|
  {
    Next(h[i], h[i + 1])
  }

  ghost predicate History(h: seq<State>) {
    && |h| > 0 && Init(h[0])
    && forall i: nat | i + 1 < |h| :: NextAt(h, i)
  }

  // ----- The invariant -----

  predicate NeedsToken(pc: PC) {
    pc in {Acknowledge, SaveAcknowledged, SaveInstalling, Confirm, ReportInstalling, Install, SaveComplete,
           Report(BeforeLock), SaveReport(BeforeLock)}
  }

  /** Memory and file agree on the delivery, but for a token that is not saved yet or failed to be. */
  predicate MemOk(s: State, m: Mem) {
    && (s.disk.token.Some? ==> m.job.token == s.disk.token && m.job.delivery == s.disk.delivery)
    && (!s.lost && !m.pc.SaveToken? ==> m.job.token == s.disk.token && m.job.delivery == s.disk.delivery)
    && (s.lost ==> s.disk.token.None?)
    && (m.pc.SaveToken? ==> s.disk.token.None? && m.job.token.Some? && m.job.delivery.Some?
                            && m.job.status.Installing? && !m.job.acknowledged)
    && (m.pc.Fetch? ==> m.job.token.None?)
    && (NeedsToken(m.pc) ==> m.job.token.Some?)
    && (m.pc.Acknowledge? ==> m.job.delivery.Some? && !m.job.acknowledged)
    && (Terminal(m.job.status) ==> m.pc in {SaveFailed, SaveExpired, ReportEnd})
    && (Terminal(s.disk.status) ==> m.pc.ReportEnd?)
    && (m.pc.ReportEnd? ==> m.job == s.disk)
    && (m.job.status.Complete? ==> m.job.token.Some? && m.job.token.value in s.installed)
    && (m.job.acknowledged ==> m.job.token.Some? && m.job.delivery.Some? && m.job.delivery.value in s.acks)
  }

  predicate Inv(s: State) {
    (s.mem.Some? ==> MemOk(s, s.mem.value)) && (s.lost ==> s.mem.Some?) && Settled(s)
  }

  lemma SavedKeeps(s: State, m: Mem, mem: Option<Mem>)
    requires Inv(s) && s.mem == Some(m) && Saves(m.pc) && mem in {AfterSave(m), AfterFailedSave(m)}
    ensures Inv(s.(disk := m.job, mem := mem, lost := false))
  {
  }

  lemma NotSavedKeeps(s: State, m: Mem)
    requires Inv(s) && s.mem == Some(m) && Saves(m.pc) && SaveStep(s, m, SaveThrows(false)).Some?
    ensures Inv(SaveStep(s, m, SaveThrows(false)).value)
  {
  }

  lemma SaveKeeps(s: State, e: Event)
    requires Inv(s) && s.mem.Some? && Saves(s.mem.value.pc) && SaveStep(s, s.mem.value, e).Some?
    ensures Inv(SaveStep(s, s.mem.value, e).value)
  {
    var m := s.mem.value;
    if e == SaveThrows(false) {
      NotSavedKeeps(s, m);
    } else {
      SavedKeeps(s, m, if e.Done? then AfterSave(m) else AfterFailedSave(m));
    }
  }

  lemma AckKeeps(s: State, e: Event)
    requires Inv(s) && s.mem.Some? && s.mem.value.pc.Acknowledge? && s.mem.value.job.delivery.Some?
    requires AckStep(s, s.mem.value, e).Some?
    ensures Inv(AckStep(s, s.mem.value, e).value)
  {
    var d := s.mem.value.job.delivery.value;
    assert (s.acks + [d])[|s.acks|] == d;
  }

  lemma QuietKeeps(s: State, e: Event)
    requires Inv(s) && s.mem.Some? && QuietStep(s.mem.value, e).Some?
    requires !Saves(s.mem.value.pc) && !s.mem.value.pc.Acknowledge?
    ensures Inv(Ended(s, QuietStep(s.mem.value, e).value))
  {
  }

  lemma StepKeeps(s: State, e: Event)
    requires Inv(s) && Step(s, e).Some?
    ensures Inv(Step(s, e).value)
  {
    if s.mem.Some? && !e.Stop? {
      var m := s.mem.value;
      if Saves(m.pc) {
        SaveKeeps(s, e);
      } else if m.pc.Acknowledge? {
        AckKeeps(s, e);
      } else if !(m.pc.Install? && e.Done?) {
        QuietKeeps(s, e);
      }
    }
  }

  lemma {:induction false} HistoryKeeps(h: seq<State>, i: nat)
    requires History(h) && i < |h|
    ensures Inv(h[i])
  {
    if i > 0 {
      HistoryKeeps(h, i - 1);
      assert NextAt(h, i - 1);
      var e :| Step(h[i - 1], e) == Some(h[i]);
      StepKeeps(h[i - 1], e);
    }
  }

  // ----- Results -----

  /**
   No acknowledged token is lost: whenever an acknowledgement was sent, at any moment of any number
   of runs, the job file holds the token of that delivery. The only exceptions are acknowledgements
   sent after a save of the fresh token had thrown and no save had succeeded since.
   */
  lemma AcknowledgedIsSaved(h: seq<State>, i: nat, d: string)
    requires History(h) && i < |h| && d in h[i].acks && d !in h[i].unsafeAcks
    ensures h[i].disk.token.Some? && h[i].disk.delivery == Some(d)
  {
    HistoryKeeps(h, i);
  }

  lemma StepStable(s: State, e: Event)
    requires Inv(s) && Step(s, e).Some?
    ensures var next := Step(s, e).value;
            && (s.disk.token.Some? ==> next.disk.token == s.disk.token && next.disk.delivery == s.disk.delivery)
            && (Terminal(s.disk.status) ==> next.disk == s.disk)
            && (forall d <- next.unsafeAcks :: d in s.unsafeAcks || s.lost)
            && (next.lost ==> s.lost || e == SaveThrows(false))
  {
  }

  /** The token of a job is written once; and a job saved as failed or expired is never written again. */
  lemma {:induction false} SavedJobStays(h: seq<State>, i: nat, j: nat)
    requires History(h) && i <= j < |h|
    ensures h[i].disk.token.Some? ==> h[j].disk.token == h[i].disk.token && h[j].disk.delivery == h[i].disk.delivery
    ensures Terminal(h[i].disk.status) ==> h[j].disk == h[i].disk
  {
    if i < j {
      SavedJobStays(h, i, j - 1);
      HistoryKeeps(h, j - 1);
      assert NextAt(h, j - 1);
      var e :| Step(h[j - 1], e) == Some(h[j]);
      StepStable(h[j - 1], e);
    }
  }

  /** A job reads complete only when its own token was installed. */
  lemma CompleteWasInstalled(h: seq<State>, i: nat)
    requires History(h) && i < |h| && h[i].disk.status.Complete?
    ensures h[i].disk.token.Some? && h[i].disk.token.value in h[i].installed
  {
    HistoryKeeps(h, i);
  }

  predicate SavesHold(h: seq<State>) {
    forall i | 0 <= i < |h| :: !h[i].lost
  }

  /** When no save of a fresh token throws, every acknowledged token is in the file. */
  lemma {:induction false} NothingLost(h: seq<State>, i: nat)
    requires History(h) && i < |h| && SavesHold(h)
    ensures h[i].unsafeAcks == {}
    ensures forall d <- h[i].acks :: h[i].disk.token.Some? && h[i].disk.delivery == Some(d)
  {
    HistoryKeeps(h, i);
    if i > 0 {
      NothingLost(h, i - 1);
      HistoryKeeps(h, i - 1);
      assert NextAt(h, i - 1);
      var e :| Step(h[i - 1], e) == Some(h[i]);
      StepStable(h[i - 1], e);
    }
  }

  ghost predicate Leads(s: State, es: seq<Event>, end: State)
    decreases |es|
  {
    if es == [] then s == end
    else Step(s, es[0]).Some? && Leads(Step(s, es[0]).value, es[1..], end)
  }

  lemma LeadsOn(s: State, e: Event, es: seq<Event>, end: State)
    requires Step(s, e).Some? && Leads(Step(s, e).value, es, end)
    ensures Leads(s, [e] + es, end)
  {
    assert ([e] + es)[1..] == es;
  }

  /**
   The exception is real: wherever the save of a fresh token is due, one throwing save is enough.
   The worker pauses, comes back with the token in memory only, acknowledges it, and when it stops
   the token is gone although its delivery was acknowledged.
   */
  lemma OneThrowingSaveLosesToken(s: State) returns (es: seq<Event>, end: State)
    requires Inv(s) && s.mem.Some? && s.mem.value.pc.SaveToken?
    ensures Leads(s, es, end)
    ensures s.mem.value.job.delivery.value in end.acks && end.disk.token.None? && end.mem.None?
  {
    var s1 := Step(s, SaveThrows(false)).value;
    var s2 := Step(s1, Done).value;
    var s3 := Step(s2, Window(true)).value;
    var reporting := s3.mem.value.pc.Report?;
    var s4 := if reporting then Step(s3, Throw(Transient)).value else s3;
    assert s4.mem.value.pc.Acknowledge? && s4.disk == s.disk && s4.acks == s.acks;
    var s5 := Step(s4, Done).value;
    assert (s4.acks + [s.mem.value.job.delivery.value])[|s4.acks|] == s.mem.value.job.delivery.value;
    end := Step(s5, Stop).value;
    es := [];
    LeadsOn(s5, Stop, es, end);
    es := [Stop] + es;
    LeadsOn(s4, Done, es, end);
    es := [Done] + es;
    if reporting {
      LeadsOn(s3, Throw(Transient), es, end);
      es := [Throw(Transient)] + es;
    }
    LeadsOn(s2, Window(true), es, end);
    es := [Window(true)] + es;
    LeadsOn(s1, Done, es, end);
    es := [Done] + es;
    LeadsOn(s, SaveThrows(false), es, end);
    es := [SaveThrows(false)] + es;
  }
}
