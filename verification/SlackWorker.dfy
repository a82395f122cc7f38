/**
 runSlackJob of nanoclaw/setup/slack-worker.ts, effect by effect. The worker only ever takes steps
 of the protocol, so what is proved over histories holds wherever it may stop.
 */
module SlackWorker {
  import opened Wrappers
  import opened SlackCompletion
  import opened SlackProtocol

  /**
   The job file, the services and the clock; any effect may also be the process's last moment. On a
   calm one every effect succeeds, and the service has this token to deliver.
   */
  class World {
    const calm: bool
    const token: string
    const delivery: string
    var s: State
    ghost var h: seq<State>

    ghost predicate Valid()
      reads this
    {
      History(h) && h[|h| - 1] == s
    }

    constructor (calm: bool, token: string, delivery: string, s: State)
      requires Init(s)
      ensures Valid() && this.calm == calm && this.token == token && this.delivery == delivery && this.s == s
    {
      this.calm, this.token, this.delivery, this.s := calm, token, delivery, s;
      h := [s];
    }

    method Take(e: Event)
      requires Valid() && Step(s, e).Some?
      modifies this
      ensures Valid() && old(h) <= h && s == Step(old(s), e).value
    {
      var next := Step(s, e).value;
      ghost var longer := h + [next];
      forall i: nat | i + 1 < |longer|
        ensures NextAt(longer, i)
      {
        if i + 1 < |h| {
          assert NextAt(h, i);
        } else {
          assert Step(longer[i], e) == Some(longer[i + 1]);
        }
      }
      s, h := next, longer;
    }

    /** How the effect comes out when all is well. */
    function Success(pc: PC): Event {
      match pc
      case Fetch => Answered(Delivered(token, delivery))
      case Confirm => StatusIs(true)
      case _ => Done
    }

    /** Await the effect that is due: it comes out in any way the protocol allows. */
    method Await(m: Mem) returns (e: Event)
      requires Valid() && s.mem == Some(m)
      modifies this
      ensures Valid() && old(h) <= h && Step(old(s), e) == Some(s)
      ensures calm && Step(old(s), Success(m.pc)).Some? ==> e == Success(m.pc)
    {
      e := *;
      if calm {
        e := Success(m.pc);
      }
      if Step(s, e).None? {
        e := Stop;
      }
      Take(e);
    }

    predicate Doing(m: Mem)
      reads this
    {
      s.mem == Some(m)
    }
  }

  /** How a piece of the try block ended: on to the next, with an exception, or with the process. */
  datatype Ending = Passed | Thrown(hopeless: bool) | Over

  /** save(): a throwing write may or may not have replaced the file. */
  method Save(w: World, m: Mem) returns (end: Ending)
    requires w.Valid() && w.Doing(m) && m.pc in {SaveToken, SaveAcknowledged, SaveInstalling, SaveComplete}
    modifies w
    ensures w.Valid() && old(w.h) <= w.h
    ensures match end
            case Passed => w.s.mem == AfterSave(m)
            case Thrown(hopeless) => hopeless == m.pc.SaveComplete? && w.Doing(Caught(m, hopeless))
            case Over => w.s.mem.None?
    ensures w.calm ==> end.Passed? && w.s == old(w.s).(disk := m.job, mem := AfterSave(m), lost := false)
  {
    var e := w.Await(m);
    end := match e
      case Done => Passed
      case SaveThrows(_) => Thrown(m.pc.SaveComplete?)
      case _ => Over;
  }

  /** report(): only a sign-in error gets out of it. */
  method Report(w: World, m0: Mem, back: Return) returns (m: Mem, end: Ending)
    requires w.Valid() && w.s.mem == StartReport(m0, back)
    modifies w
    ensures w.Valid() && old(w.h) <= w.h
    ensures m.job == m0.job.(reported := m.job.reported)
    ensures match end
            case Passed => w.s.mem == AfterReport(m, back)
            case Thrown(hopeless) => hopeless && w.Doing(Caught(m, true))
            case Over => w.s.mem.None?
    ensures w.calm && InStep(old(w.s), m0) ==>
              && end.Passed? && m.job == Reported(m0).job && m.reported == Reported(m0).reported
              && w.s == old(w.s).(disk := m.job, mem := AfterReport(m, back), lost := w.s.lost)
  {
    hide AfterReport;
    m := m0;
    if m.reported == Some(m.job.status) {
      return m, Passed;
    }
    m := m.(pc := PC.Report(back));
    var e := w.Await(m);
    match e {
      case Done =>
        m := m.(job := m.job.(reported := Some(m.job.status)), reported := Some(m.job.status), pc := SaveReport(back));
        var saved := w.Await(m);
        end := if saved.Stop? then Over else Passed;
      case Throw(error) =>
        end := if error.Auth? then Thrown(true) else Passed;
      case _ =>
        end := Over;
    }
  }

  /** Fetch the delivery, if the token is not there, and save it before anything else. */
  method FetchToken(w: World, m0: Mem) returns (m: Mem, end: Ending, waiting: bool)
    requires w.Valid() && w.Doing(m0.(pc := Fetch)) && m0.job.token.None?
    modifies w
    ensures w.Valid() && old(w.h) <= w.h
    ensures match end
            case Passed => if waiting then w.Doing(m.(pc := Pause)) else w.s.mem == Some(AfterToken(m)) && m.job.token.Some?
            case Thrown(hopeless) => w.Doing(Caught(m, hopeless))
            case Over => w.s.mem.None?
    ensures w.calm ==>
              && end.Passed? && !waiting && m.reported == m0.reported
              && m.job == m0.job.(token := Some(w.token), delivery := Some(w.delivery), status := Installing)
              && w.s == old(w.s).(disk := m.job, mem := Some(AfterToken(m)), lost := false)
  {
    m, waiting := m0.(pc := Fetch), false;
    var e := w.Await(m);
    match e {
      case Answered(Waiting) =>
        return m, Passed, true;
      case Answered(Delivered(token, delivery)) =>
        m := m.(job := m.job.(token := Some(token), delivery := Some(delivery), status := Installing), pc := SaveToken);
        end := Save(w, m);
      case Answered(_) =>
        end := Thrown(true);
      case Throw(error) =>
        end := Thrown(!Hopeful(error));
      case _ =>
        end := Over;
    }
  }

  /** Acknowledge what is not acknowledged, and save that. */
  method AcknowledgeDelivery(w: World, m0: Mem) returns (m: Mem, end: Ending)
    requires w.Valid() && w.s.mem == Some(AfterToken(m0))
    modifies w
    ensures w.Valid() && old(w.h) <= w.h
    ensures match end
            case Passed => w.Doing(m) && m.pc.SaveInstalling?
            case Thrown(hopeless) => w.Doing(Caught(m, hopeless))
            case Over => w.s.mem.None?
    ensures w.calm ==>
              && end.Passed? && m.reported == m0.reported && w.s.installed == old(w.s.installed)
              && m.job == m0.job.(status := Installing, acknowledged := m0.job.acknowledged || m0.job.delivery.Some?)
              && w.s.acks == old(w.s.acks) + if m0.job.delivery.Some? && !m0.job.acknowledged then [m0.job.delivery.value] else []
  {
    m := AfterToken(m0);
    if m.pc.SaveInstalling? {
      return m, Passed;
    }
    var e := w.Await(m);
    match e {
      case Done =>
        m := m.(job := m.job.(acknowledged := true), pc := SaveAcknowledged);
        end := Save(w, m);
        if end.Passed? {
          m := m.(job := m.job.(status := Installing), pc := SaveInstalling);
        }
      case Throw(error) =>
        end := Thrown(!Hopeful(error));
      case _ =>
        end := Over;
    }
  }

  /** Under the setup lock: the service still says installed, and is told of the installation. */
  method ConfirmInstalled(w: World, m0: Mem) returns (m: Mem, end: Ending)
    requires w.Valid() && w.Doing(m0.(pc := Confirm))
    modifies w
    ensures w.Valid() && old(w.h) <= w.h && m.job == m0.job && m.reported == m0.reported
    ensures match end
            case Passed => w.Doing(m) && m.pc.Install?
            case Thrown(hopeless) => w.Doing(Caught(m, hopeless))
            case Over => w.s.mem.None?
    ensures w.calm ==> end.Passed? && w.s == old(w.s).(mem := Some(m), lost := w.s.lost)
  {
    m := m0.(pc := Confirm);
    var confirmed := w.Await(m);
    match confirmed {
      case StatusIs(true) =>
      case StatusIs(false) => return m, Thrown(true);
      case Throw(error) => return m, Thrown(!Hopeful(error));
      case _ => return m, Over;
    }
    m := m.(pc := ReportInstalling);
    var reported := w.Await(m);
    match reported {
      case Done => return m.(pc := Install), Passed;
      case Throw(error) => return m, Thrown(!Hopeful(error));
      case _ => return m, Over;
    }
  }

  /** Then install here, and save the job as complete; any error from here on is final. */
  method InstallLocked(w: World, m0: Mem) returns (m: Mem, end: Ending)
    requires w.Valid() && w.Doing(m0.(pc := Confirm))
    modifies w
    ensures w.Valid() && old(w.h) <= w.h
    ensures match end
            case Passed => w.s.mem == StartReport(m, End)
            case Thrown(hopeless) => w.Doing(Caught(m, hopeless))
            case Over => w.s.mem.None?
    ensures w.calm ==>
              && end.Passed? && m.job == m0.job.(status := Complete) && m.reported == m0.reported && w.s.disk == m.job
              && w.s.acks == old(w.s.acks) && (m0.job.token.Some? ==> m0.job.token.value in w.s.installed)
  {
    m, end := ConfirmInstalled(w, m0);
    if !end.Passed? {
      return;
    }
    var installed := w.Await(m);
    match installed {
      case Done =>
        m := m.(job := m.job.(status := Complete), pc := SaveComplete);
        end := Save(w, m);
      case Throw(_) =>
        end := Thrown(true);
      case _ =>
        end := Over;
    }
  }

  /** The pass has done everything: the job is complete, saved and reported. */
  predicate Completed(s: State, s': State, m0: Mem, m: Mem, token: string, delivery: string) {
    && s'.disk == m.job && m.reported == Some(Complete) == m.job.reported && m.job.status.Complete?
    && m.job.token == (if m0.job.token.Some? then m0.job.token else Some(token))
    && m.job.delivery == (if m0.job.token.Some? then m0.job.delivery else Some(delivery))
    && m.job.token.value in s'.installed
    && s'.acks == s.acks + if m.job.delivery.Some? && !m0.job.acknowledged then [m.job.delivery.value] else []
  }

  /** The try block of one pass. */
  method Try(w: World, m0: Mem) returns (m: Mem, end: Ending)
    requires w.Valid() && w.s.mem == StartReport(m0, Top)
    modifies w
    ensures w.Valid() && old(w.h) <= w.h
    ensures match end
            case Passed => w.Doing(m) && (m.pc.Check? || m.pc.Pause?)
            case Thrown(hopeless) => w.Doing(Caught(m, hopeless))
            case Over => w.s.mem.None?
    ensures w.calm && InStep(old(w.s), m0) ==>
              if m0.job.status.Complete? then end.Over? && w.s.disk == Reported(m0).job && w.s.acks == old(w.s.acks) && w.s.installed == old(w.s.installed)
              else end.Passed? && m.pc.Check? && Completed(old(w.s), w.s, m0, m, w.token, w.delivery)
  {
    m, end := Report(w, m0, Top);
    if !end.Passed? {
      return;
    }
    if m.job.status.Complete? {
      if m.reported == Some(Complete) {
        return m, Over;
      }
      return m.(pc := Pause), Passed;
    }
    if m.job.token.None? {
      var waiting;
      m, end, waiting := FetchToken(w, m);
      if !end.Passed? {
        return;
      }
      if waiting {
        return m.(pc := Pause), Passed;
      }
    }
    m, end := AcknowledgeDelivery(w, m);
    if !end.Passed? {
      return;
    }
    end := Save(w, m);
    if !end.Passed? {
      return;
    }
    m, end := Report(w, m, BeforeLock);
    if !end.Passed? {
      return;
    }
    m, end := InstallLocked(w, m);
    if !end.Passed? {
      return;
    }
    m, end := Report(w, m, End);
    if end.Passed? {
      m := m.(pc := Check);
    }
  }

  /** The catch, and the pause before the next pass. */
  method Pass(w: World, m0: Mem) returns (m: Mem, over: bool)
    requires w.Valid() && w.Doing(m0) && m0.pc.Check?
    modifies w
    ensures w.Valid() && old(w.h) <= w.h
    ensures if over then w.s.mem.None? else w.Doing(m) && m.pc.Check?
    ensures w.calm && InStep(old(w.s), m0) ==>
              if m0.job.status.Complete? then over && w.s.disk == Reported(m0).job && w.s.acks == old(w.s.acks) && w.s.installed == old(w.s.installed)
              else !over && Completed(old(w.s), w.s, m0, m, w.token, w.delivery)
  {
    hide StartReport;
    w.Take(Window(true));
    var end: Ending;
    m, end := Try(w, m0);
    if end.Over? {
      return m, true;
    }
    if end.Thrown? {
      m := Caught(m, end.hopeless);
    }
    if m.pc.SaveFailed? {
      var saved := w.Await(m);
      if w.s.mem.Some? {
        var _ := w.Await(m.(pc := ReportEnd));
      }
      return m, true;
    }
    if m.pc.Pause? {
      var slept := w.Await(m);
      over := slept.Stop?;
      m := m.(pc := Check);
    } else {
      over := false;
    }
  }

  /** The window has closed: a job that is not complete is saved as expired. */
  method Expire(w: World, m: Mem)
    requires w.Valid() && w.Doing(m) && m.pc.Check?
    modifies w
    ensures w.Valid() && old(w.h) <= w.h && w.s.mem.None?
    ensures w.calm ==> w.s.disk == if m.job.status.Complete? then old(w.s.disk) else m.job.(status := Expired)
  {
    w.Take(Window(false));
    if !m.job.status.Complete? {
      var expired := m.(job := m.job.(status := Expired), pc := SaveExpired);
      var saved := w.Await(expired);
      if w.s.mem.Some? {
        var _ := w.Await(expired.(pc := ReportEnd));
      }
    }
  }

  /** The pass that finds the job complete is the last one. */
  lemma JobFinished(s0: State, launched: State, first: Mem, before: State, s: State, atOnce: bool, token: string, delivery: string)
    requires Inv(s0) && s0.mem.None? && launched == s0.(mem := Some(first)) && first == Mem(s0.disk, s0.disk.reported, Check)
    requires before.mem.Some? && before.mem.value.job.status.Complete? && s.mem.None?
    requires s.disk == Reported(before.mem.value).job && s.acks == before.acks && s.installed == before.installed
    requires if atOnce then before == launched
             else !first.job.status.Complete? && Completed(launched, before, first, before.mem.value, token, delivery)
    ensures Finished(s0, s, token, delivery)
  {
    assert s0.acks + [] == s0.acks;
  }

  /**
   A run: `passes` is how often the loop finds the approval window still open. It leaves no worker
   behind, and it is a history of the protocol. A calm one that has the time brings the job to its end.
   */
  method RunSlackJob(w: World, passes: nat)
    requires w.Valid() && w.s.mem.None?
    modifies w
    ensures w.Valid() && old(w.h) <= w.h && w.s.mem.None?
    ensures Terminal(old(w.s.disk.status)) ==> w.s == old(w.s)
    ensures w.calm && passes >= 2 && !Terminal(old(w.s.disk.status)) ==> Finished(old(w.s), w.s, w.token, w.delivery)
    ensures w.calm && passes == 0 && !Terminal(old(w.s.disk.status)) && !old(w.s.disk.status).Complete? ==>
              w.s.disk == old(w.s.disk).(status := Expired)
  {
    if Terminal(w.s.disk.status) {
      return;
    }
    var m := Mem(w.s.disk, w.s.disk.reported, Check);
    hide Completed, Finished, StartReport, AfterReport;
    HistoryKeeps(w.h, |w.h| - 1);
    w.Take(Launch);
    ghost var first, launched := m, w.s;
    var left := passes;
    while left > 0
      invariant w.Valid() && old(w.h) <= w.h && w.Doing(m) && m.pc.Check?
      invariant 0 <= left <= passes && (left == passes ==> m == first && w.s == launched)
      invariant w.calm && left < passes ==>
                  left == passes - 1 && !first.job.status.Complete? && Completed(launched, w.s, first, m, w.token, w.delivery)
    {
      left := left - 1;
      var over;
      ghost var before := w.s;
      m, over := Pass(w, m);
      if over {
        if w.calm {
          JobFinished(old(w.s), launched, first, before, w.s, left + 1 == passes, w.token, w.delivery);
        }
        return;
      }
    }
    Expire(w, m);
  }

  /** Any number of runs, one after the other. */
  method Restarts(w: World, runs: seq<nat>)
    requires w.Valid() && w.s.mem.None?
    modifies w
    ensures w.Valid() && old(w.h) <= w.h && w.s.mem.None?
    ensures forall d <- w.s.acks :: d !in w.s.unsafeAcks ==> w.s.disk.token.Some? && w.s.disk.delivery == Some(d)
  {
    for i := 0 to |runs|
      invariant w.Valid() && old(w.h) <= w.h && w.s.mem.None?
    {
      RunSlackJob(w, runs[i]);
    }
    HistoryKeeps(w.h, |w.h| - 1);
  }
}
