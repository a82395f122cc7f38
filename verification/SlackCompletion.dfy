/**
 What nanoclaw/setup/slack-worker.ts is for: from wherever it was stopped, one undisturbed run
 brings the job to its end.
 */
module SlackCompletion {
  import opened Wrappers
  import opened SlackProtocol

  lemma {:induction false} LeadsFurther(s: State, es: seq<Event>, mid: State, more: seq<Event>, end: State)
    requires Leads(s, es, mid) && Leads(mid, more, end)
    ensures Leads(s, es + more, end)
    decreases |es|
  {
    if es == [] {
      assert es + more == more;
    } else {
      LeadsFurther(Step(s, es[0]).value, es[1..], mid, more, end);
      assert (es + more)[1..] == es[1..] + more;
    }
  }

  /** One more event at the end of a run. */
  lemma Then(s: State, es: seq<Event>, mid: State, e: Event) returns (more: seq<Event>, end: State)
    requires Leads(s, es, mid) && Step(mid, e).Some?
    ensures Leads(s, more, end) && end == Step(mid, e).value
  {
    end := Step(mid, e).value;
    assert Leads(end, [], end);
    LeadsOn(mid, e, [], end);
    assert [e] + [] == [e];
    LeadsFurther(s, es, mid, [e], end);
    more := es + [e];
  }

  /** The job in memory is the saved one, and so is what was reported of it. */
  predicate InStep(s: State, m: Mem) {
    s.disk == m.job && m.reported == m.job.reported
  }

  function Reported(m: Mem): Mem {
    m.(reported := Some(m.job.status), job := m.job.(reported := Some(m.job.status)))
  }

  /** A report that is due, or was made already. */
  lemma ReportMade(s0: State, es: seq<Event>, s: State, m: Mem, back: Return) returns (more: seq<Event>, end: State)
    requires Leads(s0, es, s) && s.mem == StartReport(m, back) && InStep(s, m)
    ensures Leads(s0, more, end)
    ensures end == s.(disk := Reported(m).job, mem := AfterReport(Reported(m), back), lost := end.lost)
  {
    if m.reported == Some(m.job.status) {
      assert Reported(m) == m;
      more, end := es, s;
    } else {
      var e1, s1 := Then(s0, es, s, Done);
      more, end := Then(s0, e1, s1, Done);
    }
  }

  /** What an undisturbed run makes of the job. */
  predicate Finished(s: State, end: State, token: string, delivery: string) {
    && end.mem.None? && end.disk.status.Complete? && end.disk.reported == Some(Complete)
    && end.disk.token == (if s.disk.token.Some? then s.disk.token else Some(token))
    && end.disk.delivery == (if s.disk.token.Some? then s.disk.delivery else Some(delivery))
    && end.disk.token.value in end.installed
    && end.acks == s.acks + (if !s.disk.status.Complete? && end.disk.delivery.Some? && !s.disk.acknowledged
                             then [end.disk.delivery.value] else [])
  }

  lemma Started(s: State) returns (es: seq<Event>, end: State)
    requires s.mem.None? && !Terminal(s.disk.status)
    ensures Leads(s, es, end)
    ensures var m := Mem(s.disk, s.disk.reported, Check); end == s.(mem := StartReport(m, Top), lost := end.lost)
  {
    assert Leads(s, [], s);
    var e1, s1 := Then(s, [], s, Launch);
    es, end := Then(s, e1, s1, Window(true));
  }

  /** The token is there, or is fetched and saved. */
  lemma TokenSaved(s0: State, es: seq<Event>, s: State, m: Mem, token: string, delivery: string)
    returns (more: seq<Event>, end: State, m': Mem)
    requires Leads(s0, es, s) && s.mem == AfterReport(m, Top) && InStep(s, m) && !m.job.status.Complete?
    ensures Leads(s0, more, end) && end == s.(disk := m'.job, mem := Some(AfterToken(m')), lost := end.lost) && InStep(end, m')
    ensures m'.job.token == (if m.job.token.Some? then m.job.token else Some(token))
    ensures m'.job.delivery == (if m.job.token.Some? then m.job.delivery else Some(delivery))
    ensures m'.job.acknowledged == m.job.acknowledged
  {
    if m.job.token.Some? {
      more, end, m' := es, s, m;
    } else {
      var e1, s1 := Then(s0, es, s, Answered(Delivered(token, delivery)));
      m' := s1.mem.value;
      more, end := Then(s0, e1, s1, Done);
      m' := m'.(pc := Fetch);
    }
  }

  /** The delivery is acknowledged once, and the job saved as installing. */
  lemma DeliveryAcknowledged(s0: State, es: seq<Event>, s: State, m: Mem) returns (more: seq<Event>, end: State, m': Mem)
    requires Leads(s0, es, s) && s.mem == Some(AfterToken(m)) && InStep(s, m)
    ensures Leads(s0, more, end) && InStep(end, m') && end.mem == StartReport(m', BeforeLock) && end.installed == s.installed
    ensures m'.job.token == m.job.token && m'.job.delivery == m.job.delivery && m'.job.status.Installing?
    ensures end.acks == s.acks + (if m.job.delivery.Some? && !m.job.acknowledged then [m.job.delivery.value] else [])
  {
    var e1, s1 := es, s;
    if m.job.delivery.Some? && !m.job.acknowledged {
      e1, s1 := Then(s0, es, s, Done);
      e1, s1 := Then(s0, e1, s1, Done);
    } else {
      assert s.acks + [] == s.acks;
    }
    m' := s1.mem.value;
    more, end := Then(s0, e1, s1, Done);
  }

  lemma InstallDue(s0: State, es: seq<Event>, s: State, m: Mem) returns (more: seq<Event>, end: State)
    requires Leads(s0, es, s) && s.mem == Some(m.(pc := Confirm))
    ensures Leads(s0, more, end) && end == s.(mem := Some(m.(pc := Install)), lost := end.lost)
  {
    var e1, s1 := Then(s0, es, s, StatusIs(true));
    more, end := Then(s0, e1, s1, Done);
  }

  /** Confirmed, reported, installed and saved as complete. */
  lemma ChannelInstalled(s0: State, es: seq<Event>, s: State, m: Mem) returns (more: seq<Event>, end: State, m': Mem)
    requires Leads(s0, es, s) && s.mem == Some(m.(pc := Confirm)) && InStep(s, m) && m.job.token.Some?
    ensures Leads(s0, more, end) && InStep(end, m') && end.mem == StartReport(m', End) && end.acks == s.acks
    ensures m'.job == m.job.(status := Complete) && m.job.token.value in end.installed
  {
    var e1, s1 := InstallDue(s0, es, s, m);
    var e2, s2 := Then(s0, e1, s1, Done);
    m' := s2.mem.value;
    more, end := Then(s0, e2, s2, Done);
  }

  /** A complete job that was reported needs no further pass. */
  lemma LastPass(s0: State, es: seq<Event>, s: State, m: Mem) returns (more: seq<Event>, end: State)
    requires Leads(s0, es, s) && s.mem == Some(m.(pc := Check)) && m.job.status.Complete? && m.reported == Some(Complete)
    ensures Leads(s0, more, end) && end == s.(mem := None, lost := false)
  {
    more, end := Then(s0, es, s, Window(true));
  }

  /**
   From any state in which no worker runs and the job is neither failed nor expired, there is a run
   that ends with the job complete and reported, its token saved and installed, and its delivery
   acknowledged exactly once more if it was not acknowledged yet.
   */
  lemma OneRunCompletes(s: State, token: string, delivery: string) returns (es: seq<Event>, end: State)
    requires Inv(s) && s.mem.None? && !Terminal(s.disk.status)
    ensures Leads(s, es, end) && Finished(s, end, token, delivery)
  {
    var m0 := Mem(s.disk, s.disk.reported, Check);
    var e1, s1 := Started(s);
    var e2, s2 := ReportMade(s, e1, s1, m0, Top);
    if s.disk.status.Complete? {
      assert s.acks + [] == s.acks;
      es, end := e2, s2;
    } else {
      var e3, s3, m3 := TokenSaved(s, e2, s2, Reported(m0), token, delivery);
      var e4, s4, m4 := DeliveryAcknowledged(s, e3, s3, m3);
      var e5, s5 := ReportMade(s, e4, s4, m4, BeforeLock);
      var e6, s6, m6 := ChannelInstalled(s, e5, s5, Reported(m4));
      var e7, s7 := ReportMade(s, e6, s6, m6, End);
      es, end := LastPass(s, e7, s7, Reported(m6));
    }
  }

  /** A delivery that was withdrawn or is unusable fails the job for good. */
  lemma BadAnswerFails(s: State, answer: Answer) returns (es: seq<Event>, end: State)
    requires s.mem.Some? && s.mem.value.pc.Fetch? && (answer.Deleted? || answer.NoToken? || answer.BadDelivery?)
    ensures Leads(s, es, end) && end.mem.None? && end.disk == s.mem.value.job.(status := Failed)
    ensures end.acks == s.acks && end.installed == s.installed
  {
    assert Leads(s, [], s);
    var e1, s1 := Then(s, [], s, Answered(answer));
    var e2, s2 := Then(s, e1, s1, Done);
    es, end := Then(s, e2, s2, Done);
  }

  /** A failed installation is final too. */
  lemma FailedInstallFails(s: State, error: Error) returns (es: seq<Event>, end: State)
    requires s.mem.Some? && s.mem.value.pc.Install?
    ensures Leads(s, es, end) && end.mem.None? && end.disk == s.mem.value.job.(status := Failed)
  {
    assert Leads(s, [], s);
    var e1, s1 := Then(s, [], s, Throw(error));
    var e2, s2 := Then(s, e1, s1, Done);
    es, end := Then(s, e2, s2, Done);
  }

  /** When the approval window closes, a job that is not complete expires. */
  lemma ClosedWindowExpires(s: State) returns (es: seq<Event>, end: State)
    requires s.mem.Some? && s.mem.value.pc.Check?
    ensures Leads(s, es, end) && end.mem.None?
    ensures if s.mem.value.job.status.Complete? then end.disk == s.disk else end.disk == s.mem.value.job.(status := Expired)
  {
    assert Leads(s, [], s);
    es, end := Then(s, [], s, Window(false));
    if !s.mem.value.job.status.Complete? {
      es, end := Then(s, es, end, Done);
      es, end := Then(s, es, end, Done);
    }
  }

  /** An error that may pass costs one pause: the next pass starts from the same job. */
  lemma TransientErrorRetries(s: State) returns (es: seq<Event>, end: State)
    requires s.mem.Some? && s.mem.value.pc in {Fetch, Acknowledge, Confirm, ReportInstalling}
    requires s.mem.value.pc.Acknowledge? ==> s.mem.value.job.delivery.Some?
    ensures Leads(s, es, end) && end.mem == Some(s.mem.value.(pc := Check)) && end.disk == s.disk
  {
    assert Leads(s, [], s);
    var e1, s1 := Then(s, [], s, Throw(Transient));
    es, end := Then(s, e1, s1, Done);
  }
}
