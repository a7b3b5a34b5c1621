/** Runs of the monitor, with crashes and failed saves anywhere. */
module IpWatchRuns {
  import opened Common
  import opened IpWatch

  datatype Step =
    | ArmStep(command: Command, address: Address, started: Time, fate: Fate)
    | CancelStep(command: Command, fate: Fate)
    | AckStep(id: nat, fate: Fate)
    | ReadyStep
    | BeginStep(now: Time)
    | TakeStep(seen: Option<Observation>, now: Time, fate: Fate)
    | PublishStep
    | CrashStep

  /** An observation of the old address taken in for an attempt: when it was made, when
      it was taken in, and whether it counts for what was kept of the attempt. */
  datatype Intake = Intake(since: nat, at: Time, now: Time, counts: bool)

  /** The monitor, every report published so far, every intake, and the clock as it was
      last read. */
  datatype World = World(m: Monitor, log: seq<Report>, intakes: seq<Intake>, clock: Time)

  /** A node without a reconciliation file. */
  const START := World(Opened(None, 0), [], [], 0)

  /** Only a published report is acknowledged, and a stopped process takes no step. An
      observation is made after its step began and before it is taken in, by a clock
      that never goes back. */
  predicate Enabled(w: World, step: Step) {
    match step
    case CrashStep => true
    case ArmStep(command, address, started, fate) => w.m.phase != Stopped
    case CancelStep(command, fate) => w.m.phase != Stopped
    case AckStep(id, fate) => w.m.phase != Stopped && exists i :: 0 <= i < |w.log| && IdOf(w.log[i]) == id
    case ReadyStep => w.m.phase != Stopped
    case BeginStep(now) => w.m.phase == Idle && w.clock <= now
    case TakeStep(seen, now, fate) =>
      && w.m.phase == Observing && w.clock <= now
      && (seen.Some? ==> seen.value.address.good && seen.value.at != 0 && w.clock <= seen.value.at <= now)
    case PublishStep => w.m.phase.Sending?
  }

  function IdOf(r: Report): nat {
    match r
    case Natural(id, address, at) => id
    case Ended(a) => if a.outcome.Some? then a.outcome.value.id else 0
  }

  /** What the step takes in of the old address of an attempt. */
  function IntakeOf(m: Monitor, seen: Option<Observation>, now: Time, fate: Fate): seq<Intake> {
    if seen.Some? && m.memory.Some? && seen.value.address == m.memory.value.address
    then [Intake(m.memory.value.since, seen.value.at, now, now >= m.memory.value.reconcileAt && fate != KeptOld)]
        else []
  }

  function Next(w: World, step: Step): World {
    match step
    case ArmStep(command, address, started, fate) => w.(m := Arm(w.m, command, address, started, fate).0)
    case CancelStep(command, fate) => w.(m := Cancel(w.m, command, fate).0)
    case AckStep(id, fate) => w.(m := Acknowledge(w.m, id, fate).0)
    case ReadyStep => w.(m := ControlReady(w.m))
    case BeginStep(now) => w.(m := Begin(w.m), clock := now)
    case TakeStep(seen, now, fate) =>
      w.(m := Take(w.m, seen, now, fate), intakes := w.intakes + IntakeOf(w.m, seen, now, fate), clock := now)
    case PublishStep =>
      if w.m.phase.Sending? then w.(log := w.log + [w.m.phase.report], m := w.m.(phase := Idle)) else w
    case CrashStep => w.(m := Opened(w.m.disk, w.m.made))
  }

  ghost predicate LegalRun(steps: seq<Step>)
    decreases |steps|, 0
  {
    steps == [] || (LegalRun(steps[..|steps| - 1]) && Enabled(After(steps[..|steps| - 1]), steps[|steps| - 1]))
  }

  function After(steps: seq<Step>): World
    decreases |steps|, 1
  {
    if steps == [] then START else Next(After(steps[..|steps| - 1]), steps[|steps| - 1])
  }

  // --------------------------------------------------------------- invariants

  /** An attempt in memory or on disk: sound, and unchanged only after two
      confirmations. */
  predicate Fair(a: Attempt, made: nat) {
    && Sound(a) && a.since < made
    && (a.outcome.Some? ==> a.since < a.outcome.value.id < made)
    && (a.outcome.Some? && !a.outcome.value.changed ==> a.confirmations >= CONFIRMATIONS)
  }

  predicate Published(log: seq<Report>, a: Attempt) {
    exists i :: 0 <= i < |log| && log[i] == Ended(a)
  }

  /** A report that tells how an attempt ended tells what the attempt says, and no
      other report has its id. */
  predicate Agrees(r: Report, a: Attempt) {
    && (r.Ended? && r.attempt.since == a.since ==> r.attempt == a)
    && (a.outcome.Some? && IdOf(r) == a.outcome.value.id ==> r == Ended(a))
  }

  predicate AllAgree(log: seq<Report>, a: Attempt) {
    forall i :: 0 <= i < |log| ==> Agrees(log[i], a)
  }

  predicate GoodReport(r: Report, made: nat) {
    IdOf(r) < made && (r.Ended? ==> r.attempt.outcome.Some? && Fair(r.attempt, made))
  }

  predicate GoodLog(log: seq<Report>, made: nat) {
    && (forall i :: 0 <= i < |log| ==> GoodReport(log[i], made))
    && (forall i :: 0 <= i < |log| && log[i].Ended? ==> AllAgree(log, log[i].attempt))
  }

  predicate GoodHeld(held: Option<Attempt>, w: World) {
    held.Some? ==> Fair(held.value, w.m.made) && AllAgree(w.log, held.value)
  }

  /** While an attempt is in memory no natural report waits, and one on its way was
      made before it. */
  predicate Isolated(m: Monitor) {
    && (m.memory.Some? ==>
        m.family.pending.None? && (m.phase.Sending? && m.phase.report.Natural? ==>
            m.phase.report.id < m.memory.value.since))
    && (m.family.pending.Some? ==> m.family.pending.value.Natural? && m.family.pending.value.id < m.made)
    && (m.phase == Observing && m.memory.Some? ==> m.memory.value.outcome.None?)
  }

  /** An outcome in memory is on disk, unless it was published and its end was saved
      with a failure; and the other way round unless the process stopped. */
  predicate Durable(m: Monitor, log: seq<Report>) {
    && (m.memory.Some? && m.memory.value.outcome.Some? ==>
        m.disk == m.memory || (m.disk.None? && Published(log, m.memory.value)))
    && (m.disk.Some? && m.disk.value.outcome.Some? && m.phase != Stopped ==> m.memory == m.disk)
  }

  /** A report on its way is the attempt's own outcome or was published before. */
  predicate OnItsWay(w: World) {
    w.m.phase.Sending? ==>
      var r := w.m.phase.report;
      && GoodReport(r, w.m.made)
      && (w.m.memory.Some? ==> Agrees(r, w.m.memory.value)) && (w.m.disk.Some? ==> Agrees(r, w.m.disk.value))
      && (r.Ended? ==> AllAgree(w.log, r.attempt) && (w.m.memory == Some(r.attempt) || Published(w.log, r.attempt)))
      && (r.Natural? ==> forall i :: 0 <= i < |w.log| && w.log[i].Ended? ==> IdOf(w.log[i]) != r.id)
  }

  predicate Inv(w: World) {
    && GoodHeld(w.m.memory, w) && GoodHeld(w.m.disk, w) && GoodLog(w.log, w.m.made)
    && Isolated(w.m) && Durable(w.m, w.log) && OnItsWay(w)
    && (w.m.family.pending.Some? ==> forall i :: 0 <= i < |w.log| && w.log[i].Ended? ==>
        IdOf(w.log[i]) != w.m.family.pending.value.id)
  }

  // ------------------------------------------------------------ small lemmas

  lemma LogMore(log: seq<Report>, made: nat, made': nat)
    requires GoodLog(log, made) && made <= made'
    ensures GoodLog(log, made')
  {
    forall i | 0 <= i < |log|
      ensures GoodReport(log[i], made')
    {
      assert GoodReport(log[i], made);
    }
  }

  /** An attempt without an outcome has none published, whatever becomes of it. */
  lemma NonePublished(w: World, a: Attempt, b: Attempt)
    requires GoodLog(w.log, w.m.made) && AllAgree(w.log, a) && a.outcome.None? && b.since == a.since
    requires b.outcome.Some? ==> b.outcome.value.id == w.m.made
    ensures AllAgree(w.log, b)
    ensures forall i :: 0 <= i < |w.log| && w.log[i].Ended? ==> w.log[i].attempt.since != a.since
  {
    forall i | 0 <= i < |w.log|
      ensures Agrees(w.log[i], b) && (w.log[i].Ended? ==> w.log[i].attempt.since != a.since)
    {
      assert GoodReport(w.log[i], w.m.made) && Agrees(w.log[i], a);
    }
  }

  /** What holds of all that is there goes on holding as more is made. */
  lemma WorldMore(w: World, made: nat)
    requires Inv(w) && w.m.made <= made
    ensures Inv(w.(m := w.m.(made := made)))
  {
    LogMore(w.log, w.m.made, made);
    hide Agrees, AllAgree, GoodLog;
  }

  /** And as time goes by and observations are taken in. */
  lemma WorldLater(w: World, intakes: seq<Intake>, clock: Time)
    requires Inv(w)
    ensures Inv(w.(intakes := intakes, clock := clock))
  {
    hide Agrees, AllAgree, GoodLog, Fair, GoodReport, Published;
  }

  // --------------------------------------------------------------- each step

  /** A new attempt agrees with every report there is. */
  lemma NewAgrees(log: seq<Report>, a: Attempt, made: nat)
    requires GoodLog(log, made) && a.since >= made && a.outcome.None?
    ensures AllAgree(log, a)
  {
    forall i | 0 <= i < |log|
      ensures Agrees(log[i], a)
    {
      assert GoodReport(log[i], made);
    }
  }

  lemma ArmInv(w: World, command: Command, address: Address, started: Time, fate: Fate)
    requires Inv(w) && Enabled(w, ArmStep(command, address, started, fate))
    ensures Inv(Next(w, ArmStep(command, address, started, fate)))
  {
    if command.good && address.good && started != 0 && w.m.memory.None? && Settled(w.m.family, address) {
      var a := Attempt(command, address, started + GRACE, 0, None, w.m.made);
      NewAgrees(w.log, a, w.m.made);
      WorldMore(w, w.m.made + 1);
      var v := w.(m := w.m.(made := w.m.made + 1));
      assert v.m.phase.Sending? ==> IdOf(v.m.phase.report) < a.since && GoodReport(v.m.phase.report, w.m.made);
      hide AllAgree, GoodLog, Published;
    }
  }

  lemma CancelInv(w: World, command: Command, fate: Fate)
    requires Inv(w) && Enabled(w, CancelStep(command, fate))
    ensures Inv(Next(w, CancelStep(command, fate)))
  {
    hide Fair, Agrees, AllAgree, GoodLog, Published;
  }

  lemma AckInv(w: World, id: nat, fate: Fate)
    requires Inv(w) && Enabled(w, AckStep(id, fate))
    ensures Inv(Next(w, AckStep(id, fate)))
  {
    var i :| 0 <= i < |w.log| && IdOf(w.log[i]) == id;
    if w.m.memory.Some? && w.m.memory.value.outcome.Some? && w.m.memory.value.outcome.value.id == id {
      assert Agrees(w.log[i], w.m.memory.value);
      assert Published(w.log, w.m.memory.value);
    }
    hide Fair, Agrees, GoodReport, AllAgree, GoodLog, Published;
  }

  lemma BeginInv(w: World, now: Time)
    requires Inv(w) && Enabled(w, BeginStep(now))
    ensures Inv(Next(w, BeginStep(now)))
  {
    hide AllAgree, GoodLog, Published;
  }

  lemma PublishInv(w: World)
    requires Inv(w) && Enabled(w, PublishStep)
    ensures Inv(Next(w, PublishStep))
  {
    var r := w.m.phase.report;
    var log := w.log + [r];
    assert forall a: Attempt :: Published(w.log, a) ==> Published(log, a) by {
      forall a: Attempt | Published(w.log, a)
        ensures Published(log, a)
      {
        var i :| 0 <= i < |w.log| && w.log[i] == Ended(a);
        assert log[i] == Ended(a);
      }
    }
    forall i | 0 <= i < |log| && log[i].Ended?
      ensures AllAgree(log, log[i].attempt)
    {
      if i < |w.log| {
        assert AllAgree(w.log, w.log[i].attempt);
        if r.Ended? {
          assert Agrees(w.log[i], r.attempt);
        }
      }
    }
    hide Fair, Published;
  }

  lemma ReadyInv(w: World)
    requires Inv(w)
    ensures Inv(Next(w, ReadyStep))
  {
    hide Fair, Agrees, GoodReport, AllAgree, GoodLog, Published;
  }

  lemma CrashInv(w: World)
    requires Inv(w)
    ensures Inv(Next(w, CrashStep))
  {
    hide Fair, Agrees, GoodReport, AllAgree, GoodLog, Published;
  }

  /** An intake moves the attempt on fairly. */
  lemma JudgedFair(w: World, a: Attempt, o: Observation, now: Time)
    requires Inv(w) && w.m.memory == Some(a) && a.outcome.None? && o.address.good && o.at != 0
    requires Judged(a, o, now, w.m.made).Some?
    ensures var b := Judged(a, o, now, w.m.made).value;
            && Fair(b, w.m.made + 1) && b.since == a.since && (b.outcome.Some? ==> b.outcome.value.id == w.m.made)
                && AllAgree(w.log, b)
  {
    var b := Judged(a, o, now, w.m.made).value;
    NonePublished(w, a, b);
    hide AllAgree, GoodLog, OnItsWay, Durable;
  }

  lemma TakeAttemptInv(w: World, o: Observation, now: Time, fate: Fate)
    requires Inv(w) && Enabled(w, TakeStep(Some(o), now, fate)) && w.m.memory.Some?
    ensures Inv(Next(w, TakeStep(Some(o), now, fate)))
  {
    var a := w.m.memory.value;
    var intakes := w.intakes + IntakeOf(w.m, Some(o), now, fate);
    assert a.outcome.None?;
    if Judged(a, o, now, w.m.made).Some? {
      JudgedFair(w, a, o, now);
      WorldMore(w, w.m.made + 1);
      TakeShape(w, o, now, fate, Judged(a, o, now, w.m.made).value);
      hide Inv, Next, Judged, Fair, AllAgree, Save, IntakeOf;
      var made := w.(m := w.m.(made := w.m.made + 1));
      JudgedInv(made, Judged(a, o, now, w.m.made).value, fate);
      WorldLater(AfterJudged(made, Judged(a, o, now, w.m.made).value, fate), intakes, now);
    } else {
      assert Next(w, TakeStep(Some(o), now, fate)) == w.(m := w.m.(phase := Idle), intakes := intakes, clock := now);
      hide Inv, Next, Judged, IntakeOf;
      IdleInv(w);
      WorldLater(w.(m := w.m.(phase := Idle)), intakes, now);
    }
  }

  /** What is made of an attempt is saved, sent when it is an outcome, and a failed save
      stops the process. */
  function AfterJudged(w: World, b: Attempt, fate: Fate): World {
    w.(m := Save(w.m, Some(b), fate).(phase := if fate != Saved then Stopped else if b.outcome.None? then Idle
        else Sending(Ended(b))))
  }

  lemma TakeShape(w: World, o: Observation, now: Time, fate: Fate, b: Attempt)
    requires w.m.memory.Some? && Judged(w.m.memory.value, o, now, w.m.made) == Some(b)
    ensures Next(w, TakeStep(Some(o), now, fate)) ==
            AfterJudged(w.(m := w.m.(made := w.m.made + 1)), b,
                fate).(intakes := w.intakes + IntakeOf(w.m, Some(o), now, fate), clock := now)
  {
    hide Judged, IntakeOf;
  }

  lemma IdleInv(w: World)
    requires Inv(w) && w.m.phase == Observing
    ensures Inv(w.(m := w.m.(phase := Idle)))
  {
    hide Fair, Agrees, GoodReport, AllAgree, GoodLog, Published;
  }

  lemma JudgedInv(w: World, b: Attempt, fate: Fate)
    requires Inv(w) && w.m.phase == Observing && w.m.memory.Some? && w.m.memory.value.outcome.None?
    requires Fair(b, w.m.made) && AllAgree(w.log, b)
    ensures Inv(AfterJudged(w, b, fate))
  {
    hide AllAgree, GoodLog, Published;
    if fate == Saved {
      assert b.outcome.Some? ==> GoodReport(Ended(b), w.m.made) && Agrees(Ended(b), b);
      hide Fair, GoodReport, Agrees;
    } else {
      hide Fair, GoodReport, Agrees;
    }
  }

  lemma TakeNaturalInv(w: World, o: Observation, now: Time, fate: Fate)
    requires Inv(w) && Enabled(w, TakeStep(Some(o), now, fate)) && w.m.memory.None?
    ensures Inv(Next(w, TakeStep(Some(o), now, fate)))
  {
    WorldMore(w, w.m.made + 1);
    forall i | 0 <= i < |w.log|
      ensures IdOf(w.log[i]) < w.m.made
    {
      assert GoodReport(w.log[i], w.m.made);
    }
    hide Fair, AllAgree, GoodLog, Published;
  }

  lemma StepInv(w: World, step: Step)
    requires Inv(w) && Enabled(w, step)
    ensures Inv(Next(w, step))
  {
    match step
    case ArmStep(command, address, started, fate) => ArmInv(w, command, address, started, fate);
    case CancelStep(command, fate) => CancelInv(w, command, fate);
    case AckStep(id, fate) => AckInv(w, id, fate);
    case ReadyStep => ReadyInv(w);
    case BeginStep(now) => BeginInv(w, now);
    case TakeStep(seen, now, fate) =>
      if seen.None? {
        hide Fair, Agrees, GoodReport, AllAgree, GoodLog, Published;
      } else if w.m.memory.Some? {
        TakeAttemptInv(w, seen.value, now, fate);
      } else {
        TakeNaturalInv(w, seen.value, now, fate);
      }
    case PublishStep => PublishInv(w);
    case CrashStep => CrashInv(w);
  }

  lemma {:induction false} RunInv(steps: seq<Step>)
    requires LegalRun(steps)
    ensures Inv(After(steps))
  {
    if steps != [] {
      RunInv(steps[..|steps| - 1]);
      StepInv(After(steps[..|steps| - 1]), steps[|steps| - 1]);
    }
  }

  // ------------------------------------------------------------- main results

  /** Over every run, with crashes and failed saves anywhere, at most one outcome is
      published for an attempt, and it is resent unchanged. */
  lemma OneOutcome(steps: seq<Step>, i: nat, j: nat)
    requires LegalRun(steps) && i < |After(steps).log| && j < |After(steps).log|
    requires var log := After(steps).log; log[i].Ended? && log[j].Ended? && log[i].attempt.since == log[j].attempt.since
    ensures After(steps).log[i] == After(steps).log[j]
  {
    RunInv(steps);
    var log := After(steps).log;
    assert AllAgree(log, log[j].attempt);
    assert Agrees(log[i], log[j].attempt);
  }

  /** An outcome is on disk before it is first published. */
  lemma DurableFirst(steps: seq<Step>, a: Attempt)
    requires LegalRun(steps) && After(steps).m.phase == Sending(Ended(a)) && !Published(After(steps).log, a)
    ensures After(steps).m.disk == Some(a) && a.outcome.Some?
  {
    RunInv(steps);
  }

  /** While an attempt is open no natural report is made, and one that is still sent
      was made before the attempt. */
  lemma NaturalIsOlder(steps: seq<Step>, step: Step)
    requires LegalRun(steps) && Enabled(After(steps), step) && After(steps).m.memory.Some?
    ensures var m, next := After(steps).m, Next(After(steps), step).m;
            && (next.memory.Some? && next.memory.value.since == m.memory.value.since ==> next.family.pending.None?)
            && (step == PublishStep && m.phase.report.Natural? ==> m.phase.report.id < m.memory.value.since)
            && (!step.CrashStep? && next.phase.Sending? && next.phase.report.Natural? ==> next.phase == m.phase)
  {
    RunInv(steps);
    StepInv(After(steps), step);
  }

  /** What is on disk can always be read back. */
  lemma DiskIsSound(steps: seq<Step>)
    requires LegalRun(steps) && After(steps).m.disk.Some?
    ensures Sound(After(steps).m.disk.value)
  {
    RunInv(steps);
  }
}
