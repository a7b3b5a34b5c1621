/** When the old address counts: over every run, which observations a ChangeIP that
    ends unchanged rests on. */
module IpWatchGrace {
  import opened Common
  import opened IpWatch
  import opened IpWatchRuns

  /** The intakes that count for one attempt. */
  function Of(intakes: seq<Intake>, since: nat): seq<Intake> {
    if intakes == [] then []
    else
      var n := |intakes| - 1;
      Of(intakes[..n], since) + if intakes[n].since == since && intakes[n].counts then [intakes[n]] else []
  }

  /** One observation is taken in before the next is made. */
  predicate Ordered(intakes: seq<Intake>, clock: Time) {
    && (forall i :: 0 <= i < |intakes| ==> intakes[i].at <= intakes[i].now <= clock)
    && (forall i, j :: 0 <= i < j < |intakes| ==> intakes[i].now <= intakes[j].at)
  }

  /** What an attempt has of confirmations is what counts for it, each taken in at or
      after the grace; at the second it ends, as of that observation. */
  predicate Confirmed(a: Attempt, intakes: seq<Intake>) {
    var mine := Of(intakes, a.since);
    && |mine| == a.confirmations <= CONFIRMATIONS
    && (forall i :: 0 <= i < |mine| ==> mine[i].now >= a.reconcileAt)
    && (a.outcome.None? ==> a.confirmations < CONFIRMATIONS)
    && (a.outcome.Some? && !a.outcome.value.changed ==>
          a.confirmations == CONFIRMATIONS && a.outcome.value.address == a.address && a.outcome.value.at == mine[1].at)
  }

  predicate AllConfirmed(log: seq<Report>, intakes: seq<Intake>) {
    forall i :: 0 <= i < |log| && log[i].Ended? ==> Confirmed(log[i].attempt, intakes)
  }

  predicate Timed(w: World) {
    && Ordered(w.intakes, w.clock)
    && (forall i :: 0 <= i < |w.intakes| ==> w.intakes[i].since < w.m.made)
    && (w.m.memory.Some? && w.m.phase != Stopped ==> Confirmed(w.m.memory.value, w.intakes))
    && (w.m.disk.Some? ==> Confirmed(w.m.disk.value, w.intakes))
    && (w.m.phase.Sending? && w.m.phase.report.Ended? ==> Confirmed(w.m.phase.report.attempt, w.intakes))
    && AllConfirmed(w.log, w.intakes)
  }

  // ------------------------------------------------------------ small lemmas

  lemma OfMore(intakes: seq<Intake>, intake: Intake, since: nat)
    ensures Of(intakes + [intake], since) ==
            Of(intakes, since) + if intake.since == since && intake.counts then [intake] else []
  {
    assert (intakes + [intake])[..|intakes|] == intakes;
  }

  predicate Among(xs: seq<Intake>, ys: seq<Intake>) {
    forall i :: 0 <= i < |xs| ==> xs[i] in ys
  }

  lemma AmongMore(xs: seq<Intake>, intakes: seq<Intake>, n: nat)
    requires n < |intakes| && Among(xs, intakes[..n])
    ensures Among(xs, intakes) && Among(xs + [intakes[n]], intakes)
  {
    forall i | 0 <= i < |xs|
      ensures xs[i] in intakes
    {
      assert xs[i] in intakes[..n];
    }
  }

  lemma OfLast(intakes: seq<Intake>, since: nat)
    ensures Of(intakes, since)
         == if intakes == [] then []
            else
              var n := |intakes| - 1;
              if intakes[n].since == since && intakes[n].counts then Of(intakes[..n], since) + [intakes[n]]
                  else Of(intakes[..n], since)
  {
  }

  lemma OrderedNone(intakes: seq<Intake>, clock: Time)
    ensures Ordered([], clock) && Among([], intakes)
  {
  }

  lemma OrderedUpTo(intakes: seq<Intake>, n: nat, clock: Time)
    requires Ordered(intakes, clock) && n < |intakes|
    ensures Ordered(intakes[..n], clock)
  {
  }

  lemma OrderedOn(xs: seq<Intake>, intakes: seq<Intake>, n: nat, clock: Time)
    requires Ordered(intakes, clock) && n < |intakes| && Ordered(xs, clock) && Among(xs, intakes[..n])
    ensures Ordered(xs + [intakes[n]], clock)
  {
    forall i | 0 <= i < |xs|
      ensures xs[i].now <= intakes[n].at
    {
      var j :| 0 <= j < n && intakes[..n][j] == xs[i];
      assert intakes[j].now <= intakes[n].at;
    }
    hide Among;
  }

  /** What counts is some of what was taken in, in its order. */
  lemma {:induction false} OfOrdered(intakes: seq<Intake>, since: nat, clock: Time)
    requires Ordered(intakes, clock)
    ensures Ordered(Of(intakes, since), clock) && Among(Of(intakes, since), intakes)
  {
    hide Of, Ordered, Among;
    OfLast(intakes, since);
    if intakes == [] {
      OrderedNone(intakes, clock);
    } else {
      var n := |intakes| - 1;
      OrderedUpTo(intakes, n, clock);
      OfOrdered(intakes[..n], since, clock);
      OrderedOn(Of(intakes[..n], since), intakes, n, clock);
      AmongMore(Of(intakes[..n], since), intakes, n);
    }
  }

  /** An attempt that is not armed yet has none. */
  lemma {:induction false} OfNone(intakes: seq<Intake>, since: nat)
    requires forall i :: 0 <= i < |intakes| ==> intakes[i].since < since
    ensures Of(intakes, since) == []
  {
    if intakes != [] {
      OfNone(intakes[..|intakes| - 1], since);
    }
  }

  // --------------------------------------------------------------- each step

  /** Steps that take nothing in: what they put into memory, on disk and on its way was
      confirmed before, or is a new attempt. */
  predicate Known(w: World, a: Attempt) {
    || (w.m.memory == Some(a) && w.m.phase != Stopped) || w.m.disk == Some(a)
    || (w.m.phase.Sending? && w.m.phase.report == Ended(a))
    || (a.since == w.m.made && a.confirmations == 0 && a.outcome.None?)
  }

  lemma KnownConfirmed(w: World, a: Attempt)
    requires Timed(w) && Known(w, a)
    ensures Confirmed(a, w.intakes)
  {
    if a.since == w.m.made {
      OfNone(w.intakes, a.since);
    }
  }

  lemma QuietTimed(w: World, next: World)
    requires Timed(w) && next.intakes == w.intakes && next.clock >= w.clock && next.m.made >= w.m.made
    requires next.m.memory.Some? && next.m.phase != Stopped ==> Known(w, next.m.memory.value)
    requires next.m.disk.Some? ==> Known(w, next.m.disk.value)
    requires next.m.phase.Sending? && next.m.phase.report.Ended? ==> Known(w, next.m.phase.report.attempt)
    requires next.log == w.log || (w.m.phase.Sending? && next.log == w.log + [w.m.phase.report])
    ensures Timed(next)
  {
    if next.m.memory.Some? && next.m.phase != Stopped {
      KnownConfirmed(w, next.m.memory.value);
    }
    if next.m.disk.Some? {
      KnownConfirmed(w, next.m.disk.value);
    }
    if next.m.phase.Sending? && next.m.phase.report.Ended? {
      KnownConfirmed(w, next.m.phase.report.attempt);
    }
    hide Confirmed, Known;
  }

  /** What was taken in for one attempt leaves every other as it was. */
  lemma OthersConfirmed(a: Attempt, intakes: seq<Intake>, intake: Intake)
    requires Confirmed(a, intakes) && (intake.since != a.since || !intake.counts)
    ensures Confirmed(a, intakes + [intake])
  {
    OfMore(intakes, intake, a.since);
  }

  lemma LogConfirmed(log: seq<Report>, intakes: seq<Intake>, intake: Intake)
    requires AllConfirmed(log, intakes)
    requires forall i :: 0 <= i < |log| && log[i].Ended? ==> log[i].attempt.since != intake.since || !intake.counts
    ensures AllConfirmed(log, intakes + [intake])
  {
    forall i | 0 <= i < |log| && log[i].Ended?
      ensures Confirmed(log[i].attempt, intakes + [intake])
    {
      OthersConfirmed(log[i].attempt, intakes, intake);
    }
  }

  lemma OrderedMore(intakes: seq<Intake>, clock: Time, intake: Intake)
    requires Ordered(intakes, clock) && clock <= intake.at <= intake.now
    ensures Ordered(intakes + [intake], intake.now)
  {
  }

  /** The attempt itself is confirmed once more. */
  lemma OnceMore(a: Attempt, o: Observation, now: Time, made: nat, intakes: seq<Intake>)
    requires Confirmed(a, intakes) && a.outcome.None? && o.address == a.address && now >= a.reconcileAt
    ensures var b := Judged(a, o, now, made);
            b.Some? && Confirmed(b.value, intakes + [Intake(a.since, o.at, now, true)])
  {
    OfMore(intakes, Intake(a.since, o.at, now, true), a.since);
  }

  lemma ArmTimed(w: World, command: Command, address: Address, started: Time, fate: Fate)
    requires Timed(w) && w.m.phase != Stopped
    ensures Timed(Next(w, ArmStep(command, address, started, fate)))
  {
    var next := Next(w, ArmStep(command, address, started, fate));
    assert next.intakes == w.intakes && next.clock == w.clock && next.log == w.log && next.m.phase == w.m.phase;
    hide Timed;
    QuietTimed(w, next);
  }

  lemma CancelTimed(w: World, command: Command, fate: Fate)
    requires Timed(w) && w.m.phase != Stopped
    ensures Timed(Next(w, CancelStep(command, fate)))
  {
    var next := Next(w, CancelStep(command, fate));
    assert next.intakes == w.intakes && next.clock == w.clock && next.log == w.log && next.m.phase == w.m.phase;
    hide Timed;
    QuietTimed(w, next);
  }

  lemma AckTimed(w: World, id: nat, fate: Fate)
    requires Timed(w) && w.m.phase != Stopped
    ensures Timed(Next(w, AckStep(id, fate)))
  {
    var next := Next(w, AckStep(id, fate));
    assert next.intakes == w.intakes && next.clock == w.clock && next.log == w.log && next.m.phase == w.m.phase;
    hide Timed;
    QuietTimed(w, next);
  }

  lemma BeginTimed(w: World, now: Time)
    requires Timed(w) && Enabled(w, BeginStep(now))
    requires w.m.family.pending.Some? ==> w.m.family.pending.value.Natural?
    ensures Timed(Next(w, BeginStep(now)))
  {
    hide Timed;
    QuietTimed(w, Next(w, BeginStep(now)));
  }

  /** A step that takes no observation in. */
  lemma OtherStep(w: World, step: Step)
    requires Inv(w) && Timed(w) && Enabled(w, step) && !step.TakeStep?
    ensures Timed(Next(w, step))
  {
    assert w.m.family.pending.Some? ==> w.m.family.pending.value.Natural?;
    hide Timed, Inv;
    match step
    case ArmStep(command, address, started, fate) => ArmTimed(w, command, address, started, fate);
    case CancelStep(command, fate) => CancelTimed(w, command, fate);
    case AckStep(id, fate) => AckTimed(w, id, fate);
    case BeginStep(now) => BeginTimed(w, now);
    case ReadyStep => QuietTimed(w, Next(w, step));
    case PublishStep => QuietTimed(w, Next(w, step));
    case CrashStep => QuietTimed(w, Next(w, step));
    case TakeStep(seen, now, fate) =>
  }

  /** An observation that failed, or is not of an attempt's old address. */
  lemma NothingIn(w: World, seen: Option<Observation>, now: Time, fate: Fate)
    requires Inv(w) && Timed(w) && Enabled(w, TakeStep(seen, now, fate))
    requires seen.None? || w.m.memory.None? || seen.value.address != w.m.memory.value.address
    ensures Timed(Next(w, TakeStep(seen, now, fate)))
  {
    var next := Next(w, TakeStep(seen, now, fate));
    assert next.intakes == w.intakes;
    if seen.Some? && w.m.memory.Some? {
      assert w.m.memory.value.outcome.None?;
      ChangedConfirmed(w.m.memory.value, seen.value, w.m.made, w.intakes);
      hide Confirmed, AllConfirmed, Ordered, Inv, Judged;
    } else {
      hide Inv, Timed, Judged;
      QuietTimed(w, next);
    }
  }

  lemma ChangedConfirmed(a: Attempt, o: Observation, made: nat, intakes: seq<Intake>)
    requires Confirmed(a, intakes) && a.outcome.None? && o.address != a.address
    ensures forall now :: Judged(a, o, now, made).Some? && Confirmed(Judged(a, o, now, made).value, intakes)
  {
  }

  /** The old address is taken in, and does not count: it is too early, or what it made
      of the attempt was not kept. */
  lemma UncountedIn(w: World, o: Observation, now: Time, fate: Fate)
    requires Inv(w) && Timed(w) && Enabled(w, TakeStep(Some(o), now, fate))
    requires w.m.memory.Some? && o.address == w.m.memory.value.address
    requires now < w.m.memory.value.reconcileAt || fate == KeptOld
    ensures Timed(Next(w, TakeStep(Some(o), now, fate)))
  {
    var a, next := w.m.memory.value, Next(w, TakeStep(Some(o), now, fate));
    var intake := Intake(a.since, o.at, now, false);
    assert next.intakes == w.intakes + [intake] && next.log == w.log && a.since < w.m.made;
    OrderedMore(w.intakes, w.clock, intake);
    LogConfirmed(w.log, w.intakes, intake);
    OthersConfirmed(a, w.intakes, intake);
    if w.m.disk.Some? {
      OthersConfirmed(w.m.disk.value, w.intakes, intake);
    }
    hide Inv, Confirmed, AllConfirmed, Ordered;
  }

  /** The old address is taken in and counts. */
  lemma CountedIn(w: World, o: Observation, now: Time, fate: Fate)
    requires Inv(w) && Timed(w) && Enabled(w, TakeStep(Some(o), now, fate))
    requires w.m.memory.Some? && o.address == w.m.memory.value.address
    requires now >= w.m.memory.value.reconcileAt && fate != KeptOld
    ensures Timed(Next(w, TakeStep(Some(o), now, fate)))
  {
    var a, next := w.m.memory.value, Next(w, TakeStep(Some(o), now, fate));
    var intake := Intake(a.since, o.at, now, true);
    assert next.intakes == w.intakes + [intake] && next.log == w.log && a.since < w.m.made && a.outcome.None?;
    OrderedMore(w.intakes, w.clock, intake);
    NonePublished(w, a, a);
    LogConfirmed(w.log, w.intakes, intake);
    OnceMore(a, o, now, w.m.made, w.intakes);
    var b := Judged(a, o, now, w.m.made).value;
    TakeShape(w, o, now, fate, b);
    hide Inv, Confirmed, AllConfirmed, Ordered, Judged, Next;
  }

  lemma StepTimed(w: World, step: Step)
    requires Inv(w) && Timed(w) && Enabled(w, step)
    ensures Timed(Next(w, step))
  {
    hide Inv, Timed, Next;
    if !step.TakeStep? {
      OtherStep(w, step);
    } else if step.seen.None? || w.m.memory.None? || step.seen.value.address != w.m.memory.value.address {
      NothingIn(w, step.seen, step.now, step.fate);
    } else if step.now < w.m.memory.value.reconcileAt || step.fate == KeptOld {
      UncountedIn(w, step.seen.value, step.now, step.fate);
    } else {
      CountedIn(w, step.seen.value, step.now, step.fate);
    }
  }

  lemma {:induction false} RunTimed(steps: seq<Step>)
    requires LegalRun(steps)
    ensures Inv(After(steps)) && Timed(After(steps))
  {
    RunInv(steps);
    if steps != [] {
      var n := |steps| - 1;
      RunTimed(steps[..n]);
      StepTimed(After(steps[..n]), steps[n]);
    }
  }

  // ------------------------------------------------------------- main results

  /** Made before a moment and taken in at or after it. */
  predicate Straddles(intake: Intake, from: Time) {
    intake.at < from <= intake.now
  }

  /** At most one observation of the old address straddles any one moment. */
  lemma OneStraddles(steps: seq<Step>, from: Time, i: nat, j: nat)
    requires LegalRun(steps) && i < |After(steps).intakes| && j < |After(steps).intakes|
    requires Straddles(After(steps).intakes[i], from) && Straddles(After(steps).intakes[j], from)
    ensures i == j
  {
    RunTimed(steps);
  }

  /** An attempt that ended unchanged rests on exactly two observations of its old
      address, one taken in before the other was made and both taken in at or after the
      grace. The one that decided was made at or after the grace, and is the outcome's. So
      both were exactly when the first was, that is, when no observation was on its way as
      the grace ended. */
  lemma UnchangedNeedsTwo(steps: seq<Step>, i: nat)
    requires LegalRun(steps) && i < |After(steps).log|
    requires var r := After(steps).log[i]; r.Ended? && r.attempt.outcome.Some? && !r.attempt.outcome.value.changed
    ensures var w := After(steps); var a := w.log[i].attempt; var mine := Of(w.intakes, a.since);
            && |mine| == 2 && mine[0] in w.intakes && mine[1] in w.intakes
            && a.reconcileAt <= mine[0].now <= mine[1].at <= mine[1].now
            && a.outcome.value.address == a.address && a.outcome.value.at == mine[1].at
            && (mine[0].at >= a.reconcileAt && mine[1].at >= a.reconcileAt <==> !Straddles(mine[0], a.reconcileAt))
  {
    RunTimed(steps);
    var w := After(steps);
    OfOrdered(w.intakes, w.log[i].attempt.since, w.clock);
    assert Confirmed(w.log[i].attempt, w.intakes);
  }

  /** The step takes an observation in that may have been made before the moment: the
      loop was observing as the clock passed it. */
  predicate Observed(w: World, step: Step, from: Time) {
    step.TakeStep? && w.m.phase == Observing && w.clock < from <= step.now
  }

  /** What straddles a moment was being observed as the clock passed it. */
  lemma {:induction false} StraddlesObserving(steps: seq<Step>, intake: Intake, from: Time)
    requires LegalRun(steps) && intake in After(steps).intakes && Straddles(intake, from)
    ensures exists j :: 0 <= j < |steps| && Observed(After(steps[..j]), steps[j], from)
  {
    var n := |steps| - 1;
    var before := After(steps[..n]);
    if intake in before.intakes {
      StraddlesObserving(steps[..n], intake, from);
      var j :| 0 <= j < n && Observed(After(steps[..n][..j]), steps[..n][j], from);
      assert steps[..n][..j] == steps[..j] && steps[..n][j] == steps[j];
    } else {
      assert Observed(before, steps[n], from);
    }
  }

  /** If the loop was not observing as the clock passed the grace of an attempt that ended
      unchanged, both observations of its old address were made in time. */
  lemma UnchangedInTime(steps: seq<Step>, i: nat)
    requires LegalRun(steps) && i < |After(steps).log|
    requires var r := After(steps).log[i]; r.Ended? && r.attempt.outcome.Some? && !r.attempt.outcome.value.changed
    requires forall j :: 0 <= j < |steps| ==>
               !Observed(After(steps[..j]), steps[j], After(steps).log[i].attempt.reconcileAt)
    ensures var a := After(steps).log[i].attempt; var mine := Of(After(steps).intakes, a.since);
            |mine| == 2 && mine[0].at >= a.reconcileAt && mine[1].at >= a.reconcileAt
  {
    UnchangedNeedsTwo(steps, i);
    var a := After(steps).log[i].attempt;
    var first := Of(After(steps).intakes, a.since)[0];
    if Straddles(first, a.reconcileAt) {
      StraddlesObserving(steps, first, a.reconcileAt);
    }
    hide After, LegalRun, Of, Observed;
  }

  // ------------------------------------- one observation on its way as the grace ends

  const HERE := Address(true, 7)
  const CHANGE := Command(true, 1)

  const BEFORE := [] + [BeginStep(1)] + [TakeStep(Some(Observation(HERE, 1)), 1, Saved)] + [PublishStep]
      + [AckStep(0, Saved)]
  const ARMED := BEFORE + [ArmStep(CHANGE, HERE, 1, Saved)]
  const EARLY := ARMED + [BeginStep(100)] + [TakeStep(Some(Observation(HERE, 110)), 121, Saved)]
  const ENDED := EARLY + [BeginStep(122)] + [TakeStep(Some(Observation(HERE, 122)), 123, Saved)] + [PublishStep]

  const REPORTED := Natural(0, HERE, 1)
  const SETTLED := Family(Some(HERE), None, false)
  const OPEN := Attempt(CHANGE, HERE, 121, 0, None, 1)
  const ONCE := OPEN.(confirmations := 1)
  const UNCHANGED := OPEN.(confirmations := 2, outcome := Some(Outcome(3, false, HERE, 122)))

  lemma RunOn(steps: seq<Step>, w: World, step: Step)
    requires LegalRun(steps) && After(steps) == w && Enabled(w, step)
    ensures LegalRun(steps + [step]) && After(steps + [step]) == Next(w, step)
  {
    assert (steps + [step])[..|steps|] == steps;
  }

  lemma RunBefore()
    ensures LegalRun(BEFORE) && After(BEFORE) == World(Monitor(None, None, SETTLED, Idle, 1), [REPORTED], [], 1)
  {
    var s1 := [] + [BeginStep(1)];
    var s2 := s1 + [TakeStep(Some(Observation(HERE, 1)), 1, Saved)];
    var s3 := s2 + [PublishStep];
    RunOn([], START, BeginStep(1));
    var w1 := World(Monitor(None, None, Family(None, None, true), Observing, 0), [], [], 1);
    RunOn(s1, w1, TakeStep(Some(Observation(HERE, 1)), 1, Saved));
    var w2 := World(Monitor(None, None, Family(None, Some(REPORTED), false), Sending(REPORTED), 1), [], [], 1);
    RunOn(s2, w2, PublishStep);
    var w3 := World(Monitor(None, None, Family(None, Some(REPORTED), false), Idle, 1), [REPORTED], [], 1);
    assert IdOf(w3.log[0]) == 0;
    RunOn(s3, w3, AckStep(0, Saved));
  }

  lemma RunArmed()
    ensures LegalRun(ARMED)
    ensures After(ARMED) == World(Monitor(Some(OPEN), Some(OPEN), SETTLED, Idle, 2), [REPORTED], [], 1)
  {
    RunBefore();
    hide BEFORE;
    RunOn(BEFORE, World(Monitor(None, None, SETTLED, Idle, 1), [REPORTED], [], 1), ArmStep(CHANGE, HERE, 1, Saved));
  }

  lemma RunEarly()
    ensures LegalRun(EARLY)
    ensures After(EARLY) == World(Monitor(Some(ONCE), Some(ONCE), SETTLED, Idle, 3), [REPORTED],
              [Intake(1, 110, 121, true)], 121)
  {
    RunArmed();
    hide ARMED;
    var w1 := World(Monitor(Some(OPEN), Some(OPEN), SETTLED, Idle, 2), [REPORTED], [], 1);
    RunOn(ARMED, w1, BeginStep(100));
    RunOn(ARMED + [BeginStep(100)], w1.(m := w1.m.(phase := Observing), clock := 100),
        TakeStep(Some(Observation(HERE, 110)), 121, Saved));
  }

  const BOTH := [Intake(1, 110, 121, true), Intake(1, 122, 123, true)]

  lemma RunEnded()
    ensures LegalRun(ENDED)
    ensures After(ENDED) ==
            World(Monitor(Some(UNCHANGED), Some(UNCHANGED), SETTLED, Idle, 4), [REPORTED] + [Ended(UNCHANGED)], BOTH,
                123)
  {
    RunEarly();
    hide EARLY;
    var w1 := World(Monitor(Some(ONCE), Some(ONCE), SETTLED, Idle, 3), [REPORTED], [Intake(1, 110, 121, true)], 121);
    RunOn(EARLY, w1, BeginStep(122));
    var w2 := w1.(m := w1.m.(phase := Observing), clock := 122);
    var take := TakeStep(Some(Observation(HERE, 122)), 123, Saved);
    var w3 := World(Monitor(Some(UNCHANGED), Some(UNCHANGED), SETTLED, Sending(Ended(UNCHANGED)), 4), [REPORTED],
        BOTH, 123);
    DecidingStep();
    RunOn(EARLY + [BeginStep(122)], w2, take);
    RunOn(EARLY + [BeginStep(122)] + [take], w3, PublishStep);
  }

  lemma DecidingStep()
    ensures var w := World(Monitor(Some(ONCE), Some(ONCE), SETTLED, Observing, 3), [REPORTED],
              [Intake(1, 110, 121, true)], 122);
            Next(w, TakeStep(Some(Observation(HERE, 122)), 123, Saved)) ==
            World(Monitor(Some(UNCHANGED), Some(UNCHANGED), SETTLED, Sending(Ended(UNCHANGED)), 4), [REPORTED], BOTH,
                123)
  {
    assert [Intake(1, 110, 121, true)] + [Intake(1, 122, 123, true)] == BOTH;
  }

  lemma BothCount()
    ensures Of(BOTH, 1) == BOTH
  {
    assert BOTH[..1] == [BOTH[0]] && BOTH[..1][..0] == [];
    assert Of(BOTH[..1][..0], 1) == [];
    assert Of(BOTH[..1], 1) == [BOTH[0]];
  }

  /** The grace ends at 121. An observation made at 110 is taken in then, counts, and
      helps to settle the attempt as unchanged. */
  lemma EarlyObservationCounts()
    ensures LegalRun(ENDED) && After(ENDED).log == [REPORTED] + [Ended(UNCHANGED)]
    ensures Of(After(ENDED).intakes, UNCHANGED.since) == BOTH && Straddles(BOTH[0], UNCHANGED.reconcileAt)
  {
    RunEnded();
    BothCount();
    hide ENDED, After, LegalRun, Of;
  }
}
