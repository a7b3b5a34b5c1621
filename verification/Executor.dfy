/** Executions as they interleave: each lock-held section is one step, a crash may
    come between any two, and a failed save leaves either version of the file. */
module OperationExecutor {
  import opened Common
  import opened OperationJournal

  datatype Offer = Offer(id: string, kind: string, group: string)

  /** Where one execution is. */
  datatype Phase =
    | Entered                    // registered, the history not looked at yet
    | Looked                     // not in the history
    | Blocked                    // the group was busy
    | Freed                      // what held the group was finished
    | Refused(why: Began)        // it cannot begin
    | Executing                  // the handler runs it
    | Over(result: Result)       // it ran, or was recovered: to be finished
    | Leaving                    // nothing left to do but to leave

  datatype Execution = Execution(offer: Offer, phase: Phase)

  /** ran is, for each command the handler ever ran, the other commands whose end
      reached the journal since it ran last. */
  datatype System = System(journal: Journal, running: map<string, Execution>, ran: map<string, set<string>>)

  datatype Step =
    | Enter(offer: Offer)
    | Look(id: string)
    | Try(id: string, now: Time, fate: Fate)
    | Release(id: string, result: Result, now: Time, fate: Fate)
    | Settle(id: string, result: Result)
    | Stop(id: string, result: Result)
    | Close(id: string, now: Time, fate: Fate)
    | Leave(id: string)
    | Crash

  function Start(disk: Option<Snapshot>): System {
    System(Journal(if disk.Some? then disk.value else EMPTY, disk), map[], map[])
  }

  function At(sys: System, id: string, phase: Phase): System
    requires id in sys.running
  {
    sys.(running := sys.running[id := sys.running[id].(phase := phase)])
  }

  /** The end of a command reached the journal: every other one that ran knows. */
  function Noted(ran: map<string, set<string>>, ended: string): map<string, set<string>> {
    map id | id in ran :: if id == ended then ran[id] else ran[id] + {ended}
  }

  function FinishIn(sys: System, id: string, result: Result, now: Time, limit: nat, fate: Fate): (System, Ending)
    requires Distinct(sys.journal.memory)
  {
    var status := if result.outcome == Succeeded || result.outcome == Cancelled then result.outcome else Failed;
    var (journal, ending) := Finish(sys.journal, id, status, result.code, Some(result), now, limit, fate);
    (sys.(journal := journal, ran := if ending == Finished
        || (ending == NotKept && fate == KeptNew) then Noted(sys.ran, id) else sys.ran),
     ending)
  }

  predicate Enabled(sys: System, step: Step) {
    match step
    case Enter(offer) => offer.id !in sys.running
    case Look(id) => id in sys.running && sys.running[id].phase == Entered
    case Try(id, now, fate) => id in sys.running && sys.running[id].phase in {Looked, Freed} && now != 0
    case Release(id, result, now, fate) => id in sys.running && sys.running[id].phase == Blocked
    case Settle(id, result) => id in sys.running && sys.running[id].phase.Refused?
    case Stop(id, result) => id in sys.running && sys.running[id].phase == Executing
    case Close(id, now, fate) => id in sys.running && sys.running[id].phase.Over?
    case Leave(id) => id in sys.running && sys.running[id].phase == Leaving
    case Crash => true
  }

  function Next(sys: System, step: Step, limit: nat): System
    requires Enabled(sys, step) && Distinct(sys.journal.memory)
  {
    match step
    case Enter(offer) => sys.(running := sys.running[offer.id := Execution(offer, Entered)])
    case Look(id) => At(sys, id, if InRecent(sys.journal.memory, id) then Leaving else Looked)
    case Try(id, now, fate) =>
      var e := sys.running[id];
      var (journal, began) := Begin(sys.journal, id, e.offer.kind, e.offer.group, now, fate);
      var next := sys.(journal := journal);
      if began == Started then At(next.(ran := sys.ran[id := {}]), id, Executing)
      else At(next, id, if began == Conflict && e.phase == Looked then Blocked else Refused(began))
    case Release(id, result, now, fate) =>
      var e := sys.running[id];
      if Leftover(sys, e.offer) then
        var (next, ending) := FinishIn(sys, sys.journal.memory.active[e.offer.group].id, result, now, limit, fate);
        At(next, id, if ending == Finished then Freed else Refused(Conflict))
      else At(sys, id, Refused(Conflict))
    case Settle(id, result) => At(sys, id, if Interrupted(sys, sys.running[id].offer) then Over(result) else Leaving)
    case Stop(id, result) => At(sys, id, Over(result))
    case Close(id, now, fate) => At(FinishIn(sys, id, sys.running[id].phase.result, now, limit, fate).0, id, Leaving)
    case Leave(id) => sys.(running := sys.running - {id})
    case Crash => Start(sys.journal.disk).(ran := sys.ran)
  }

  /** The group is held by a command of the kind that no live execution owns. */
  predicate Leftover(sys: System, offer: Offer) {
    && offer.group in sys.journal.memory.active
    && sys.journal.memory.active[offer.group].id !in sys.running
    && sys.journal.memory.active[offer.group].kind == offer.kind
  }

  /** The command itself is active in the journal, as it was offered. */
  predicate Interrupted(sys: System, offer: Offer) {
    exists g :: g in sys.journal.memory.active && sys.journal.memory.active[g].id == offer.id
                && sys.journal.memory.active[g].kind == offer.kind && sys.journal.memory.active[g].group == offer.group
  }

  // --------------------------------------------------------------- invariant

  /** Every record of the history after the command's is one of these. */
  predicate AfterOnly(s: Snapshot, id: string, since: set<string>) {
    forall i, j :: 0 <= i < j < |s.recent| && s.recent[i].id == id ==> s.recent[j].id in since
  }

  /** A version of the journal still knows a command that ran, or has forgotten it
      behind as many others as the history holds. */
  predicate Knows(s: Snapshot, id: string, since: set<string>, limit: nat) {
    (Holds(s, id) && AfterOnly(s, id, since)) || |since| >= limit
  }

  /** An execution past its beginning owns the group it is in. */
  predicate Owns(sys: System, id: string)
    requires id in sys.running
  {
    var e := sys.running[id];
    id == e.offer.id && (e.phase == Executing || e.phase.Over? ==>
      e.offer.group in sys.journal.memory.active && sys.journal.memory.active[e.offer.group].id == id)
  }

  /** A version of the journal knows every command that ran. */
  predicate KnowsAll(s: Snapshot, ran: map<string, set<string>>, limit: nat) {
    Valid(s) && forall id :: id in ran ==> Knows(s, id, ran[id], limit)
  }

  /** Both versions of the journal do. */
  predicate Remembers(j: Journal, ran: map<string, set<string>>, limit: nat) {
    && KnowsAll(j.memory, ran, limit)
    && (j.disk.Some? ==> KnowsAll(j.disk.value, ran, limit))
    && (j.disk.None? ==> ran == map[])
    && (forall id :: id in ran ==> id !in ran[id])
  }

  predicate Inv(sys: System, limit: nat) {
    Remembers(sys.journal, sys.ran, limit) && forall id :: id in sys.running ==> Owns(sys, id)
  }

  lemma KnowsMore(s: Snapshot, id: string, a: set<string>, b: set<string>, limit: nat)
    requires Knows(s, id, a, limit) && a <= b
    ensures Knows(s, id, b, limit)
  {
    if |a| >= limit {
      SubsetSize(a, b);
    }
  }

  lemma BeginKnows(s: Snapshot, id: string, kind: string, group: string, now: Time, other: string, since: set<string>,
                   limit: nat)
    requires Valid(s) && Knows(s, other, since, limit) && group !in s.active
    ensures Knows(WithActive(s, id, kind, group, now), other, since, limit)
  {
    var next := WithActive(s, id, kind, group, now);
    if Holds(s, other) && InActive(s, other) {
      var g :| g in s.active && s.active[g].id == other;
      assert g in next.active && next.active[g].id == other;
    }
  }

  /** Ending one command, every other that ran is still known, or enough ended since. */
  lemma EndKnows(s: Snapshot, group: string, status: Status, code: string, result: Option<Result>, now: Time,
                 limit: nat,
                 other: string, since: set<string>)
    requires Valid(s) && group in s.active && s.active[group].id != other
    requires Knows(s, other, since, limit) && other !in since && 1 <= limit
    ensures Knows(Ended(s, group, status, code, result, now, limit), other, since + {s.active[group].id}, limit)
  {
    var next := Ended(s, group, status, code, result, now, limit);
    var more := since + {s.active[group].id};
    if |since| >= limit {
      SubsetSize(since, more);
    } else if InActive(s, other) {
      var g :| g in s.active && s.active[g].id == other;
      assert g in next.active && next.active[g].id == other;
      NotRecent(s, group, status, code, result, now, limit, g);
    } else {
      var i :| 0 <= i < |s.recent| && s.recent[i].id == other;
      EndKeepsRecent(s, group, status, code, result, now, limit, other, since, i);
    }
  }

  lemma NotRecent(s: Snapshot, group: string, status: Status, code: string, result: Option<Result>, now: Time,
                  limit: nat, g: string)
    requires Valid(s) && group in s.active && g in s.active && g != group
    ensures forall i :: 0 <= i < |Ended(s, group, status, code, result, now, limit).recent| ==>
              Ended(s, group, status, code, result, now, limit).recent[i].id != s.active[g].id
  {
    var record := s.active[group].(status := status, finished := Some(now), code := code, result := result);
    EndedDistinct(s, group, record, limit);
    var next := Ended(s, group, status, code, result, now, limit);
    assert g in next.active && next.active[g] == s.active[g];
    hide Valid, Trimmed, OncePerGroup, OnceEach;
  }

  lemma EndKeepsRecent(s: Snapshot, group: string, status: Status, code: string, result: Option<Result>, now: Time,
                       limit: nat,
                       other: string, since: set<string>, i: nat)
    requires Valid(s) && group in s.active && s.active[group].id != other && 1 <= limit
    requires i < |s.recent| && s.recent[i].id == other && AfterOnly(s, other, since)
    ensures Knows(Ended(s, group, status, code, result, now, limit), other, since + {s.active[group].id}, limit)
  {
    var record := s.active[group].(status := status, finished := Some(now), code := code, result := result);
    var all := s.recent + [record];
    AllDistinct(s, group, record);
    assert forall j :: i < j < |all| ==> all[j].id in since + {record.id};
    hide Valid, AfterOnly;
    TrimKnows(s.(active := s.active - {group}, recent := Trimmed(all, limit)), all, limit, other, since + {record.id},
        i);
  }

  /** A record that is trimmed off has as many newer ones as the history holds. */
  lemma TrimKnows(next: Snapshot, all: seq<Record>, limit: nat, id: string, since: set<string>, i: nat)
    requires next.recent == Trimmed(all, limit) && i < |all| && all[i].id == id && OnceEach(all)
    requires forall k :: i < k < |all| ==> all[k].id in since
    ensures Knows(next, id, since, limit)
  {
    TrimmedPart(all, limit);
    var cut := |all| - |next.recent|;
    if i >= cut {
      hide Trimmed;
      assert next.recent[i - cut].id == id;
      forall k, m | 0 <= k < m < |next.recent| && next.recent[k].id == id
        ensures next.recent[m].id in since
      {
        assert all[cut + k].id == id;
        assert cut + k == i;
      }
    } else {
      assert forall k :: 0 <= k < |all[cut..]| ==> all[cut..][k] == all[cut + k];
      DistinctIn(seq(|all| - cut, k requires 0 <= k < |all| - cut => all[cut + k].id), since);
    }
  }

  /** The command just ended is the newest of the history. */
  lemma EndedKnown(s: Snapshot, group: string, status: Status, code: string, result: Option<Result>, now: Time,
                   limit: nat, since: set<string>)
    requires Valid(s) && group in s.active && 1 <= limit
    ensures Knows(Ended(s, group, status, code, result, now, limit), s.active[group].id, since, limit)
  {
    var all := s.recent + [s.active[group].(status := status, finished := Some(now), code := code, result := result)];
    TrimmedPart(all, limit);
    var next := Ended(s, group, status, code, result, now, limit);
    assert next.recent[|next.recent| - 1].id == s.active[group].id;
    assert forall i :: 0 <= i < |s.recent| ==> s.recent[i].id != s.active[group].id;
  }

  // --------------------------------------------------------------- each step

  /** Whatever becomes of a save, both versions know what both candidates knew. */
  lemma SaveRemembers(j: Journal, next: Snapshot, fate: Fate, ran: map<string, set<string>>, limit: nat)
    requires Remembers(j, ran, limit) && KnowsAll(next, ran, limit)
    ensures Remembers(Save(j, next, fate), ran, limit)
  {
  }

  lemma BeginKnowsAll(s: Snapshot, id: string, kind: string, group: string, now: Time, ran: map<string, set<string>>,
                      limit: nat)
    requires KnowsAll(s, ran, limit) && Refusal(s, id, kind, group).None? && now != 0
    ensures KnowsAll(WithActive(s, id, kind, group, now), ran, limit)
    ensures KnowsAll(WithActive(s, id, kind, group, now), ran[id := {}], limit)
  {
    var next := WithActive(s, id, kind, group, now);
    BeginValid(Journal(s, None), id, kind, group, now, Saved);
    forall other | other in ran
      ensures Knows(next, other, ran[other], limit)
    {
      BeginKnows(s, id, kind, group, now, other, ran[other], limit);
    }
    assert next.active[group].id == id;
    assert !InRecent(next, id);
  }

  lemma TryRemembers(sys: System, id: string, now: Time, fate: Fate, limit: nat)
    requires Inv(sys, limit) && Enabled(sys, Try(id, now, fate))
    ensures var next := Next(sys, Try(id, now, fate), limit); Remembers(next.journal, next.ran, limit)
  {
    var offer := sys.running[id].offer;
    if Refusal(sys.journal.memory, id, offer.kind, offer.group).None? {
      BeginKnowsAll(sys.journal.memory, id, offer.kind, offer.group, now, sys.ran, limit);
      hide KnowsAll;
      SaveRemembers(sys.journal, WithActive(sys.journal.memory, id, offer.kind, offer.group, now), fate, sys.ran,
          limit);
    }
  }

  lemma TryInv(sys: System, id: string, now: Time, fate: Fate, limit: nat)
    requires Inv(sys, limit) && Enabled(sys, Try(id, now, fate))
    ensures Inv(Next(sys, Try(id, now, fate), limit), limit)
  {
    TryRemembers(sys, id, now, fate, limit);
    TryOwns(sys, id, now, fate, limit);
    hide Remembers, Next, Owns;
  }

  lemma TryOwns(sys: System, id: string, now: Time, fate: Fate, limit: nat)
    requires Inv(sys, limit) && Enabled(sys, Try(id, now, fate))
    ensures var next := Next(sys, Try(id, now, fate), limit); forall other :: other in next.running ==>
              Owns(next, other)
  {
    assert Distinct(sys.journal.memory);
    hide Remembers;
    var offer := sys.running[id].offer;
    BeginActive(sys.journal, id, offer.kind, offer.group, now, fate);
    hide Begin, Distinct;
    var next := Next(sys, Try(id, now, fate), limit);
    forall other | other in next.running
      ensures Owns(next, other)
    {
      assert Owns(sys, other);
    }
  }

  /** Only a group that was free is taken, and only by a command that begins. */
  lemma BeginActive(j: Journal, id: string, kind: string, group: string, now: Time, fate: Fate)
    ensures var (next, began) := Begin(j, id, kind, group, now, fate);
            if began == Started
            then group !in j.memory.active
                 && next.memory.active == j.memory.active[group := Record(id, kind, group, Running, now, None, "",
                     None)]
            else next.memory == j.memory
  {
  }

  lemma EndKnowsAll(s: Snapshot, id: string, status: Status, code: string, result: Option<Result>, now: Time,
                    limit: nat,
                    ran: map<string, set<string>>)
    requires KnowsAll(s, ran, limit) && 1 <= limit && InActive(s, id) && GoodEnding(status, code, result)
    requires forall other :: other in ran ==> other !in ran[other]
    ensures KnowsAll(Ended(s, GroupOf(s, id), status, code, result, now, limit), Noted(ran, id), limit)
    ensures KnowsAll(s, Noted(ran, id), limit)
  {
    var group := GroupOf(s, id);
    EndedValid(s, group, status, code, result, now, limit);
    var ended := Ended(s, group, status, code, result, now, limit);
    forall other | other in ran
      ensures Knows(ended, other, Noted(ran, id)[other], limit)
      ensures Knows(s, other, Noted(ran, id)[other], limit)
    {
      hide Ended, Knows;
      if other == id {
        EndedKnown(s, group, status, code, result, now, limit, ran[id]);
      } else {
        EndKnows(s, group, status, code, result, now, limit, other, ran[other]);
        KnowsMore(s, other, ran[other], Noted(ran, id)[other], limit);
      }
    }
  }

  /** What both versions of the journal know once an end reached one of them. */
  lemma EndRemembers(j: Journal, id: string, status: Status, code: string, result: Option<Result>, now: Time,
                     fate: Fate,
                     limit: nat, ran: map<string, set<string>>)
    requires Remembers(j, ran, limit) && 1 <= limit && InActive(j.memory, id) && GoodEnding(status, code, result)
    ensures Remembers(Save(j, Ended(j.memory, GroupOf(j.memory, id), status, code, result, now, limit), fate),
              Noted(ran, id), limit)
  {
    NotedRemembers(j, id, ran, limit);
    EndKnowsAll(j.memory, id, status, code, result, now, limit, ran);
    hide KnowsAll, Ended, Noted, Remembers;
    SaveRemembers(j, Ended(j.memory, GroupOf(j.memory, id), status, code, result, now, limit), fate, Noted(ran, id),
        limit);
  }

  lemma NotedRemembers(j: Journal, id: string, ran: map<string, set<string>>, limit: nat)
    requires Remembers(j, ran, limit)
    ensures Remembers(j, Noted(ran, id), limit)
  {
    NotedKnows(j.memory, id, ran, limit);
    if j.disk.Some? {
      NotedKnows(j.disk.value, id, ran, limit);
    }
    hide KnowsAll;
  }

  lemma FinishInv(sys: System, id: string, result: Result, now: Time, fate: Fate, limit: nat)
    requires Inv(sys, limit) && 1 <= limit
    ensures var next := FinishIn(sys, id, result, now, limit, fate).0; Remembers(next.journal, next.ran, limit)
  {
    var status := if result.outcome == Succeeded || result.outcome == Cancelled then result.outcome else Failed;
    if GoodEnding(status, result.code, Some(result)) && InActive(sys.journal.memory, id) && fate != KeptOld {
      EndRemembers(sys.journal, id, status, result.code, Some(result), now, fate, limit, sys.ran);
    }
    hide KnowsAll, Ended, InActive, GoodEnding, Noted, Remembers, Owns;
  }

  lemma NotedKnows(s: Snapshot, id: string, ran: map<string, set<string>>, limit: nat)
    requires KnowsAll(s, ran, limit)
    ensures KnowsAll(s, Noted(ran, id), limit)
  {
    forall other | other in ran
      ensures Knows(s, other, Noted(ran, id)[other], limit)
    {
      KnowsMore(s, other, ran[other], Noted(ran, id)[other], limit);
    }
  }

  /** Ending a command leaves every other group to whom it was. */
  lemma FinishOwns(sys: System, id: string, result: Result, now: Time, fate: Fate, limit: nat, other: string)
    requires Inv(sys, limit) && other in sys.running && other != id
    ensures Owns(FinishIn(sys, id, result, now, limit, fate).0, other)
  {
    assert Owns(sys, other);
  }

  lemma ReleaseInv(sys: System, id: string, result: Result, now: Time, fate: Fate, limit: nat)
    requires Inv(sys, limit) && Enabled(sys, Release(id, result, now, fate)) && 1 <= limit
    ensures Inv(Next(sys, Release(id, result, now, fate), limit), limit)
  {
    var next := Next(sys, Release(id, result, now, fate), limit);
    if Leftover(sys, sys.running[id].offer) {
      var left := sys.journal.memory.active[sys.running[id].offer.group].id;
      FinishInv(sys, left, result, now, fate, limit);
      forall other | other in next.running
        ensures Owns(next, other)
      {
        FinishOwns(sys, left, result, now, fate, limit, other);
      }
    } else {
      forall other | other in next.running
        ensures Owns(next, other)
      {
        assert Owns(sys, other);
      }
    }
  }

  lemma CloseInv(sys: System, id: string, now: Time, fate: Fate, limit: nat)
    requires Inv(sys, limit) && Enabled(sys, Close(id, now, fate)) && 1 <= limit
    ensures Inv(Next(sys, Close(id, now, fate), limit), limit)
  {
    var result := sys.running[id].phase.result;
    FinishInv(sys, id, result, now, fate, limit);
    var next := Next(sys, Close(id, now, fate), limit);
    forall other | other in next.running
      ensures Owns(next, other)
    {
      assert Owns(sys, other);
      if other != id {
        FinishOwns(sys, id, result, now, fate, limit, other);
      }
    }
  }

  lemma StepInv(sys: System, step: Step, limit: nat)
    requires Inv(sys, limit) && Enabled(sys, step) && 1 <= limit
    ensures Inv(Next(sys, step, limit), limit)
  {
    match step
    case Try(id, now, fate) => TryInv(sys, id, now, fate, limit);
    case Release(id, result, now, fate) => ReleaseInv(sys, id, result, now, fate, limit);
    case Close(id, now, fate) => CloseInv(sys, id, now, fate, limit);
    case Enter(offer) => QuietInv(sys, step, limit);
    case Look(id) => QuietInv(sys, step, limit);
    case Settle(id, result) => QuietInv(sys, step, limit);
    case Stop(id, result) => QuietInv(sys, step, limit);
    case Leave(id) => QuietInv(sys, step, limit);
    case Crash => QuietInv(sys, step, limit);
  }

  /** The steps that leave the journal alone, and the crash. */
  lemma QuietInv(sys: System, step: Step, limit: nat)
    requires Inv(sys, limit) && Enabled(sys, step)
    requires !step.Try? && !step.Release? && !step.Close?
    ensures Inv(Next(sys, step, limit), limit)
  {
    var next := Next(sys, step, limit);
    forall other | other in next.running
      ensures Owns(next, other)
    {
      if other in sys.running {
        assert Owns(sys, other);
      }
    }
  }

  // -------------------------------------------------------------------- runs

  /** The system after a run of steps from a state file. */
  function After(disk: Option<Snapshot>, steps: seq<Step>, limit: nat): System {
    if steps == [] then Start(disk)
    else
      var n := |steps| - 1;
      var before := After(disk, steps[..n], limit);
      if Enabled(before, steps[n]) && Distinct(before.journal.memory) then Next(before, steps[n], limit) else before
  }

  predicate LegalRun(disk: Option<Snapshot>, steps: seq<Step>, limit: nat) {
    steps == [] ||
    (LegalRun(disk, steps[..|steps| - 1], limit)
        && Enabled(After(disk, steps[..|steps| - 1], limit), steps[|steps| - 1]))
  }

  /** The start is always such a state. */
  lemma StartInv(disk: Option<Snapshot>, limit: nat)
    requires disk.Some? ==> Valid(disk.value)
    ensures Inv(Start(disk), limit)
  {
  }

  lemma {:induction false} RunInv(disk: Option<Snapshot>, steps: seq<Step>, limit: nat)
    requires 1 <= limit && (disk.Some? ==> Valid(disk.value)) && LegalRun(disk, steps, limit)
    ensures Inv(After(disk, steps, limit), limit)
  {
    if steps == [] {
      StartInv(disk, limit);
    } else {
      var n := |steps| - 1;
      RunInv(disk, steps[..n], limit);
      StepInv(After(disk, steps[..n], limit), steps[n], limit);
    }
  }

  /** A step by which the handler begins to run a command. */
  predicate Runs(sys: System, step: Step, limit: nat, id: string) {
    && Enabled(sys, step) && Distinct(sys.journal.memory)
    && step.Try? && step.id == id && Next(sys, step, limit).running[id].phase == Executing
  }

  /** Over every run from any state file, with crashes and failed saves anywhere: a
      command that ran before is run again only after the end of at least as many
      other commands as the history holds reached the journal. */
  lemma {:induction false} AtMostOnce(disk: Option<Snapshot>, steps: seq<Step>, step: Step, limit: nat, id: string)
    requires 1 <= limit && (disk.Some? ==> Valid(disk.value)) && LegalRun(disk, steps, limit)
    requires Runs(After(disk, steps, limit), step, limit, id)
    ensures var sys := After(disk, steps, limit);
            id in sys.ran ==> |sys.ran[id]| >= limit && id !in sys.ran[id]
  {
    RunInv(disk, steps, limit);
    assert !Holds(After(disk, steps, limit).journal.memory, id);
  }

  /** A command the journal has as active or ended is not run: one that is active
      without a live execution, as after a restart, is recovered when offered as it
      was, and one that ended is only replayed. */
  lemma {:induction false} KnownIsNotRun(disk: Option<Snapshot>, steps: seq<Step>, step: Step, limit: nat, id: string)
    requires 1 <= limit && (disk.Some? ==> Valid(disk.value)) && LegalRun(disk, steps, limit)
    requires Enabled(After(disk, steps, limit), step) && Holds(After(disk, steps, limit).journal.memory, id)
    ensures var sys := After(disk, steps, limit); Distinct(sys.journal.memory) && NotRun(sys, step, limit, id)
  {
    RunInv(disk, steps, limit);
    var sys := After(disk, steps, limit);
    assert Distinct(sys.journal.memory);
    hide *;
    KnownStep(sys, step, limit, id);
  }

  predicate NotRun(sys: System, step: Step, limit: nat, id: string)
    requires Enabled(sys, step) && Distinct(sys.journal.memory)
  {
    && !Runs(sys, step, limit, id)
    && (step == Look(id) && InRecent(sys.journal.memory, id) ==> Next(sys, step, limit) == At(sys, id, Leaving))
    && (step.Settle? && step.id == id && Interrupted(sys, sys.running[id].offer) ==>
          Next(sys, step, limit).running[id].phase == Over(step.result))
    && (step.Try? && step.id == id ==> Next(sys, step, limit).journal == sys.journal)
  }

  lemma KnownStep(sys: System, step: Step, limit: nat, id: string)
    requires Enabled(sys, step) && Distinct(sys.journal.memory) && Holds(sys.journal.memory, id)
    ensures NotRun(sys, step, limit, id)
  {
    if step.Try? && step.id == id {
      assert Refusal(sys.journal.memory, id, sys.running[id].offer.kind, sys.running[id].offer.group).Some?;
    }
    hide Distinct, Holds, Stable, Save, WithActive, FinishIn;
  }

  /** A command that ran stays known until it is evicted by the ends of others,
      whatever crashes: a restart reads it back. */
  lemma {:induction false} RestartKnows(disk: Option<Snapshot>, steps: seq<Step>, limit: nat, id: string)
    requires 1 <= limit && (disk.Some? ==> Valid(disk.value)) && LegalRun(disk, steps, limit)
    requires var sys := After(disk, steps, limit); id in sys.ran && |sys.ran[id]| < limit
    ensures var sys := After(disk, steps, limit);
            Distinct(sys.journal.memory) && Holds(sys.journal.memory, id)
                && Holds(Next(sys, Crash, limit).journal.memory, id)
  {
    RunInv(disk, steps, limit);
  }

  /** A live execution past its beginning. */
  predicate Live(sys: System, id: string) {
    id in sys.running && (sys.running[id].phase == Executing || sys.running[id].phase.Over?)
  }

  /** At no moment are two commands of one group run, or run and recovered. */
  lemma {:induction false} OnePerGroup(disk: Option<Snapshot>, steps: seq<Step>, limit: nat, id: string, other: string)
    requires 1 <= limit && (disk.Some? ==> Valid(disk.value)) && LegalRun(disk, steps, limit)
    requires var sys := After(disk, steps, limit);
             Live(sys, id) && Live(sys, other) && sys.running[id].offer.group == sys.running[other].offer.group
    ensures id == other
  {
    RunInv(disk, steps, limit);
    var sys := After(disk, steps, limit);
    assert Owns(sys, id) && Owns(sys, other);
  }

  /** Releasing a group never ends a command that is being executed: every live one
      still owns its group afterwards. */
  lemma ReleaseSparesTheLiving(disk: Option<Snapshot>, steps: seq<Step>, id: string, result: Result, now: Time,
                               fate: Fate, limit: nat, other: string)
    requires 1 <= limit && (disk.Some? ==> Valid(disk.value)) && LegalRun(disk, steps, limit)
    requires Enabled(After(disk, steps, limit), Release(id, result, now, fate))
               && Live(After(disk, steps, limit), other)
    ensures var sys := After(disk, steps, limit);
            && Distinct(sys.journal.memory)
            && var next := Next(sys, Release(id, result, now, fate), limit);
               && Live(next, other) && next.running[other] == sys.running[other]
               && InActive(sys.journal.memory, other) && InActive(next.journal.memory, other)
  {
    RunInv(disk, steps, limit);
    var sys := After(disk, steps, limit);
    assert Owns(sys, other);
    ReleaseInv(sys, id, result, now, fate, limit);
    assert Owns(Next(sys, Release(id, result, now, fate), limit), other);
  }

  /** Closing its own execution always finds the command: unless the result is not
      one the journal takes, or the save fails, it ends. */
  lemma CloseFinds(disk: Option<Snapshot>, steps: seq<Step>, id: string, now: Time, fate: Fate, limit: nat)
    requires 1 <= limit && (disk.Some? ==> Valid(disk.value)) && LegalRun(disk, steps, limit)
    requires Enabled(After(disk, steps, limit), Close(id, now, fate))
    ensures var sys := After(disk, steps, limit);
            Distinct(sys.journal.memory) && FinishIn(sys, id, sys.running[id].phase.result, now, limit,
                fate).1 != NotFound
  {
    RunInv(disk, steps, limit);
    assert Owns(After(disk, steps, limit), id);
  }
}
