/** Applying the targets: every inbound in turn, the owed restart, and a second look. */
module XuiPanel {
  import opened Common
  import opened XuiPlan
  import opened XuiWrites
  import opened XuiState
  import XuiPasses

  datatype Code = TargetInvalid | NotPlanned(why: Refusal) | WriteFailed | StateFailed | ListFailed | InboundMissing
                | RestartFailed | Unconfirmed

  /** A target as it arrives for an inbound. */
  datatype Raw = Absent | Undecodable | Decoded(target: seq<Wanted>)

  function Recorded(resets: map<Text, nat>, email: Text): nat {
    if email in resets then resets[email] else 0
  }

  predicate ResetsDue(resets: map<Text, nat>, target: seq<Wanted>) {
    exists i :: 0 <= i < |target| && target[i].reset > Recorded(resets, target[i].email)
  }

  /** Nothing needs to be written to the inbound. */
  ghost predicate Quiet(ib: Inbound, target: seq<Wanted>) {
    IsPlan(ib, target, Actions([]))
  }

  class Panel {
    const host: Host
    const state: LocalState

    constructor (host: Host)
      requires host.Noted() && !host.exposed
      ensures this.host == host && state.host == host && fresh(state) && Valid() && Matched(state.View())
    {
      this.host := host;
      state := new LocalState(host);
    }

    ghost predicate Valid()
      reads this, host, state
    {
      state.host == host && state.Valid()
    }

    /** Executes one reset that is due, and records it. */
    method Reset(id: nat, ib: Inbound, w: Wanted) returns (after: Inbound, ok: bool, why: Code)
      requires Valid() && id in host.inbounds && host.inbounds[id] == ib && w.reset > Recorded(state.resets, w.email)
      modifies state`resets, state`dirty, host`saved, host`file, host`exposed, host`called, host`inbounds
      ensures Valid() && state.pending == old(state.pending)
      ensures id in host.inbounds && host.inbounds == old(host.inbounds)[id := host.inbounds[id]]
      ensures host.inbounds[id] == ib.(used := host.inbounds[id].used)
      ensures ok ==> after == host.inbounds[id] && state.resets == old(state.resets)[w.email := w.reset]
      ensures !ok ==> (why == WriteFailed && state.resets == old(state.resets))
                      || (why == StateFailed && state.resets == old(state.resets)[w.email := w.reset] && state.dirty)
      ensures old(!state.dirty) ==> (state.dirty <==> !ok && why == StateFailed)
      ensures old(Matched(state.View())) ==> Matched(state.View()) && host.exposed == old(host.exposed)
    {
      hide Matched;
      after, why := ib, WriteFailed;
      if w.email in after.used {
        var cleared := host.ResetTraffic(id, w.email);
        if !cleared {
          return after, false, WriteFailed;
        }
        after := after.(used := after.used[w.email := 0]);
      }
      ok := state.SetReset(w.email, w.reset);
      if !ok {
        why := StateFailed;
      }
    }

    /** Executes the resets in turn until one fails. */
    method ResetAll(id: nat, ib: Inbound, target: seq<Wanted>) returns (after: Inbound, ok: bool, why: Code)
      requires Valid() && id in host.inbounds && host.inbounds[id] == ib
      modifies state`resets, state`dirty, host`saved, host`file, host`exposed, host`called, host`inbounds
      ensures Valid() && state.pending == old(state.pending)
      ensures id in host.inbounds && host.inbounds == old(host.inbounds)[id := host.inbounds[id]]
      ensures host.inbounds[id] == ib.(used := host.inbounds[id].used)
      ensures ok ==> after == host.inbounds[id] && !ResetsDue(state.resets, target)
      ensures !ok ==> why == WriteFailed || (why == StateFailed && state.dirty)
      ensures old(!state.dirty) ==> (state.dirty <==> !ok && why == StateFailed)
      ensures forall e :: e in old(state.resets) ==> e in state.resets && old(state.resets)[e] <= state.resets[e]
      ensures old(Matched(state.View())) ==> Matched(state.View()) && host.exposed == old(host.exposed)
    {
      hide Matched;
      after, why := ib, WriteFailed;
      for i := 0 to |target|
        invariant Valid() && state.pending == old(state.pending)
        invariant id in host.inbounds && host.inbounds == old(host.inbounds)[id := after]
        invariant after == ib.(used := after.used) && (old(!state.dirty) ==> !state.dirty)
        invariant forall k :: 0 <= k < i ==> target[k].reset <= Recorded(state.resets, target[k].email)
        invariant forall e :: e in old(state.resets) ==> e in state.resets && old(state.resets)[e] <= state.resets[e]
        invariant old(Matched(state.View())) ==> Matched(state.View()) && host.exposed == old(host.exposed)
      {
        if target[i].reset > state.Reset(target[i].email) {
          after, ok, why := Reset(id, after, target[i]);
          if !ok {
            return;
          }
        }
      }
      ok := true;
    }

    /** Writes the actions in turn until one fails. */
    method WriteAll(id: nat, actions: seq<Action>) returns (done: nat, ghost touched: bool)
      requires Valid() && id in host.inbounds
      requires actions != [] && Uses2022(host.inbounds[id]) ==> state.pending
      modifies host`called, host`inbounds, host`unloaded, host`exposed
      ensures done <= |actions| && Valid()
      ensures id in host.inbounds && host.inbounds == old(host.inbounds)[id := host.inbounds[id]]
      ensures exists n :: done <= n <= |actions| && n <= done + 1 &&
                host.inbounds[id] == old(host.inbounds)[id].(clients := host.inbounds[id].clients)
                && Clients(host.inbounds[id])
                    == After(old(host.inbounds)[id].protocol, Clients(old(host.inbounds)[id]), actions[..n])
      ensures !touched ==> host.inbounds == old(host.inbounds) && done == 0
      ensures actions == [] ==> !touched
      ensures host.exposed == (old(host.exposed)
                || (touched && Uses2022(old(host.inbounds)[id]) && !old(state.View().disk)))
    {
      var i := 0;
      touched := false;
      ghost var ib := host.inbounds[id];
      while i < |actions|
        invariant 0 <= i <= |actions| && Valid()
        invariant id in host.inbounds && host.inbounds == old(host.inbounds)[id := host.inbounds[id]]
        invariant host.inbounds[id] == ib.(clients := host.inbounds[id].clients)
        invariant Clients(host.inbounds[id]) == After(ib.protocol, Clients(ib), actions[..i])
        invariant (touched <==> i > 0) && (i == 0 ==> host.inbounds == old(host.inbounds))
        invariant host.exposed == (old(host.exposed) || (touched && Uses2022(ib) && !old(state.View().disk)))
      {
        assert actions[..i + 1][..i] == actions[..i];
        var ok;
        ghost var reached;
        ok, reached := host.Write(id, actions[i]);
        touched := touched || reached;
        if !ok {
          return i, touched;
        }
        i := i + 1;
      }
      return i, touched;
    }

    /** Brings one inbound to its target; one that no target names keeps no client of
        ours. Foreign clients stay as they are whatever fails. */
    method Converge(id: nat, ib: Inbound, target: seq<Wanted>, named: bool) returns (wrote: bool, err: Option<Code>,
                    ghost touched: bool)
      requires Valid() && id in host.inbounds && host.inbounds[id] == ib
      requires GoodTarget(target) && (!named ==> target == [])
      modifies state, host`saved, host`file, host`exposed, host`called, host`inbounds, host`unloaded
      ensures Valid() && id in host.inbounds && host.inbounds == old(host.inbounds)[id := host.inbounds[id]]
      ensures Foreigners(Clients(host.inbounds[id])) == Foreigners(Clients(ib))
      ensures err.None? && !wrote && named ==> Quiet(host.inbounds[id], target)
      ensures old(Matched(state.View())) ==> Matched(state.View()) && host.exposed == old(host.exposed)
      ensures !(named && ResetsDue(old(state.resets), target)) ==>
                host.exposed == (old(host.exposed) || (touched && Uses2022(ib) && !old(Matched(state.View()))))
      ensures old(host.unloaded) ==> state.pending
      ensures old(!state.dirty) && state.dirty ==> err == Some(StateFailed)
    {
      hide IsPlan, Foreigners, Written, GoodTarget, After, Uses2022;
      touched := false;
      if !named && !(ib.readable && Clients(ib) != []) {
        return false, None, touched;
      }
      var planned := Plan(ib, target);
      if planned.Refused? {
        return false, Some(NotPlanned(planned.why)), touched;
      }
      var now := ib;
      if named && ResetsDue(state.resets, target) {
        var ok, why;
        now, ok, why := ResetAll(id, ib, target);
        if !ok {
          return false, Some(why), touched;
        }
        planned := Plan(now, target);
        if planned.Refused? {
          return false, Some(NotPlanned(planned.why)), touched;
        }
      }
      wrote, err, touched := Carry(id, now, target, planned);
    }

    /** Carries a plan out: the mark of an owed restart comes before the first write. */
    method Carry(id: nat, ib: Inbound, target: seq<Wanted>, planned: Planned) returns (wrote: bool, err: Option<Code>,
                 ghost touched: bool)
      requires Valid() && id in host.inbounds && host.inbounds[id] == ib && GoodTarget(target)
      requires IsPlan(ib, target, planned) && planned.Actions?
      modifies state, host`saved, host`file, host`exposed, host`called, host`inbounds, host`unloaded
      ensures Valid() && id in host.inbounds && host.inbounds == old(host.inbounds)[id := host.inbounds[id]]
      ensures Foreigners(Clients(host.inbounds[id])) == Foreigners(Clients(ib))
      ensures err.None? && !wrote ==> Quiet(host.inbounds[id], target)
      ensures old(Matched(state.View())) ==> Matched(state.View())
      ensures host.exposed == (old(host.exposed) || (touched && Uses2022(ib) && !old(Matched(state.View()))))
      ensures old(state.pending) ==> state.pending
      ensures old(!state.dirty) ==> !state.dirty
    {
      hide IsPlan, Foreigners, Written, GoodTarget, After, Uses2022;
      touched := false;
      var actions := planned.actions;
      if actions != [] && Uses2022(ib) {
        var marked := state.SetRestartPending(true);
        if !marked {
          return false, Some(StateFailed), touched;
        }
      }
      var done;
      done, touched := WriteAll(id, actions);
      ghost var n :| done <= n <= |actions| && Clients(host.inbounds[id])
          == After(ib.protocol, Clients(ib), actions[..n]);
      ForeignUntouched(ib, target, planned, n);
      if done < |actions| {
        return done > 0, Some(WriteFailed), touched;
      }
      return |actions| > 0, None, touched;
    }

    /** Every listed inbound in turn, but for those held. */
    method ConvergeAll(targets: map<nat, seq<Wanted>>, held: set<nat>, before: map<nat, Code>)
      returns (codes: map<nat, Code>, wrote: bool, cleanup: Option<Code>)
      requires Valid() && GoodTargets(targets) && targets.Keys !! held
      modifies state, host`saved, host`file, host`exposed, host`called, host`inbounds, host`unloaded
      ensures Valid() && Spared(old(host.inbounds), host.inbounds, held)
      ensures old(Matched(state.View())) ==> Matched(state.View()) && host.exposed == old(host.exposed)
      ensures before.Keys <= codes.Keys
      ensures !wrote ==> Confirmed(host.inbounds, targets, codes)
    {
      codes, wrote, cleanup := before, false, None;
      var left := host.inbounds.Keys;
      ghost var start := host.inbounds;
      assert Spared(start, host.inbounds, held);
      hide Quiet, Foreigners, GoodTarget, GoodTargets, Spared, Valid, Matched, ConfirmedBut;
      ConfirmedNone(host.inbounds, targets, codes, left, held);
      while left != {}
        invariant left <= host.inbounds.Keys && Valid() && Spared(start, host.inbounds, held)
        invariant old(Matched(state.View())) ==> Matched(state.View()) && host.exposed == old(host.exposed)
        invariant before.Keys <= codes.Keys
        invariant !wrote ==> ConfirmedBut(host.inbounds, targets, codes, left, held)
        decreases left
      {
        var id :| id in left;
        if id !in held {
          ghost var now, seen := host.inbounds, codes;
          var changed, err := Visit(id, targets);
          SparedOn(start, now, host.inbounds, held, id);
          wrote := wrote || changed;
          codes := if err.Some? && id in targets then codes[id := err.value] else codes;
          cleanup := if err.Some? && id !in targets && cleanup.None? then err else cleanup;
          if !wrote {
            ConfirmedOn(now, host.inbounds, targets, seen, codes, left, held, id);
          }
        } else {
          ConfirmedHeld(host.inbounds, targets, codes, left, held, id);
        }
        left := left - {id};
      }
      if !wrote {
        ConfirmedAll(host.inbounds, targets, codes, left, held);
      }
    }

    method Visit(id: nat, targets: map<nat, seq<Wanted>>) returns (changed: bool, err: Option<Code>)
      requires Valid() && id in host.inbounds && GoodTargets(targets)
      modifies state, host`saved, host`file, host`exposed, host`called, host`inbounds, host`unloaded
      ensures Valid() && id in host.inbounds && host.inbounds == old(host.inbounds)[id := host.inbounds[id]]
      ensures Foreigners(Clients(host.inbounds[id])) == Foreigners(Clients(old(host.inbounds)[id]))
      ensures err.None? && !changed && id in targets ==> Quiet(host.inbounds[id], targets[id])
      ensures old(Matched(state.View())) ==> Matched(state.View()) && host.exposed == old(host.exposed)
    {
      var named := id in targets;
      var target := if named then targets[id] else [];
      GoodEmpty();
      hide Quiet, Foreigners, GoodTarget;
      ghost var touched;
      changed, err, touched := Converge(id, host.inbounds[id], target, named);
    }

    /** Looks again at every target without a code. */
    method Confirm(listed: map<nat, Inbound>, targets: map<nat, seq<Wanted>>,
                   before: map<nat, Code>) returns (codes: map<nat, Code>)
      ensures before.Keys <= codes.Keys && Confirmed(listed, targets, codes)
    {
      codes := before;
      var left := listed.Keys;
      while left != {}
        invariant left <= listed.Keys && before.Keys <= codes.Keys
        invariant forall id :: id in targets && id in listed && id !in left && id !in codes ==>
                    Quiet(listed[id], targets[id])
        decreases left
      {
        var id :| id in left;
        if id in targets && id !in codes {
          var planned := Plan(listed[id], targets[id]);
          if planned != Actions([]) {
            codes := codes[id := Unconfirmed];
          }
        }
        left := left - {id};
      }
    }

    /** Brings every inbound to its target. When it gets to its end, no inbound is left
        unloaded, and for every target without a code our clients are as wanted, with
        nothing left to write, or it wants nothing of an inbound that is gone. */
    method Apply(raw: map<nat, Raw>) returns (codes: map<nat, Code>, err: Option<Code>, finished: bool)
      requires Valid() && GoodTargets(Targets(raw))
      modifies state, host`saved, host`file, host`exposed, host`called, host`inbounds, host`unloaded
      ensures Valid() && Spared(old(host.inbounds), host.inbounds, raw.Keys - Targets(raw).Keys)
      ensures old(Matched(state.View())) ==> host.exposed == old(host.exposed)
      ensures old(Matched(state.View())) && (forall n :: host.saves(n) != FailsAfter) ==> Matched(state.View())
      ensures finished ==>
                !host.unloaded && Confirmed(host.inbounds, Targets(raw), codes)
                    && Answered(host.inbounds, Targets(raw), codes)
      ensures finished ==> Achieved(host.inbounds, Targets(raw), codes)
      ensures !finished ==> err.Some? && Targets(raw).Keys <= codes.Keys
    {
      var targets := Targets(raw);
      var held := raw.Keys - targets.Keys;
      codes := map id | id in raw && raw[id].Undecodable? :: TargetInvalid;
      assert Spared(host.inbounds, host.inbounds, held);
      hide Confirmed, Achieved, Answered, Foreigners, GoodTargets, Targets, Spared, Valid, Matched;
      var ready, why := Begin();
      if !ready {
        codes := Fail(targets, codes, why);
        return codes, Some(why), false;
      }
      var wrote;
      ready, codes, wrote, err := ConvergeAndRestart(targets, held, codes);
      if !ready {
        return codes, err, false;
      }
      ghost var seen := codes;
      ready, codes, why := Conclude(targets, held, codes, wrote);
      AnsweredMore(host.inbounds, targets, seen, codes);
      if !ready {
        codes := Fail(targets, codes, why);
        return codes, Some(why), false;
      }
      finished := true;
      ConfirmedAchieved(host.inbounds, targets, codes);
    }

    /** Saves what an earlier call could not, and lists the inbounds. */
    method Begin() returns (ok: bool, why: Code)
      requires Valid()
      modifies state`dirty, host`saved, host`file, host`exposed, host`called
      ensures Valid() && (old(Matched(state.View())) ==> Matched(state.View()) && host.exposed == old(host.exposed))
      ensures ok ==> !state.dirty
    {
      why := StateFailed;
      ok := state.Flush();
      if ok {
        var listed := host.List();
        ok, why := listed.Some?, ListFailed;
      }
    }

    method ConvergeAndRestart(targets: map<nat, seq<Wanted>>, held: set<nat>, before: map<nat, Code>)
      returns (ok: bool, codes: map<nat, Code>, wrote: bool, err: Option<Code>)
      requires Valid() && GoodTargets(targets) && targets.Keys !! held
      modifies state, host`saved, host`file, host`exposed, host`called, host`inbounds, host`unloaded
      ensures Valid() && Spared(old(host.inbounds), host.inbounds, held)
      ensures old(Matched(state.View())) ==> host.exposed == old(host.exposed)
      ensures old(Matched(state.View())) && (ok || forall n :: host.saves(n) != FailsAfter) ==> Matched(state.View())
      ensures ok ==> !host.unloaded && Answered(host.inbounds, targets, codes)
      ensures ok && !wrote ==> Confirmed(host.inbounds, targets, codes)
      ensures !ok ==> err.Some? && targets.Keys <= codes.Keys
    {
      hide Confirmed, Foreigners, GoodTargets, Spared, Valid, Matched;
      codes, wrote, err := ConvergeAll(targets, held, before);
      if !wrote {
        ConfirmedMore(host.inbounds, targets, codes);
      }
      codes := codes + map id | id in targets && id !in host.inbounds && targets[id] != [] :: InboundMissing;
      assert Answered(host.inbounds, targets, codes);
      hide Answered;
      var code;
      ok, code := SettleRestart();
      if !ok {
        codes := Fail(targets, codes, code);
        err := Some(code);
      }
    }

    /** A second look at what was written, and the reset records that are still of use. */
    method Conclude(targets: map<nat, seq<Wanted>>, held: set<nat>, before: map<nat, Code>, wrote: bool)
      returns (ok: bool, codes: map<nat, Code>, why: Code)
      requires Valid() && (!wrote ==> Confirmed(host.inbounds, targets, before))
      modifies state`resets, state`dirty, host`saved, host`file, host`exposed, host`called
      ensures Valid() && before.Keys <= codes.Keys && (ok ==> Confirmed(host.inbounds, targets, codes))
      ensures old(Matched(state.View())) ==> Matched(state.View()) && host.exposed == old(host.exposed)
    {
      hide Confirmed, Spared;
      codes, why := before, ListFailed;
      if wrote {
        var listed := host.List();
        if listed.None? {
          return false, codes, why;
        }
        codes := Confirm(listed.value, targets, codes);
      }
      ok := true;
      if held == {} {
        why := StateFailed;
        ok := state.KeepOnly(set id, i | id in targets && 0 <= i < |targets[id]| :: targets[id][i].email);
      }
    }

    /** Restarts Xray when it is owed. */
    method SettleRestart() returns (ok: bool, code: Code)
      requires Valid()
      modifies state`pending, state`dirty, host`saved, host`file, host`exposed, host`called, host`unloaded
      ensures Valid() && (ok ==> !host.unloaded)
      ensures host.exposed == old(host.exposed)
      ensures old(Matched(state.View())) && (forall n :: host.saves(n) != FailsAfter) ==> Matched(state.View())
      ensures ok && old(Matched(state.View())) ==> Matched(state.View())
    {
      code := RestartFailed;
      if !state.pending {
        return true, code;
      }
      ok := host.Restart();
      if !ok {
        return;
      }
      ok := state.SetRestartPending(false);
      code := StateFailed;
    }
  }

  function Fail(targets: map<nat, seq<Wanted>>, codes: map<nat, Code>, code: Code): (all: map<nat, Code>)
    ensures targets.Keys <= all.Keys
  {
    (map id | id in targets :: code) + codes
  }

  function Targets(raw: map<nat, Raw>): map<nat, seq<Wanted>> {
    map id | id in raw && raw[id].Decoded? :: raw[id].target
  }

  predicate GoodTargets(targets: map<nat, seq<Wanted>>) {
    forall id :: id in targets ==> GoodTarget(targets[id])
  }

  lemma GoodEmpty()
    ensures GoodTarget([])
  {
  }

  /** Clients that are not ours, and inbounds that are held, are as they were. */
  ghost predicate Spared(before: map<nat, Inbound>, after: map<nat, Inbound>, held: set<nat>) {
    && after.Keys == before.Keys
    && (forall id :: id in before ==> Foreigners(Clients(after[id])) == Foreigners(Clients(before[id])))
    && (forall id :: id in before && id in held ==> after[id] == before[id])
  }

  /** Nothing is left to write for a target without a code. */
  ghost predicate Confirmed(inbounds: map<nat, Inbound>, targets: map<nat, seq<Wanted>>, codes: map<nat, Code>) {
    forall id :: id in targets && id in inbounds && id !in codes ==> Quiet(inbounds[id], targets[id])
  }

  ghost predicate ConfirmedBut(inbounds: map<nat, Inbound>, targets: map<nat, seq<Wanted>>, codes: map<nat, Code>,
                               left: set<nat>, held: set<nat>) {
    forall id :: id in targets && id in inbounds && id !in codes && id !in left && id !in held ==>
        Quiet(inbounds[id], targets[id])
  }

  lemma ConfirmedNone(inbounds: map<nat, Inbound>, targets: map<nat, seq<Wanted>>, codes: map<nat, Code>,
                      left: set<nat>, held: set<nat>)
    requires inbounds.Keys <= left
    ensures ConfirmedBut(inbounds, targets, codes, left, held)
  {
  }

  lemma ConfirmedAll(inbounds: map<nat, Inbound>, targets: map<nat, seq<Wanted>>, codes: map<nat, Code>,
                     left: set<nat>, held: set<nat>)
    requires ConfirmedBut(inbounds, targets, codes, left, held) && targets.Keys !! held && left == {}
    ensures Confirmed(inbounds, targets, codes)
  {
    hide Quiet;
    assert forall id :: id in targets ==> id !in held;
  }

  lemma ConfirmedOn(before: map<nat, Inbound>, after: map<nat, Inbound>, targets: map<nat, seq<Wanted>>,
                    seen: map<nat, Code>,
                    codes: map<nat, Code>, left: set<nat>, held: set<nat>, id: nat)
    requires ConfirmedBut(before, targets, seen, left, held) && seen.Keys <= codes.Keys
    requires id in before && id in after && after == before[id := after[id]]
    requires id in targets && id !in codes ==> Quiet(after[id], targets[id])
    ensures ConfirmedBut(after, targets, codes, left - {id}, held)
  {
    hide Quiet;
  }

  lemma ConfirmedHeld(inbounds: map<nat, Inbound>, targets: map<nat, seq<Wanted>>, codes: map<nat, Code>,
                      left: set<nat>, held: set<nat>, id: nat)
    requires id in held
    ensures ConfirmedBut(inbounds, targets, codes, left, held) ==>
              ConfirmedBut(inbounds, targets, codes, left - {id}, held)
  {
    hide Quiet;
  }

  lemma SparedOn(start: map<nat, Inbound>, before: map<nat, Inbound>, after: map<nat, Inbound>, held: set<nat>, id: nat)
    requires Spared(start, before, held) && id in before && id !in held && id in after
               && after == before[id := after[id]]
    requires Foreigners(Clients(after[id])) == Foreigners(Clients(before[id]))
    ensures Spared(start, after, held) && after.Keys == before.Keys
  {
    hide Foreigners, Clients;
  }

  /** A target that wants clients in an inbound that is gone has a code. */
  predicate Answered(inbounds: map<nat, Inbound>, targets: map<nat, seq<Wanted>>, codes: map<nat, Code>) {
    forall id :: id in targets && id !in inbounds && targets[id] != [] ==> id in codes
  }

  lemma AnsweredMore(inbounds: map<nat, Inbound>, targets: map<nat, seq<Wanted>>, codes: map<nat, Code>,
                     more: map<nat, Code>)
    requires Answered(inbounds, targets, codes) && codes.Keys <= more.Keys
    ensures Answered(inbounds, targets, more)
  {
  }

  lemma ConfirmedMore(inbounds: map<nat, Inbound>, targets: map<nat, seq<Wanted>>, codes: map<nat, Code>)
    requires Confirmed(inbounds, targets, codes)
    ensures forall more: map<nat, Code> :: codes.Keys <= more.Keys ==> Confirmed(inbounds, targets, more)
  {
  }

  /** Where a target has no code, our clients of its inbound are as it wants them. */
  ghost predicate Achieved(inbounds: map<nat, Inbound>, targets: map<nat, seq<Wanted>>, codes: map<nat, Code>) {
    forall id :: id in targets && id in inbounds && id !in codes ==>
      XuiPasses.AsWanted(inbounds[id], targets[id], Clients(inbounds[id]))
  }

  lemma ConfirmedAchieved(inbounds: map<nat, Inbound>, targets: map<nat, seq<Wanted>>, codes: map<nat, Code>)
    requires Confirmed(inbounds, targets, codes)
    ensures Achieved(inbounds, targets, codes)
  {
    forall id | id in targets && id in inbounds && id !in codes
      ensures XuiPasses.AsWanted(inbounds[id], targets[id], Clients(inbounds[id]))
    {
      assert Quiet(inbounds[id], targets[id]);
      XuiPasses.QuietAsWanted(inbounds[id], targets[id]);
    }
  }
}
