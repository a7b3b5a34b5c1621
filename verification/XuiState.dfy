/** The module's durable state: executed resets, and whether Xray still owes a
    restart. */
module XuiState {
  import opened Common
  import opened XuiPlan
  import opened XuiWrites

  datatype Stored = Stored(resets: map<Text, nat>, pending: bool)

  /** How a call ends: it works, or fails without effect, or fails with it. For a save
      the last is a failure after the new file has replaced the old one. */
  datatype Luck = Works | FailsBefore | FailsAfter

  /** The mark of an owed restart in memory and in the file. */
  datatype Marks = Marks(memory: bool, disk: bool)

  /** What memory believes to be on disk is there. */
  predicate Matched(m: Marks) {
    m.memory ==> m.disk
  }

  function SetMark(m: Marks, pending: bool, luck: Luck): (Marks, bool) {
    if m.memory == pending then (m, true)
    else match luck
      case Works => (Marks(pending, pending), true)
      case FailsBefore => (m, false)
      case FailsAfter => (m.(disk := pending), false)
  }

  /** Setting the mark without an error puts it on disk exactly when memory did not
      believe it to be there without reason. */
  lemma MarkSet(m: Marks, luck: Luck)
    requires SetMark(m, true, luck).1
    ensures SetMark(m, true, luck).0.disk <==> Matched(m)
  {
  }

  /** Only clearing the mark by a save that fails after it replaced the file leaves
      memory believing what is not on disk. */
  lemma MarkLost(m: Marks, pending: bool, luck: Luck)
    requires Matched(m)
    ensures Matched(SetMark(m, pending, luck).0) <==> !(m.memory && !pending && luck == FailsAfter)
  {
  }

  /** Then the next time the mark is to be set it is reported as set, and is not. */
  lemma MarkNotSetAgain(luck: Luck)
    ensures var m := SetMark(Marks(true, true), false, FailsAfter).0;
            SetMark(m, true, luck) == (Marks(true, false), true)
  {
  }

  /** The host: the state file, the panel's inbounds and Xray. A Shadowsocks 2022
      inbound written since Xray last restarted is unloaded; it was exposed if ever
      it was so without a mark on disk, when a crash would have lost the restart. */
  class Host {
    const saves: nat -> Luck
    const calls: nat -> Luck
    var saved: nat
    var called: nat
    var file: Option<Stored>
    var inbounds: map<nat, Inbound>
    ghost var unloaded: bool
    ghost var exposed: bool

    constructor (file: Option<Stored>, inbounds: map<nat, Inbound>, saves: nat -> Luck, calls: nat -> Luck)
      ensures this.file == file && this.inbounds == inbounds && this.saves == saves && this.calls == calls
      ensures !unloaded && !exposed
    {
      this.file, this.inbounds, this.saves, this.calls := file, inbounds, saves, calls;
      saved, called, unloaded, exposed := 0, 0, false, false;
    }

    function Disk(): bool
      reads this
    {
      file.Some? && file.value.pending
    }

    ghost predicate Noted()
      reads this
    {
      unloaded && !Disk() ==> exposed
    }

    method Save(next: Stored) returns (ok: bool)
      modifies this`saved, this`file, this`exposed
      ensures saved == old(saved) + 1
      ensures file == (if saves(old(saved)) == FailsBefore then old(file) else Some(next))
      ensures ok <==> saves(old(saved)) == Works
      ensures exposed == (old(exposed) || (unloaded && !Disk()))
    {
      var luck := saves(saved);
      saved := saved + 1;
      if luck != FailsBefore {
        file := Some(next);
      }
      exposed := exposed || (unloaded && !Disk());
      ok := luck == Works;
    }

    /** One client write. A refused one has no effect. */
    method Write(id: nat, a: Action) returns (ok: bool, ghost reached: bool)
      requires id in inbounds
      modifies this`called, this`inbounds, this`unloaded, this`exposed
      ensures called == old(called) + 1
      ensures var ib := old(inbounds)[id];
              var next := Written(ib.protocol, Clients(ib), a);
              && ok == (calls(old(called)) == Works && next.Some?)
              && reached == (calls(old(called)) != FailsBefore && next.Some?)
              && if reached
                 then inbounds == old(inbounds)[id := ib.(clients := next)]
                     && unloaded == (old(unloaded) || Uses2022(ib))
                 else inbounds == old(inbounds) && unloaded == old(unloaded)
      ensures exposed == (old(exposed) || (unloaded && !Disk()))
    {
      var luck := calls(called);
      called := called + 1;
      var ib := inbounds[id];
      var next := Written(ib.protocol, Clients(ib), a);
      if luck != FailsBefore && next.Some? {
        inbounds := inbounds[id := ib.(clients := next)];
        unloaded := unloaded || Uses2022(ib);
      }
      exposed := exposed || (unloaded && !Disk());
      ok, reached := luck == Works && next.Some?, luck != FailsBefore && next.Some?;
    }

    method ResetTraffic(id: nat, email: Text) returns (ok: bool)
      requires id in inbounds && email in inbounds[id].used
      modifies this`called, this`inbounds
      ensures called == old(called) + 1
      ensures ok <==> calls(old(called)) == Works
      ensures inbounds == if calls(old(called)) == FailsBefore then old(inbounds)
                          else old(inbounds)[id := old(inbounds)[id].(used := old(inbounds)[id].used[email := 0])]
    {
      var luck := calls(called);
      called := called + 1;
      if luck != FailsBefore {
        inbounds := inbounds[id := inbounds[id].(used := inbounds[id].used[email := 0])];
      }
      ok := luck == Works;
    }

    method Restart() returns (ok: bool)
      modifies this`called, this`unloaded
      ensures called == old(called) + 1
      ensures ok <==> calls(old(called)) == Works
      ensures unloaded == (old(unloaded) && calls(old(called)) == FailsBefore)
    {
      var luck := calls(called);
      called := called + 1;
      if luck != FailsBefore {
        unloaded := false;
      }
      ok := luck == Works;
    }

    method List() returns (listed: Option<map<nat, Inbound>>)
      modifies this`called
      ensures called == old(called) + 1
      ensures listed == if calls(old(called)) == Works then Some(inbounds) else None
    {
      listed := if calls(called) == Works then Some(inbounds) else None;
      called := called + 1;
    }
  }

  class LocalState {
    const host: Host
    var resets: map<Text, nat>
    var pending: bool
    var dirty: bool

    function View(): Marks
      reads this, host
    {
      Marks(pending, host.Disk())
    }

    /** Records that are not waiting to be saved are on disk, and a restart that is
        owed is known. */
    ghost predicate Valid()
      reads this, host
    {
      && (!dirty ==> if host.file.Some? then host.file.value.resets == resets else resets == map[])
      && (host.unloaded ==> pending) && host.Noted()
    }

    /** After a start memory is what the file holds; only a missing file starts empty. */
    constructor (host: Host)
      requires host.Noted() && !host.exposed
      ensures this.host == host && Valid() && Matched(View()) && !dirty
      ensures View() == Marks(host.Disk(), host.Disk())
    {
      this.host := host;
      resets := if host.file.Some? then host.file.value.resets else map[];
      pending := host.file.Some? && host.file.value.pending;
      dirty := false;
    }

    function Reset(email: Text): nat
      reads this
    {
      if email in resets then resets[email] else 0
    }

    method Flush() returns (ok: bool)
      requires Valid()
      modifies this`dirty, host`saved, host`file, host`exposed
      ensures Valid() && ok == !dirty && resets == old(resets)
      ensures old(!dirty) ==> ok && host.file == old(host.file) && host.saved == old(host.saved)
      ensures old(dirty) && ok ==> host.Disk() == pending
      ensures old(Matched(View())) ==> Matched(View()) && host.exposed == old(host.exposed)
      ensures !old(dirty) ==> View() == old(View()) && host.exposed == old(host.exposed)
    {
      if !dirty {
        return true;
      }
      ok := host.Save(Stored(resets, pending));
      if ok {
        dirty := false;
      }
    }

    /** Records an executed reset at once and tries to save it. */
    method SetReset(email: Text, seqNo: nat) returns (ok: bool)
      requires Valid()
      modifies this`resets, this`dirty, host`saved, host`file, host`exposed
      ensures Valid() && resets == old(resets)[email := seqNo] && ok == !dirty
      ensures old(Matched(View())) ==> Matched(View()) && host.exposed == old(host.exposed)
    {
      resets := resets[email := seqNo];
      dirty := true;
      ok := Flush();
    }

    method SetRestartPending(next: bool) returns (ok: bool)
      requires Valid() && (!next ==> !host.unloaded)
      modifies this`pending, this`dirty, host`saved, host`file, host`exposed
      ensures Valid() && (View(), ok) == SetMark(old(View()), next, host.saves(old(host.saved)))
      ensures host.exposed == old(host.exposed)
      ensures old(pending) == next ==> host.saved == old(host.saved)
      ensures old(!dirty) ==> !dirty
    {
      if pending == next {
        return true;
      }
      ok := host.Save(Stored(resets, next));
      if ok {
        pending, dirty := next, false;
      }
    }

    /** Forgets clients Cloud no longer has. */
    method KeepOnly(emails: set<Text>) returns (ok: bool)
      requires Valid()
      modifies this`resets, this`dirty, host`saved, host`file, host`exposed
      ensures Valid() && resets == map e | e in old(resets) && e in emails :: old(resets)[e]
      ensures old(Matched(View())) ==> Matched(View()) && host.exposed == old(host.exposed)
      ensures ok ==> !dirty || resets == old(resets)
    {
      var kept := map e | e in resets && e in emails :: resets[e];
      KeptSize(resets, emails);
      if |kept| == |resets| {
        return true;
      }
      resets, dirty := kept, true;
      ok := Flush();
    }
  }

  lemma KeptSize(m: map<Text, nat>, emails: set<Text>)
    ensures var kept := map e | e in m && e in emails :: m[e]; |kept| == |m| ==> kept == m
  {
    var kept := map e | e in m && e in emails :: m[e];
    if |kept| == |m| {
      var lost := m.Keys - kept.Keys;
      assert m.Keys == kept.Keys + lost;
      assert |lost| == 0;
    }
  }
}
