/** The executor as it is: the map of live executions, changed under its lock, over
    the engine that keeps the journal. */
module ExecutorObject {
  import opened Common
  import opened OperationJournal
  import opened OperationExecutor

  class Executor {
    const engine: Engine
    var running: map<string, Execution>
    ghost var ran: map<string, set<string>>

    ghost predicate Ready()
      reads this, engine, engine.file
    {
      engine.Ready()
    }

    ghost function View(): System
      reads this, engine, engine.file
    {
      System(engine.View(), running, ran)
    }

    constructor (engine: Engine)
      requires engine.Ready()
      ensures this.engine == engine && Ready() && running == map[] && ran == map[]
    {
      this.engine := engine;
      running, ran := map[], map[];
    }

    /** Registers an execution; one that is registered already is joined instead. */
    method Enter(offer: Offer) returns (entered: bool)
      requires Ready()
      modifies this`running
      ensures Ready() && entered == Enabled(old(View()), Step.Enter(offer))
      ensures View() == if entered then Next(old(View()), Step.Enter(offer), engine.limit) else old(View())
    {
      entered := offer.id !in running;
      if entered {
        running := running[offer.id := Execution(offer, Entered)];
      }
    }

    /** A command in the history is replayed, not run. */
    method Look(id: string)
      requires Ready() && Enabled(View(), Step.Look(id))
      modifies this`running
      ensures Ready() && View() == Next(old(View()), Step.Look(id), engine.limit)
    {
      var record := engine.Recent(id);
      running := running[id := running[id].(phase := if record.Some? then Leaving else Looked)];
    }

    method Try(id: string, now: Time, fate: Fate)
      requires Ready() && Enabled(View(), Step.Try(id, now, fate))
      modifies this, engine`snapshot, engine.file
      ensures Ready() && View() == Next(old(View()), Step.Try(id, now, fate), engine.limit)
    {
      var e := running[id];
      ghost var j := engine.View();
      assert Distinct(engine.snapshot);
      hide Begin, Valid, Distinct;
      var began := engine.TakeBegin(id, e.offer.kind, e.offer.group, now, fate);
      if began == Started {
        ran := ran[id := {}];
        running := running[id := e.(phase := Executing)];
      } else if began == Conflict && e.phase == Looked {
        running := running[id := e.(phase := Blocked)];
      } else {
        running := running[id := e.(phase := Refused(began))];
      }
    }

    /** Ends a command in the journal with its result. */
    method Finish(id: string, result: Result, now: Time, fate: Fate) returns (ending: Ending)
      requires Ready()
      modifies this`ran, engine`snapshot, engine.file
      ensures Ready() && (View(), ending) == FinishIn(old(View()), id, result, now, engine.limit, fate)
    {
      var status := if result.outcome == Succeeded then Succeeded else if result.outcome == Cancelled then Cancelled
          else Failed;
      assert Distinct(engine.snapshot);
      hide OperationJournal.Finish, Valid, Distinct, Noted;
      ending := engine.TakeFinish(id, status, result.code, Some(result), now, fate);
      if ending == Finished || (ending == NotKept && fate == KeptNew) {
        ran := Noted(ran, id);
      }
    }

    /** Ends what is left in the group of a process that is gone, so that the group is free. */
    method Release(id: string, result: Result, now: Time, fate: Fate)
      requires Ready() && Enabled(View(), Step.Release(id, result, now, fate))
      modifies this, engine`snapshot, engine.file
      ensures Ready() && View() == Next(old(View()), Step.Release(id, result, now, fate), engine.limit)
    {
      var offer := running[id].offer;
      var active := engine.snapshot.active;
      assert Distinct(engine.snapshot);
      if offer.group !in active || active[offer.group].id in running || active[offer.group].kind != offer.kind {
        running := running[id := running[id].(phase := Refused(Conflict))];
        return;
      }
      hide FinishIn, Valid, Distinct;
      var ending := Finish(active[offer.group].id, result, now, fate);
      running := running[id := running[id].(phase := if ending == Finished then Freed else Refused(Conflict))];
    }

    /** A command that could not begin is recovered when the journal has it as offered. */
    method Settle(id: string, result: Result)
      requires Ready() && Enabled(View(), Step.Settle(id, result)) && running[id].offer.id == id
      modifies this`running
      ensures Ready() && View() == Next(old(View()), Step.Settle(id, result), engine.limit)
    {
      var offer := running[id].offer;
      assert Distinct(engine.snapshot);
      var group := engine.FindActive(id);
      var found := group.Some? && engine.snapshot.active[group.value].kind == offer.kind
                   && engine.snapshot.active[group.value].group == offer.group;
      SameActive(View(), offer, group);
      running := running[id := running[id].(phase := if found then Over(result) else Leaving)];
    }

    /** Ends the execution's own command with what it came to. */
    method Close(id: string, now: Time, fate: Fate)
      requires Ready() && Enabled(View(), Step.Close(id, now, fate))
      modifies this, engine`snapshot, engine.file
      ensures Ready() && View() == Next(old(View()), Step.Close(id, now, fate), engine.limit)
    {
      assert Distinct(engine.snapshot);
      hide FinishIn, Valid, Distinct;
      var ending := Finish(id, running[id].phase.result, now, fate);
      running := running[id := running[id].(phase := Leaving)];
    }

    method Leave(id: string)
      requires Ready() && Enabled(View(), Step.Leave(id))
      modifies this`running
      ensures Ready() && View() == Next(old(View()), Step.Leave(id), engine.limit)
    {
      running := running - {id};
    }
  }

  /** The journal has an active command once, so that it is found where it is. */
  lemma SameActive(sys: System, offer: Offer, group: Option<string>)
    requires Distinct(sys.journal.memory) && (group.Some? <==> InActive(sys.journal.memory, offer.id))
    requires group.Some? ==> group.value == GroupOf(sys.journal.memory, offer.id)
    ensures Interrupted(sys, offer) <==>
              group.Some? && sys.journal.memory.active[group.value].kind == offer.kind
              && sys.journal.memory.active[group.value].group == offer.group
  {
  }
}
