/** The IPv4 side of the address monitor: what it owes Cloud, and a ChangeIP
    reconciliation that must end in one outcome. */
module IpWatch {
  import opened Common

  type Time = nat

  /** A command id or an address as it arrives; good ones are UUIDs and IPv4 addresses. */
  datatype Command = Command(good: bool, which: nat)
  datatype Address = Address(good: bool, which: nat)

  const GRACE: Time := 120
  const CONFIRMATIONS := 2

  datatype Outcome = Outcome(id: nat, changed: bool, address: Address, at: Time)

  /** An attempt. since numbers it among all reports and attempts, which tells one
      attempt from another. */
  datatype Attempt = Attempt(command: Command, address: Address, reconcileAt: Time, confirmations: nat,
      outcome: Option<Outcome>, since: nat)

  /** A report: the natural address, or how an attempt ended. */
  datatype Report = Natural(id: nat, address: Address, at: Time) | Ended(attempt: Attempt)

  /** What Cloud knows from this process: what it acknowledged, what it has not answered
      yet, and whether the next observation is told whatever it is. */
  datatype Family = Family(reported: Option<Address>, pending: Option<Report>, announce: bool)

  datatype Observation = Observation(address: Address, at: Time)

  datatype Fate = Saved | KeptOld | KeptNew

  /** Where the step of the loop is: its sections under the lock are apart. */
  datatype Phase = Idle | Observing | Sending(report: Report) | Stopped

  /** The monitor; made counts the reports and attempts ever made, and their number
      stands for a report's UUID. */
  datatype Monitor = Monitor(memory: Option<Attempt>, disk: Option<Attempt>, family: Family, phase: Phase, made: nat)

  /** A new process: the first observation is reported. */
  function Opened(disk: Option<Attempt>, made: nat): Monitor {
    Monitor(disk, disk, Family(None, None, true), Idle, made)
  }

  // --------------------------------------------------------------- operations

  /** What a file must hold to be taken over. */
  predicate Sound(a: Attempt) {
    && a.command.good && a.address.good && a.reconcileAt != 0
    && (a.outcome.Some? ==> a.outcome.value.address.good && a.outcome.value.at != 0
                            && a.outcome.value.changed == (a.outcome.value.address != a.address))
  }

  function Save(m: Monitor, next: Option<Attempt>, fate: Fate): Monitor {
    match fate
    case Saved => m.(memory := next, disk := next)
    case KeptOld => m
    case KeptNew => m.(disk := next)
  }

  predicate Settled(f: Family, address: Address) {
    f.reported == Some(address) && f.pending.None? && !f.announce
  }

  function Arm(m: Monitor, command: Command, address: Address, started: Time, fate: Fate): (Monitor, bool) {
    if !command.good || !address.good || started == 0 then (m, false)
    else if m.memory.Some? then (m, m.memory.value.command == command && m.memory.value.address == address)
    else if !Settled(m.family, address) then (m, false)
    else (Save(m, Some(Attempt(command, address, started + GRACE, 0, None, m.made)), fate).(made := m.made + 1),
        fate == Saved)
  }

  function Cancel(m: Monitor, command: Command, fate: Fate): (Monitor, bool) {
    if m.memory.None? || m.memory.value.command != command || m.memory.value.outcome.Some? then (m, false)
    else (Save(m, None, fate), fate == Saved)
  }

  datatype Acked = Taken | TakenNotKept | NotOurs

  function Acknowledge(m: Monitor, id: nat, fate: Fate): (Monitor, Acked) {
    if m.memory.Some? && m.memory.value.outcome.Some? && m.memory.value.outcome.value.id == id then
      var next := Save(m, None, fate);
      if fate == Saved then (next.(family := next.family.(reported := Some(m.memory.value.outcome.value.address))),
          Taken)
      else (next, TakenNotKept)
    else if m.family.pending.Some? && m.family.pending.value.Natural? && m.family.pending.value.id == id then
      (m.(family := m.family.(reported := Some(m.family.pending.value.address), pending := None)), Taken)
    else (m, NotOurs)
  }

  /** A connection to Cloud begins: whatever is observed next is told to it. */
  function ControlReady(m: Monitor): Monitor {
    m.(family := m.family.(pending := None, announce := true))
  }

  /** The first section of a step: what waits is sent again, else the address is observed. */
  function Begin(m: Monitor): Monitor {
    if m.memory.Some? && m.memory.value.outcome.Some? then m.(phase := Sending(Ended(m.memory.value)))
    else if m.family.pending.Some? then m.(phase := Sending(m.family.pending.value))
    else m.(phase := Observing)
  }

  /** What an observation makes of an attempt; nothing before the grace is over. */
  function Judged(a: Attempt, o: Observation, now: Time, made: nat): Option<Attempt> {
    if o.address != a.address then Some(a.(outcome := Some(Outcome(made, true, o.address, o.at))))
    else if now < a.reconcileAt then None
    else if a.confirmations + 1 >= CONFIRMATIONS then
      Some(a.(confirmations := a.confirmations + 1, outcome := Some(Outcome(made, false, o.address, o.at))))
    else Some(a.(confirmations := a.confirmations + 1))
  }

  /** The second section: the observation is taken in. A failed save stops the process. */
  function Take(m: Monitor, seen: Option<Observation>, now: Time, fate: Fate): Monitor {
    if seen.None? then m.(phase := Idle)
    else if m.memory.Some? then
      var judged := Judged(m.memory.value, seen.value, now, m.made);
      if judged.None? then m.(phase := Idle)
      else
        var next := Save(m, judged, fate).(made := m.made + 1);
        if fate != Saved then next.(phase := Stopped)
        else if judged.value.outcome.None? then next.(phase := Idle)
        else next.(phase := Sending(Ended(judged.value)))
    else if !m.family.announce && Some(seen.value.address) == m.family.reported then m.(phase := Idle)
    else
      var report := Natural(m.made, seen.value.address, seen.value.at);
      m.(family := m.family.(announce := false, pending := Some(report)), made := m.made + 1, phase := Sending(report))
  }

  // ---------------------------------------------------------- implementation

  /** The reconciliation file. */
  class StateFile {
    var stored: Option<Attempt>

    constructor (stored: Option<Attempt>)
      ensures this.stored == stored
    {
      this.stored := stored;
    }

    method Store(next: Option<Attempt>, fate: Fate) returns (ok: bool)
      modifies this
      ensures stored == (if fate == KeptOld then old(stored) else next) && (ok <==> fate == Saved)
    {
      if fate != KeptOld {
        stored := next;
      }
      ok := fate == Saved;
    }
  }

  class Watch {
    const file: StateFile
    var persisted: Option<Attempt>
    var family: Family
    var phase: Phase
    var made: nat

    function View(): Monitor
      reads this, file
    {
      Monitor(persisted, file.stored, family, phase, made)
    }

    constructor (file: StateFile, made: nat)
      ensures this.file == file && View() == Opened(file.stored, made)
    {
      this.file, this.made := file, made;
      persisted, family, phase := file.stored, Family(None, None, true), Idle;
    }

    /** Opens the monitor; a file that holds no sound attempt is refused. */
    static method Open(file: StateFile, made: nat) returns (watch: Option<Watch>)
      ensures watch.Some? <==> (file.stored.Some? ==> Sound(file.stored.value))
      ensures watch.Some? ==>
                fresh(watch.value) && watch.value.file == file && watch.value.View() == Opened(file.stored, made)
    {
      if file.stored.Some? {
        var a := file.stored.value;
        if !a.command.good || !a.address.good || a.reconcileAt == 0 {
          return None;
        }
        if a.outcome.Some? {
          var result := a.outcome.value;
          if !result.address.good || result.changed == (result.address == a.address) || result.at == 0 {
            return None;
          }
        }
      }
      var monitor := new Watch(file, made);
      return Some(monitor);
    }

    method ArmChange(command: Command, address: Address, started: Time, fate: Fate) returns (ok: bool)
      modifies this`persisted, this`made, file
      ensures (View(), ok) == Arm(old(View()), command, address, started, fate)
    {
      if !command.good {
        return false;
      }
      if !address.good || started == 0 {
        return false;
      }
      if persisted.Some? {
        return persisted.value.command == command && persisted.value.address == address;
      }
      if family.reported != Some(address) || family.pending.Some? || family.announce {
        return false;
      }
      var next := Some(Attempt(command, address, started + GRACE, 0, None, made));
      made := made + 1;
      ok := file.Store(next, fate);
      if ok {
        persisted := next;
      }
    }

    method CancelChange(command: Command, fate: Fate) returns (ok: bool)
      modifies this`persisted, file
      ensures (View(), ok) == Cancel(old(View()), command, fate)
    {
      if persisted.None? || persisted.value.command != command || persisted.value.outcome.Some? {
        return false;
      }
      ok := file.Store(None, fate);
      if ok {
        persisted := None;
      }
    }

    method TakeAck(id: nat, fate: Fate) returns (acked: Acked)
      modifies this`persisted, this`family, file
      ensures (View(), acked) == Acknowledge(old(View()), id, fate)
    {
      if persisted.Some? && persisted.value.outcome.Some? && persisted.value.outcome.value.id == id {
        var address := persisted.value.outcome.value.address;
        var ok := file.Store(None, fate);
        if !ok {
          return TakenNotKept;
        }
        persisted := None;
        family := family.(reported := Some(address));
        return Taken;
      }
      if family.pending.Some? && family.pending.value.Natural? && family.pending.value.id == id {
        family := family.(reported := Some(family.pending.value.address), pending := None);
        return Taken;
      }
      return NotOurs;
    }

    method NotifyControlReady()
      modifies this`family
      ensures View() == ControlReady(old(View()))
    {
      family := family.(pending := None, announce := true);
    }

    method StepBegin()
      modifies this`phase
      ensures View() == Begin(old(View()))
    {
      if persisted.Some? && persisted.value.outcome.Some? {
        phase := Sending(Ended(persisted.value));
      } else if family.pending.Some? {
        phase := Sending(family.pending.value);
      } else {
        phase := Observing;
      }
    }

    method StepTake(seen: Option<Observation>, now: Time, fate: Fate)
      modifies this, file
      ensures View() == Take(old(View()), seen, now, fate)
    {
      if seen.None? {
        phase := Idle;
        return;
      }
      var current := seen.value.address;
      if persisted.Some? {
        var settled := persisted.value;
        if current != settled.address {
          settled := settled.(outcome := Some(Outcome(made, true, current, seen.value.at)));
        } else if now >= settled.reconcileAt {
          settled := settled.(confirmations := settled.confirmations + 1);
          if settled.confirmations >= CONFIRMATIONS {
            settled := settled.(outcome := Some(Outcome(made, false, current, seen.value.at)));
          }
        } else {
          phase := Idle;
          return;
        }
        made := made + 1;
        var ok := file.Store(Some(settled), fate);
        if !ok {
          phase := Stopped;
          return;
        }
        persisted := Some(settled);
        phase := if settled.outcome.None? then Idle else Sending(Ended(settled));
        return;
      }
      Observed(seen.value);
    }

    /** Makes a natural report of an address that is new or owed, and none otherwise. */
    method Observed(o: Observation)
      requires persisted.None?
      modifies this`family, this`made, this`phase
      ensures View() == Take(old(View()), Some(o), 0, Saved)
      ensures forall now, fate :: View() == Take(old(View()), Some(o), now, fate)
    {
      if !family.announce && Some(o.address) == family.reported {
        phase := Idle;
        return;
      }
      var report := Natural(made, o.address, o.at);
      family := family.(announce := false, pending := Some(report));
      made := made + 1;
      phase := Sending(report);
    }
  }
}
