/** The operation journal: what is running, what ended lately, in memory and in
    the state file. A save that fails may leave either version in the file. */
module OperationJournal {
  import opened Common

  type Time = nat

  const SCHEMA := 1
  const MAX_RESULT := 8192

  datatype Status = Running | Succeeded | Failed | Cancelled

  /** A handler's result; size is that of its encoding. */
  datatype Result = Result(outcome: Status, code: string, size: nat)

  datatype Record = Record(id: string, kind: string, group: string, status: Status, started: Time,
                           finished: Option<Time>, code: string, result: Option<Result>)

  datatype Snapshot = Snapshot(schema: nat, active: map<string, Record>, recent: seq<Record>)

  const EMPTY := Snapshot(SCHEMA, map[], [])

  /** The journal in memory and in its file, which is missing until the first save. */
  datatype Journal = Journal(memory: Snapshot, disk: Option<Snapshot>)

  datatype Fate = Saved | KeptOld | KeptNew

  // ------------------------------------------------------------------ tokens

  predicate TokenChar(c: char, first: bool) {
    'a' <= c <= 'z' || '0' <= c <= '9' || (!first && (c == '.' || c == '_' || c == '-'))
  }

  predicate Stable(t: string) {
    1 <= |t| <= 128 && forall i :: 0 <= i < |t| ==> TokenChar(t[i], i == 0)
  }

  // ------------------------------------------------------- what a journal holds

  predicate Holds(s: Snapshot, id: string) {
    InActive(s, id) || InRecent(s, id)
  }

  predicate InActive(s: Snapshot, id: string) {
    exists g :: g in s.active && s.active[g].id == id
  }

  predicate InRecent(s: Snapshot, id: string) {
    exists i :: 0 <= i < |s.recent| && s.recent[i].id == id
  }

  predicate GoodRecord(r: Record) {
    Stable(r.id) && Stable(r.kind) && Stable(r.group) && r.started != 0
  }

  predicate GoodActive(g: string, r: Record) {
    r.group == g && r.status == Running && r.finished == None && r.code == "" && GoodRecord(r)
  }

  predicate GoodRecent(r: Record) {
    && r.status != Running && r.finished.Some? && Stable(r.code) && GoodRecord(r)
    && (r.result.Some? ==> r.result.value.size <= MAX_RESULT)
  }

  predicate OncePerGroup(active: map<string, Record>) {
    forall g, h :: g in active && h in active && active[g].id == active[h].id ==> g == h
  }

  predicate OnceEach(recent: seq<Record>) {
    forall i, j :: 0 <= i < j < |recent| ==> recent[i].id != recent[j].id
  }

  predicate Apart(active: map<string, Record>, recent: seq<Record>) {
    forall g, i :: g in active && 0 <= i < |recent| ==> active[g].id != recent[i].id
  }

  /** No command is in the journal twice. */
  predicate Distinct(s: Snapshot) {
    OncePerGroup(s.active) && OnceEach(s.recent) && Apart(s.active, s.recent)
  }

  /** What a state file must hold to be taken over. */
  predicate Valid(s: Snapshot) {
    && s.schema == SCHEMA
    && (forall g :: g in s.active ==> GoodActive(g, s.active[g]))
    && (forall i :: 0 <= i < |s.recent| ==> GoodRecent(s.recent[i]))
    && Distinct(s)
  }

  // -------------------------------------------------------------- operations

  function Save(j: Journal, next: Snapshot, fate: Fate): Journal {
    match fate
    case Saved => Journal(next, Some(next))
    case KeptOld => j
    case KeptNew => j.(disk := Some(next))
  }

  datatype Began = Started | BadToken | Conflict | Duplicate | NotSaved

  function WithActive(s: Snapshot, id: string, kind: string, group: string, now: Time): Snapshot {
    s.(active := s.active[group := Record(id, kind, group, Running, now, None, "", None)])
  }

  function Refusal(s: Snapshot, id: string, kind: string, group: string): Option<Began> {
    if !Stable(id) || !Stable(kind) || !Stable(group) then Some(BadToken)
    else if group in s.active then Some(Conflict)
    else if Holds(s, id) then Some(Duplicate)
    else None
  }

  function Begin(j: Journal, id: string, kind: string, group: string, now: Time, fate: Fate): (Journal, Began) {
    var refusal := Refusal(j.memory, id, kind, group);
    if refusal.Some? then (j, refusal.value)
    else (Save(j, WithActive(j.memory, id, kind, group, now), fate), if fate == Saved then Started else NotSaved)
  }

  datatype Ending = Finished | BadResult | NotFound | NotKept

  predicate GoodEnding(status: Status, code: string, result: Option<Result>) {
    status != Running && Stable(code) && (result.Some? ==> result.value.size <= MAX_RESULT)
  }

  function Trimmed(recent: seq<Record>, limit: nat): seq<Record> {
    if |recent| > limit then recent[|recent| - limit..] else recent
  }

  function Ended(s: Snapshot, group: string, status: Status, code: string, result: Option<Result>, now: Time,
                 limit: nat): Snapshot
    requires group in s.active
  {
    var record := s.active[group].(status := status, finished := Some(now), code := code, result := result);
    s.(active := s.active - {group}, recent := Trimmed(s.recent + [record], limit))
  }

  /** The group of an active command. */
  function GroupOf(s: Snapshot, id: string): (g: string)
    requires Distinct(s) && InActive(s, id)
    ensures g in s.active && s.active[g].id == id
  {
    var g :| g in s.active && s.active[g].id == id;
    g
  }

  function Finish(j: Journal, id: string, status: Status, code: string, result: Option<Result>, now: Time, limit: nat,
                  fate: Fate)
    : (Journal, Ending)
    requires Distinct(j.memory)
  {
    if !GoodEnding(status, code, result) then (j, BadResult)
    else if !InActive(j.memory, id) then (j, NotFound)
    else (Save(j, Ended(j.memory, GroupOf(j.memory, id), status, code, result, now, limit), fate),
          if fate == Saved then Finished else NotKept)
  }

  // -------------------------------------------------------------- what is kept

  /** A command the journal does not hold may become active. */
  lemma ActiveDistinct(s: Snapshot, group: string, r: Record)
    requires Distinct(s) && !Holds(s, r.id)
    ensures Distinct(s.(active := s.active[group := r]))
  {
    var active := s.active[group := r];
    forall g, h | g in active && h in active && active[g].id == active[h].id
      ensures g == h
    {
      assert g == group || active[g] == s.active[g];
      assert h == group || active[h] == s.active[h];
    }
    forall g, i | g in active && 0 <= i < |s.recent|
      ensures active[g].id != s.recent[i].id
    {
      assert g == group || active[g] == s.active[g];
    }
  }

  lemma BegunValid(s: Snapshot, id: string, kind: string, group: string, now: Time)
    requires Valid(s) && Refusal(s, id, kind, group).None? && now != 0
    ensures Valid(WithActive(s, id, kind, group, now))
  {
    var record := Record(id, kind, group, Running, now, None, "", None);
    ActiveDistinct(s, group, record);
    assert GoodActive(group, record);
    hide Distinct, Holds, Stable, GoodActive, GoodRecent;
  }

  lemma BeginValid(j: Journal, id: string, kind: string, group: string, now: Time, fate: Fate)
    requires Valid(j.memory) && (j.disk.Some? ==> Valid(j.disk.value)) && now != 0
    ensures var next := Begin(j, id, kind, group, now, fate).0;
            Valid(next.memory) && (next.disk.Some? ==> Valid(next.disk.value))
  {
    if Refusal(j.memory, id, kind, group).None? {
      BegunValid(j.memory, id, kind, group, now);
    }
    hide Valid, Refusal, WithActive;
  }

  /** The history with one more record, whose command was active. */
  lemma AllDistinct(s: Snapshot, group: string, record: Record)
    requires Distinct(s) && group in s.active && record.id == s.active[group].id
    ensures OnceEach(s.recent + [record])
    ensures Apart(s.active - {group}, s.recent + [record])
  {
    var all := s.recent + [record];
    forall i, j | 0 <= i < j < |all|
      ensures all[i].id != all[j].id
    {
      if j == |s.recent| {
        assert s.active[group].id != s.recent[i].id;
      }
    }
    forall g, i | g in s.active - {group} && 0 <= i < |all|
      ensures s.active[g].id != all[i].id
    {
      assert s.active[g].id != s.active[group].id;
    }
  }

  /** What is left of the history is its newest part. */
  lemma TrimmedPart(all: seq<Record>, limit: nat)
    ensures |Trimmed(all, limit)| <= |all|
    ensures Trimmed(all, limit) == all[|all| - |Trimmed(all, limit)|..]
  {
  }

  lemma TrimmedDistinct(active: map<string, Record>, all: seq<Record>, limit: nat)
    requires OnceEach(all) && Apart(active, all)
    ensures OnceEach(Trimmed(all, limit)) && Apart(active, Trimmed(all, limit))
  {
    TrimmedPart(all, limit);
    var left := Trimmed(all, limit);
    hide Trimmed;
    var cut := |all| - |left|;
    forall i, j | 0 <= i < j < |left|
      ensures left[i].id != left[j].id
    {
      assert left[i] == all[cut + i] && left[j] == all[cut + j];
    }
    forall g, i | g in active && 0 <= i < |left|
      ensures active[g].id != left[i].id
    {
      assert left[i] == all[cut + i];
    }
  }

  lemma EndedDistinct(s: Snapshot, group: string, record: Record, limit: nat)
    requires Distinct(s) && group in s.active && record.id == s.active[group].id
    ensures Distinct(s.(active := s.active - {group}, recent := Trimmed(s.recent + [record], limit)))
  {
    AllDistinct(s, group, record);
    TrimmedDistinct(s.active - {group}, s.recent + [record], limit);
    assert OncePerGroup(s.active - {group});
    hide OncePerGroup, OnceEach, Apart, Trimmed;
  }

  lemma EndedValid(s: Snapshot, group: string, status: Status, code: string, result: Option<Result>, now: Time,
                   limit: nat)
    requires Valid(s) && group in s.active && GoodEnding(status, code, result)
    ensures Valid(Ended(s, group, status, code, result, now, limit))
    ensures |s.recent| <= limit ==> |Ended(s, group, status, code, result, now, limit).recent| <= limit
  {
    var record := s.active[group].(status := status, finished := Some(now), code := code, result := result);
    var all := s.recent + [record];
    assert GoodActive(group, s.active[group]);
    assert forall i :: 0 <= i < |all| ==> GoodRecent(all[i]);
    EndedDistinct(s, group, record, limit);
    TrimmedPart(all, limit);
    hide Distinct, GoodRecent, GoodActive;
  }

  lemma FinishValid(j: Journal, id: string, status: Status, code: string, result: Option<Result>, now: Time,
                    limit: nat, fate: Fate)
    requires Valid(j.memory) && (j.disk.Some? ==> Valid(j.disk.value))
    ensures var next := Finish(j, id, status, code, result, now, limit, fate).0;
            Valid(next.memory) && (next.disk.Some? ==> Valid(next.disk.value))
  {
    if GoodEnding(status, code, result) && InActive(j.memory, id) {
      EndedValid(j.memory, GroupOf(j.memory, id), status, code, result, now, limit);
    }
  }

  // ---------------------------------------------------------- implementation

  /** seen holds the ids of the running commands looked at, each found once. */
  ghost predicate SeenActive(active: map<string, Record>, left: set<string>, seen: set<string>) {
    && (forall g :: g in active && g !in left ==> GoodActive(g, active[g]) && active[g].id in seen)
    && (forall id :: id in seen ==> exists g :: g in active && g !in left && active[g].id == id)
    && (forall g, h :: g in active && h in active && g !in left && h !in left && active[g].id == active[h].id ==>
        g == h)
  }

  lemma SeenMore(active: map<string, Record>, left: set<string>, seen: set<string>, g: string)
    requires SeenActive(active, left, seen) && g in left && g in active && GoodActive(g, active[g])
               && active[g].id !in seen
    ensures SeenActive(active, left - {g}, seen + {active[g].id})
  {
    hide GoodActive;
    forall id | id in seen + {active[g].id}
      ensures exists h :: h in active && h !in left - {g} && active[h].id == id
    {
      if id != active[g].id {
        var h :| h in active && h !in left && active[h].id == id;
        assert h !in left - {g};
      } else {
        assert g !in left - {g};
      }
    }
  }

  /** seen holds the ids of all running and of the first n ended commands. */
  ghost predicate SeenRecent(s: Snapshot, n: nat, seen: set<string>)
    requires n <= |s.recent|
  {
    && (forall g :: g in s.active ==> s.active[g].id in seen)
    && (forall i :: 0 <= i < n ==> GoodRecent(s.recent[i]) && s.recent[i].id in seen)
    && (forall id :: id in seen ==> InActive(s, id) || exists i :: 0 <= i < n && s.recent[i].id == id)
    && OnceEach(s.recent[..n]) && Apart(s.active, s.recent[..n])
  }

  lemma SeenNext(s: Snapshot, n: nat, seen: set<string>)
    requires n < |s.recent| && SeenRecent(s, n, seen) && GoodRecent(s.recent[n])
    ensures s.recent[n].id !in seen ==> SeenRecent(s, n + 1, seen + {s.recent[n].id})
    ensures s.recent[n].id in seen ==> !Distinct(s)
  {
    hide GoodRecent;
    assert s.recent[..n + 1] == s.recent[..n] + [s.recent[n]];
    if s.recent[n].id in seen && InActive(s, s.recent[n].id) {
      var g :| g in s.active && s.active[g].id == s.recent[n].id;
      assert !Apart(s.active, s.recent);
    }
  }

  /** Whether a file that was read may be taken over. */
  method Validate(s: Snapshot) returns (ok: bool)
    ensures ok <==> Valid(s)
  {
    if s.schema != SCHEMA {
      return false;
    }
    var seen: set<string> := {};
    var left := s.active.Keys;
    while left != {}
      invariant left <= s.active.Keys && SeenActive(s.active, left, seen)
      decreases left
    {
      var g :| g in left;
      var r := s.active[g];
      if !GoodActive(g, r) {
        return false;
      }
      if r.id in seen {
        assert !OncePerGroup(s.active);
        return false;
      }
      SeenMore(s.active, left, seen, g);
      seen, left := seen + {r.id}, left - {g};
    }
    for i := 0 to |s.recent|
      invariant SeenRecent(s, i, seen)
    {
      if !GoodRecent(s.recent[i]) {
        return false;
      }
      SeenNext(s, i, seen);
      if s.recent[i].id in seen {
        return false;
      }
      seen := seen + {s.recent[i].id};
    }
    assert s.recent[..|s.recent|] == s.recent;
    return true;
  }

  /** The state file. */
  class StateFile {
    var stored: Option<Snapshot>

    constructor (stored: Option<Snapshot>)
      ensures this.stored == stored
    {
      this.stored := stored;
    }

    /** Writes a new version beside the old one and renames it over it; what can
        fail before and after the rename decides which version is left. */
    method Store(next: Snapshot, fate: Fate) returns (ok: bool)
      modifies this
      ensures stored == if fate == KeptOld then old(stored) else Some(next)
      ensures ok <==> fate == Saved
    {
      if fate != KeptOld {
        stored := Some(next);
      }
      ok := fate == Saved;
    }
  }

  class Engine {
    const file: StateFile
    const limit: nat
    var snapshot: Snapshot

    ghost predicate Ready()
      reads this, file
    {
      && limit >= 1 && Valid(snapshot) && (file.stored.Some? ==> Valid(file.stored.value))
    }

    ghost function View(): Journal
      reads this, file
    {
      Journal(snapshot, file.stored)
    }

    /** Only a missing file starts empty. */
    constructor (file: StateFile, limit: nat)
      requires limit >= 1 && (file.stored.Some? ==> Valid(file.stored.value))
      ensures this.file == file && this.limit == limit && Ready()
      ensures snapshot == if file.stored.Some? then file.stored.value else EMPTY
    {
      this.file := file;
      this.limit := limit;
      snapshot := if file.stored.Some? then file.stored.value else EMPTY;
    }

    /** Opens the journal; a file that holds no valid one is refused. */
    static method Open(file: StateFile, limit: nat) returns (engine: Option<Engine>)
      ensures engine.Some? <==> limit >= 1 && (file.stored.Some? ==> Valid(file.stored.value))
      ensures engine.Some? ==>
                fresh(engine.value) && engine.value.file == file && engine.value.limit == limit && engine.value.Ready()
                               && engine.value.View()
                                   == Journal(if file.stored.Some? then file.stored.value else EMPTY, file.stored)
    {
      if limit < 1 {
        return None;
      }
      if file.stored.Some? {
        var ok := Validate(file.stored.value);
        if !ok {
          return None;
        }
      }
      var made := new Engine(file, limit);
      return Some(made);
    }

    /** Searches the running commands. */
    method FindActive(id: string) returns (group: Option<string>)
      requires Ready()
      ensures group.Some? <==> InActive(snapshot, id)
      ensures group.Some? ==> group.value == GroupOf(snapshot, id)
    {
      var left := snapshot.active.Keys;
      while left != {}
        invariant left <= snapshot.active.Keys
        invariant forall g :: g in snapshot.active && g !in left ==> snapshot.active[g].id != id
        decreases left
      {
        var g :| g in left;
        if snapshot.active[g].id == id {
          return Some(g);
        }
        left := left - {g};
      }
      return None;
    }

    /** Searches the ended commands, newest first. */
    method Recent(id: string) returns (record: Option<Record>)
      requires Ready()
      ensures record.Some? <==> InRecent(snapshot, id)
      ensures record.Some? ==> record.value in snapshot.recent && record.value.id == id
    {
      var i := |snapshot.recent|;
      while i > 0
        invariant 0 <= i <= |snapshot.recent|
        invariant forall k :: i <= k < |snapshot.recent| ==> snapshot.recent[k].id != id
      {
        i := i - 1;
        if snapshot.recent[i].id == id {
          return Some(snapshot.recent[i]);
        }
      }
      return None;
    }

    method TakeBegin(id: string, kind: string, group: string, now: Time, fate: Fate) returns (began: Began)
      requires Ready() && now != 0
      modifies this`snapshot, file
      ensures Ready()
      ensures (View(), began) == Begin(old(View()), id, kind, group, now, fate)
    {
      BeginValid(View(), id, kind, group, now, fate);
      if !Stable(id) || !Stable(kind) || !Stable(group) {
        return BadToken;
      }
      if group in snapshot.active {
        return Conflict;
      }
      var running := FindActive(id);
      var ended := Recent(id);
      if running.Some? || ended.Some? {
        return Duplicate;
      }
      var next := snapshot.(active := snapshot.active[group := Record(id, kind, group, Running, now, None, "", None)]);
      var ok := file.Store(next, fate);
      if !ok {
        return NotSaved;
      }
      snapshot := next;
      return Started;
    }

    method TakeFinish(id: string, status: Status, code: string, result: Option<Result>, now: Time,
                      fate: Fate) returns (ending: Ending)
      requires Ready()
      modifies this`snapshot, file
      ensures Ready()
      ensures (View(), ending) == Finish(old(View()), id, status, code, result, now, limit, fate)
    {
      FinishValid(View(), id, status, code, result, now, limit, fate);
      assert Distinct(snapshot);
      hide Valid, Stable, Distinct, InActive, GroupOf;
      if status == Running || !Stable(code) || (result.Some? && result.value.size > MAX_RESULT) {
        return BadResult;
      }
      var group := FindActive(id);
      if group.None? {
        return NotFound;
      }
      var record := snapshot.active[group.value].(status := status, finished := Some(now), code := code,
          result := result);
      var recent := snapshot.recent + [record];
      if |recent| > limit {
        recent := recent[|recent| - limit..];
      }
      var next := snapshot.(active := snapshot.active - {group.value}, recent := recent);
      assert next == Ended(snapshot, group.value, status, code, result, now, limit);
      hide Ended;
      var ok := file.Store(next, fate);
      if !ok {
        return NotKept;
      }
      snapshot := next;
      return Finished;
    }
  }
}
