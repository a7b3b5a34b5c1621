/** What every run of the ledger keeps: who a connection may belong to over its
    whole life, and that its counters only grow. */
module LedgerRuns {
  import opened Common
  import opened LedgerModel

  ghost predicate GoodSocket(s: Socket) {
    && (s.disputed ==> s.email == Nobody)
    && (s.email == Nobody ==> s.requests == 0 && s.line == NO_LINE)
    && (s.email != Nobody ==> s.line.email == s.email && s.line.conn == s.conn && s.line.tcp && s.requests >= 1)
    && (s.noticed ==> s.closedAt != 0)
  }

  ghost predicate GoodClaim(at: Key, c: Claim) {
    at == Key(c.line.conn, c.line.tcp) && c.line.email != Nobody && c.requests >= 1
  }

  ghost predicate GoodSockets(sockets: map<nat, Socket>) {
    forall k :: k in sockets ==> GoodSocket(sockets[k])
  }

  ghost predicate GoodClaims(claims: map<Key, Claim>) {
    forall at :: at in claims ==> GoodClaim(at, claims[at])
  }

  /** The invariant of every reachable state. */
  ghost predicate Inv(st: State) {
    && GoodSockets(st.sockets)
    && GoodClaims(st.claims)
    && (st.started == 0 <==> st.dumped == 0)
    && (st.started == 0 ==> st.sockets == map[])
    && (st.tail != 0 ==> st.started != 0)
  }

  /** How a socket may go on: the same connection, its counters no lower, a
      notice final. Its user stays, or it becomes nobody's for good, or, open at
      the start, it goes to the user of a strictly newer line from before then. */
  ghost predicate Succeeds(s: Socket, t: Socket, started: Time) {
    && t.conn == s.conn && t.local == s.local && t.after == s.after
    && t.acked >= s.acked && t.received >= s.received
    && (s.noticed ==> t.noticed && t.closedAt == s.closedAt)
    && (s.disputed ==> t.disputed)
    && (s.email != Nobody ==>
          || t.disputed
          || (t.email == s.email && t.line == s.line && t.requests >= s.requests)
          || (s.after == 0 && t.email != Nobody && t.line.at > s.line.at && t.line.at <= started))
  }

  ghost predicate Evolved(a: map<nat, Socket>, b: map<nat, Socket>, started: Time) {
    forall k :: k in a && k in b ==> Succeeds(a[k], b[k], started)
  }

  lemma EvolvedOn(a: map<nat, Socket>, b: map<nat, Socket>, c: map<nat, Socket>, started: Time)
    requires GoodSockets(a) && GoodSockets(b) && GoodSockets(c)
    requires a.Keys * c.Keys <= b.Keys
    requires Evolved(a, b, started) && Evolved(b, c, started)
    ensures Evolved(a, c, started)
  {
    forall k | k in a && k in c
      ensures Succeeds(a[k], c[k], started)
    {
      assert k in b;
      assert Succeeds(a[k], b[k], started) && Succeeds(b[k], c[k], started);
    }
  }

  // ------------------------------------------------------------------ lines

  lemma LineKeeps(st: State, line: Line, now: Time, f: Fate)
    requires Inv(st) && line.email != Nobody && Allowed(st, line, now, f)
    ensures Inv(TakeLine(st, line, now, f))
    ensures TakeLine(st, line, now, f).sockets.Keys == st.sockets.Keys
    ensures TakeLine(st, line, now, f).(sockets := st.sockets, claims := st.claims) == st
    ensures Evolved(st.sockets, TakeLine(st, line, now, f).sockets, st.started)
  {
    LineGood(st, line, now, f);
    forall k | k in st.sockets && k in TakeLine(st, line, now, f).sockets
      ensures Succeeds(st.sockets[k], TakeLine(st, line, now, f).sockets[k], st.started)
    {
      LineSucceeds(st, line, now, f, k);
    }
    hide Allowed, TakeLine, Succeeds, Inv;
  }

  lemma LineGood(st: State, line: Line, now: Time, f: Fate)
    requires Inv(st) && line.email != Nobody && Allowed(st, line, now, f)
    ensures Inv(TakeLine(st, line, now, f))
    ensures TakeLine(st, line, now, f).sockets.Keys == st.sockets.Keys
    ensures TakeLine(st, line, now, f).(sockets := st.sockets, claims := st.claims) == st
  {
    hide NoReplay, NoCarry, NoBind, Contests;
  }

  lemma LineSucceeds(st: State, line: Line, now: Time, f: Fate, k: nat)
    requires Inv(st) && line.email != Nobody && Allowed(st, line, now, f) && k in st.sockets
    ensures k in TakeLine(st, line, now, f).sockets
    ensures Succeeds(st.sockets[k], TakeLine(st, line, now, f).sockets[k], st.started)
  {
    hide NoReplay, NoCarry, NoBind, Contests, GoodClaims;
    assert GoodSocket(st.sockets[k]);
  }

  lemma LineAfter(st: State, mid: State, line: Line, now: Time, f: Fate)
    requires Inv(st) && Inv(mid) && line.email != Nobody && Allowed(mid, line, now, f)
    requires mid.sockets.Keys == st.sockets.Keys && mid.(sockets := st.sockets, claims := st.claims) == st
    requires Evolved(st.sockets, mid.sockets, st.started)
    ensures Inv(TakeLine(mid, line, now, f))
    ensures TakeLine(mid, line, now, f).sockets.Keys == st.sockets.Keys
    ensures TakeLine(mid, line, now, f).(sockets := st.sockets, claims := st.claims) == st
    ensures Evolved(st.sockets, TakeLine(mid, line, now, f).sockets, st.started)
  {
    hide Allowed, TakeLine, Succeeds, Evolved, GoodSockets;
    LineKeeps(mid, line, now, f);
    EvolvedOn(st.sockets, mid.sockets, TakeLine(mid, line, now, f).sockets, st.started);
  }

  lemma {:induction false} BatchKeeps(st: State, batch: seq<Line>, now: Time, fates: seq<Fate>)
    requires Inv(st) && |batch| == |fates| && LegalBatch(st, batch, now, fates)
    requires forall i :: 0 <= i < |batch| ==> batch[i].email != Nobody
    ensures Inv(TakeBatch(st, batch, now, fates))
    ensures TakeBatch(st, batch, now, fates).sockets.Keys == st.sockets.Keys
    ensures TakeBatch(st, batch, now, fates).(sockets := st.sockets, claims := st.claims) == st
    ensures Evolved(st.sockets, TakeBatch(st, batch, now, fates).sockets, st.started)
  {
    if batch != [] {
      hide Inv, Allowed, TakeLine, Succeeds;
      var n := |batch| - 1;
      BatchKeeps(st, batch[..n], now, fates[..n]);
      LineAfter(st, TakeBatch(st, batch[..n], now, fates[..n]), batch[n], now, fates[n]);
    }
  }

  // ------------------------------------------------------------------ dumps

  lemma ShowKeeps(sockets: map<nat, Socket>, dumped: Time, r: Report, started: Time)
    requires GoodSockets(sockets)
    ensures GoodSockets(Show(sockets, dumped, r))
    ensures sockets.Keys <= Show(sockets, dumped, r).Keys
    ensures Evolved(sockets, Show(sockets, dumped, r), started)
  {
  }

  lemma {:induction false} ShowAllKeeps(sockets: map<nat, Socket>, dumped: Time, conns: seq<Report>, started: Time)
    requires GoodSockets(sockets)
    ensures GoodSockets(ShowAll(sockets, dumped, conns))
    ensures sockets.Keys <= ShowAll(sockets, dumped, conns).Keys
    ensures Evolved(sockets, ShowAll(sockets, dumped, conns), started)
  {
    if conns != [] {
      hide GoodSocket, Succeeds, Show;
      var n := |conns| - 1;
      ShowAllKeeps(sockets, dumped, conns[..n], started);
      var mid := ShowAll(sockets, dumped, conns[..n]);
      ShowKeeps(mid, dumped, conns[n], started);
      EvolvedOn(sockets, mid, Show(mid, dumped, conns[n]), started);
    }
  }

  lemma BindNewKeeps(st: State, k: nat)
    requires GoodSockets(st.sockets) && GoodClaims(st.claims)
    ensures GoodSockets(BindNew(st, k).sockets) && GoodClaims(BindNew(st, k).claims)
    ensures BindNew(st, k).(sockets := st.sockets, claims := st.claims) == st
    ensures BindNew(st, k).sockets.Keys == st.sockets.Keys
    ensures Evolved(st.sockets, BindNew(st, k).sockets, st.started)
  {
  }

  lemma {:induction false} BindAllKeeps(st: State, ids: seq<nat>)
    requires GoodSockets(st.sockets) && GoodClaims(st.claims)
    ensures GoodSockets(BindAll(st, ids).sockets) && GoodClaims(BindAll(st, ids).claims)
    ensures BindAll(st, ids).(sockets := st.sockets, claims := st.claims) == st
    ensures BindAll(st, ids).sockets.Keys == st.sockets.Keys
    ensures Evolved(st.sockets, BindAll(st, ids).sockets, st.started)
  {
    if ids != [] {
      var n := |ids| - 1;
      var mid := BindAll(st, ids[..n]);
      BindAllKeeps(st, ids[..n]);
      BindNewKeeps(mid, ids[n]);
      EvolvedOn(st.sockets, mid.sockets, BindNew(mid, ids[n]).sockets, st.started);
    }
  }

  lemma TakeDumpKeeps(st: State, start: Time, now: Time, dump: Option<seq<Report>>)
    requires Inv(st) && 0 < start <= now
    ensures Inv(TakeDump(st, start, now, dump))
    ensures TakeDump(st, start, now, dump).sockets.Keys
         == if dump.Some? then ShowAll(Missed(st.sockets), st.dumped, dump.value).Keys else st.sockets.Keys
    ensures st.sockets.Keys <= TakeDump(st, start, now, dump).sockets.Keys
    ensures Evolved(st.sockets, TakeDump(st, start, now, dump).sockets, TakeDump(st, start, now, dump).started)
  {
    if dump.Some? {
      var conns := dump.value;
      var missed := Missed(st.sockets);
      var shown := st.(sockets := ShowAll(missed, st.dumped, conns), readable := true);
      var bound := BindAll(shown, Added(st.sockets, conns));
      var started := if st.dumped == 0 then start else st.started;
      assert Evolved(st.sockets, missed, started);
      ShowAllKeeps(missed, st.dumped, conns, started);
      EvolvedOn(st.sockets, missed, shown.sockets, started);
      BindAllKeeps(shown, Added(st.sockets, conns));
      if st.dumped != 0 {
        EvolvedOn(st.sockets, shown.sockets, bound.sockets, started);
        assert Evolved(bound.sockets, Lost(bound.sockets, now), started);
        EvolvedOn(st.sockets, bound.sockets, Lost(bound.sockets, now), started);
      }
    }
  }

  lemma NoticeKeeps(st: State, now: Time, r: Report)
    requires Inv(st) && 0 < now
    ensures Inv(TakeNotice(st, now, r))
    ensures TakeNotice(st, now, r).started == st.started
    ensures st.sockets.Keys <= TakeNotice(st, now, r).sockets.Keys
    ensures Evolved(st.sockets, TakeNotice(st, now, r).sockets, st.started)
  {
    if st.dumped != 0 && r.cookie !in st.sockets {
      var seen := st.(sockets := st.sockets[r.cookie := Fresh(r, st.dumped).(closedAt := now, noticed := true)]);
      BindNewKeeps(seen, r.cookie);
      assert Evolved(st.sockets, seen.sockets, st.started);
      EvolvedOn(st.sockets, seen.sockets, TakeNotice(st, now, r).sockets, st.started);
    }
  }

  // -------------------------------------------------------------------- runs

  lemma ExpireKeeps(st: State, now: Time)
    requires Inv(st)
    ensures Inv(Expire(st, now))
    ensures Evolved(st.sockets, Expire(st, now).sockets, st.started)
  {
  }

  /** One step keeps the invariant, and each socket it keeps goes on as it may. */
  lemma StepKeeps(st: State, ev: Event)
    requires Inv(st) && Legal(st, ev)
    ensures Inv(Next(st, ev))
    ensures Evolved(st.sockets, Next(st, ev).sockets, Next(st, ev).started)
    ensures st.started != 0 ==> Next(st, ev).started == st.started
  {
    match ev
    case Poll(start, now, dump) =>
      TakeDumpKeeps(st, start, now, dump);
      var taken := TakeDump(st, start, now, dump);
      ExpireKeeps(taken, now);
      EvolvedOn(st.sockets, taken.sockets, Expire(taken, now).sockets, taken.started);
    case Notice(now, r) => NoticeKeeps(st, now, r);
    case Lines(now, batch, fates, keep) =>
      BatchKeeps(Tailed(st, now), batch, now, fates);
  }

  lemma {:induction false} RunKeeps(st: State, evs: seq<Event>)
    requires Inv(st) && LegalRun(st, evs)
    ensures Inv(After(st, evs))
    ensures st.started != 0 ==> After(st, evs).started == st.started
  {
    if evs != [] {
      var n := |evs| - 1;
      RunKeeps(st, evs[..n]);
      StepKeeps(After(st, evs[..n]), evs[n]);
    }
  }

  /** The socket stays in the account during the whole run. */
  ghost predicate Stays(st: State, evs: seq<Event>, k: nat) {
    && k in After(st, evs).sockets
    && (evs == [] || Stays(st, evs[..|evs| - 1], k))
  }

  /** Over any stretch of a run in which the ledger keeps a connection: one seen
      first after the first dump never belongs to two users, one open at the
      start only to users of ever newer lines from before the start, and once
      disputed it is nobody's for good. */
  lemma {:induction false} WholeRunAttribution(st: State, evs: seq<Event>, k: nat)
    requires Inv(st) && LegalRun(st, evs) && Stays(st, evs, k)
    ensures k in st.sockets
    ensures Succeeds(st.sockets[k], After(st, evs).sockets[k], After(st, evs).started)
    ensures var s, t := st.sockets[k], After(st, evs).sockets[k];
            && (s.after != 0 && s.email != Nobody ==> t.email == s.email || (t.email == Nobody && t.disputed))
            && (s.disputed ==> t.disputed && t.email == Nobody)
  {
    if evs != [] {
      var n := |evs| - 1;
      var mid := After(st, evs[..n]);
      WholeRunAttribution(st, evs[..n], k);
      RunKeeps(st, evs[..n]);
      RunKeeps(st, evs);
      StepKeeps(mid, evs[n]);
      assert Succeeds(mid.sockets[k], After(st, evs).sockets[k], After(st, evs).started);
      assert GoodSocket(st.sockets[k]) && GoodSocket(mid.sockets[k]) && GoodSocket(After(st, evs).sockets[k]);
    }
    RunKeeps(st, evs);
    assert GoodSocket(After(st, evs).sockets[k]);
  }

  // --------------------------------------------------------- changing hands

  /** One user's before, another's after. */
  predicate Handed(s: Socket, t: Socket) {
    s.email != Nobody && t.email != Nobody && t.email != s.email
  }

  /** The line takes the connection over from an older line's user. */
  predicate HandsOver(s: Socket, t: Socket, line: Line, started: Time) {
    && s.after == 0 && !line.udp && s.line.at < line.at <= started
    && t.line == line && t.email == line.email
  }

  /** A line hands a connection over only while the log's tail comes in. */
  lemma LineHandover(st: State, line: Line, now: Time, f: Fate, k: nat)
    requires Inv(st) && line.email != Nobody && Allowed(st, line, now, f) && k in st.sockets
    requires Handed(st.sockets[k], TakeLine(st, line, now, f).sockets[k])
    ensures f == Replay(k) && InTail(st, now)
    ensures HandsOver(st.sockets[k], TakeLine(st, line, now, f).sockets[k], line, st.started)
  {
    hide NoReplay, NoCarry, NoBind, Contests, GoodClaims;
  }

  /** What a line leaves of a user's connection whose user stays. */
  lemma LineHolds(st: State, line: Line, now: Time, f: Fate, k: nat)
    requires Inv(st) && line.email != Nobody && Allowed(st, line, now, f) && k in st.sockets
               && st.sockets[k].email != Nobody
    ensures var s, t := st.sockets[k], TakeLine(st, line, now, f).sockets[k];
            && (t.email == Nobody ==> t.disputed)
            && (t.email != Nobody ==> t.line == s.line || HandsOver(s, t, line, st.started))
  {
    LineSucceeds(st, line, now, f, k);
    hide NoReplay, NoCarry, NoBind, Contests, GoodClaims;
  }

  lemma {:induction false} BatchHandover(st: State, batch: seq<Line>, now: Time, fates: seq<Fate>, k: nat)
    requires Inv(st) && |batch| == |fates| && LegalBatch(st, batch, now, fates)
    requires forall i :: 0 <= i < |batch| ==> batch[i].email != Nobody
    requires k in st.sockets && st.sockets[k].email != Nobody
    ensures k in TakeBatch(st, batch, now, fates).sockets
    ensures var s, t := st.sockets[k], TakeBatch(st, batch, now, fates).sockets[k];
            && (t.email == Nobody ==> t.disputed)
            && (t.email != Nobody ==>
                t.line == s.line || exists i :: 0 <= i < |batch| && HandsOver(s, t, batch[i], st.started))
            && (Handed(s, t) ==> InTail(st, now))
  {
    if batch != [] {
      var n := |batch| - 1;
      var mid := TakeBatch(st, batch[..n], now, fates[..n]);
      BatchHandover(st, batch[..n], now, fates[..n], k);
      BatchKeeps(st, batch[..n], now, fates[..n]);
      LineOnHandover(st, mid, batch, now, fates[n], k);
    }
  }

  lemma LineOnHandover(st: State, mid: State, batch: seq<Line>, now: Time, f: Fate, k: nat)
    requires batch != [] && Inv(mid) && batch[|batch| - 1].email != Nobody && Allowed(mid, batch[|batch| - 1], now, f)
    requires k in st.sockets && k in mid.sockets && mid.started == st.started && mid.tail == st.tail
    requires var s, m, n := st.sockets[k], mid.sockets[k], |batch| - 1;
             && s.email != Nobody && m.after == s.after && (m.email == Nobody ==> m.disputed)
             && (m.email != Nobody ==>
                 m.line == s.line || exists i :: 0 <= i < n && HandsOver(s, m, batch[i], st.started))
             && (Handed(s, m) ==> InTail(st, now))
    ensures k in TakeLine(mid, batch[|batch| - 1], now, f).sockets
    ensures var s, t := st.sockets[k], TakeLine(mid, batch[|batch| - 1], now, f).sockets[k];
            && (t.email == Nobody ==> t.disputed)
            && (t.email != Nobody ==>
                t.line == s.line || exists i :: 0 <= i < |batch| && HandsOver(s, t, batch[i], st.started))
            && (Handed(s, t) ==> InTail(st, now))
  {
    var n := |batch| - 1;
    LineSucceeds(mid, batch[n], now, f, k);
    assert GoodSocket(mid.sockets[k]);
    if mid.sockets[k].email != Nobody {
      LineHolds(mid, batch[n], now, f, k);
      if Handed(mid.sockets[k], TakeLine(mid, batch[n], now, f).sockets[k]) {
        LineHandover(mid, batch[n], now, f, k);
      }
    }
    hide TakeLine, Allowed, Inv;
  }

  /** Every user's connection stays that user's, by the same line. */
  ghost predicate SameUsers(a: map<nat, Socket>, b: map<nat, Socket>) {
    forall k :: k in a && k in b && a[k].email != Nobody ==> b[k].email == a[k].email && b[k].line == a[k].line
  }

  lemma SameUsersOn(a: map<nat, Socket>, b: map<nat, Socket>, c: map<nat, Socket>)
    requires SameUsers(a, b) && SameUsers(b, c) && a.Keys * c.Keys <= b.Keys
    ensures SameUsers(a, c)
  {
    forall k | k in a && k in c
      ensures a[k].email != Nobody ==> c[k].email == a[k].email && c[k].line == a[k].line
    {
      assert k in b;
    }
  }

  lemma {:induction false} ShowAllSameUsers(sockets: map<nat, Socket>, dumped: Time, conns: seq<Report>)
    ensures sockets.Keys <= ShowAll(sockets, dumped, conns).Keys && SameUsers(sockets, ShowAll(sockets, dumped, conns))
  {
    if conns != [] {
      var n := |conns| - 1;
      var mid := ShowAll(sockets, dumped, conns[..n]);
      ShowAllSameUsers(sockets, dumped, conns[..n]);
      assert SameUsers(mid, Show(mid, dumped, conns[n]));
      SameUsersOn(sockets, mid, Show(mid, dumped, conns[n]));
    }
  }

  lemma {:induction false} BindAllSameUsers(st: State, ids: seq<nat>)
    requires GoodSockets(st.sockets) && GoodClaims(st.claims)
    ensures SameUsers(st.sockets, BindAll(st, ids).sockets)
  {
    if ids != [] {
      var n := |ids| - 1;
      var mid := BindAll(st, ids[..n]);
      BindAllSameUsers(st, ids[..n]);
      BindAllKeeps(st, ids[..n]);
      BindNewKeeps(mid, ids[n]);
      assert SameUsers(mid.sockets, BindNew(mid, ids[n]).sockets);
      hide BindNew;
      SameUsersOn(st.sockets, mid.sockets, BindNew(mid, ids[n]).sockets);
    }
  }

  lemma DumpSameUsers(st: State, start: Time, now: Time, dump: Option<seq<Report>>)
    requires Inv(st)
    ensures SameUsers(st.sockets, TakeDump(st, start, now, dump).sockets)
  {
    if dump.Some? {
      var missed := Missed(st.sockets);
      var shown := st.(sockets := ShowAll(missed, st.dumped, dump.value), readable := true);
      var bound := BindAll(shown, Added(st.sockets, dump.value));
      ShowAllSameUsers(missed, st.dumped, dump.value);
      ShowAllKeeps(missed, st.dumped, dump.value, st.started);
      BindAllSameUsers(shown, Added(st.sockets, dump.value));
      BindAllKeeps(shown, Added(st.sockets, dump.value));
      hide ShowAll, BindAll, Added, GoodSocket, Inv;
      LostSameUsers(st.sockets, missed, shown.sockets, bound.sockets, now);
      hide Missed, Lost, SameUsers;
    }
  }

  lemma LostSameUsers(a: map<nat, Socket>, missed: map<nat, Socket>, b: map<nat, Socket>, c: map<nat, Socket>,
                      now: Time)
    requires missed == Missed(a) && missed.Keys <= b.Keys && b.Keys <= c.Keys
    requires SameUsers(missed, b) && SameUsers(b, c)
    ensures SameUsers(a, Lost(c, now))
  {
    SameUsersOn(missed, b, c);
  }

  lemma NoticeSameUsers(st: State, now: Time, r: Report)
    ensures SameUsers(st.sockets, TakeNotice(st, now, r).sockets)
  {
  }

  /** Whatever the event, a connection goes from one user to another only by a line of
      a batch: one written no later than the start and newer than the line it had, and
      only while the log's tail comes in. No dump and no notice does it. */
  lemma HandoverInTail(st: State, ev: Event, k: nat)
    requires Inv(st) && Legal(st, ev) && k in st.sockets && k in Next(st, ev).sockets
    requires Handed(st.sockets[k], Next(st, ev).sockets[k])
    ensures ev.Lines? && InTail(Tailed(st, ev.now), ev.now)
    ensures exists i :: 0 <= i < |ev.batch| && HandsOver(st.sockets[k], Next(st, ev).sockets[k], ev.batch[i],
              st.started)
  {
    match ev
    case Poll(start, now, dump) => DumpSameUsers(st, start, now, dump);
    case Notice(now, r) => NoticeSameUsers(st, now, r);
    case Lines(now, batch, fates, keep) =>
      BatchHandover(Tailed(st, now), batch, now, fates, k);
      BatchKeeps(Tailed(st, now), batch, now, fates);
      assert GoodSocket(st.sockets[k]) && GoodSocket(TakeBatch(Tailed(st, now), batch, now, fates).sockets[k]);
  }

  /** The event is a batch of lines of the log's tail. */
  predicate TailLines(st: State, ev: Event) {
    ev.Lines? && InTail(Tailed(st, ev.now), ev.now)
  }

  /** Over any stretch of a run: where a connection has another user at the end than at
      the beginning, lines of the log's tail came in. */
  lemma {:induction false} RunHandover(st: State, evs: seq<Event>, k: nat)
    requires Inv(st) && LegalRun(st, evs) && Stays(st, evs, k) && k in st.sockets
    requires Handed(st.sockets[k], After(st, evs).sockets[k])
    ensures exists i :: 0 <= i < |evs| && TailLines(After(st, evs[..i]), evs[i])
  {
    if evs != [] {
      var n := |evs| - 1;
      var mid := After(st, evs[..n]);
      RunKeeps(st, evs[..n]);
      WholeRunAttribution(st, evs[..n], k);
      StepKeeps(mid, evs[n]);
      assert GoodSocket(After(st, evs).sockets[k])
               && Succeeds(mid.sockets[k], After(st, evs).sockets[k], After(st, evs).started);
      if Handed(st.sockets[k], mid.sockets[k]) {
        RunHandover(st, evs[..n], k);
        var i :| 0 <= i < n && TailLines(After(st, evs[..n][..i]), evs[..n][i]);
        assert evs[..n][..i] == evs[..i] && evs[..n][i] == evs[i];
      } else {
        HandoverInTail(mid, evs[n], k);
        assert TailLines(After(st, evs[..n]), evs[n]);
      }
    }
  }

  lemma {:induction false} TailStays(st: State, evs: seq<Event>, i: nat)
    requires Inv(st) && LegalRun(st, evs) && st.tail != 0 && i <= |evs|
    ensures After(st, evs[..i]).tail == st.tail
    decreases i
  {
    hide Inv, Legal, Next;
    if i > 0 {
      TailStays(st, evs, i - 1);
      LegalUpTo(st, evs, i);
      assert evs[..i][..i - 1] == evs[..i - 1];
      RunKeeps(st, evs[..i - 1]);
      StepTail(After(st, evs[..i - 1]), evs[i - 1]);
    }
  }

  lemma {:induction false} LegalUpTo(st: State, evs: seq<Event>, i: nat)
    requires LegalRun(st, evs) && i <= |evs|
    ensures LegalRun(st, evs[..i])
  {
    if i < |evs| {
      LegalUpTo(st, evs[..|evs| - 1], i);
      assert evs[..|evs| - 1][..i] == evs[..i];
    } else {
      assert evs[..i] == evs;
    }
  }

  lemma StepTail(st: State, ev: Event)
    requires Inv(st) && Legal(st, ev) && st.tail != 0
    ensures Next(st, ev).tail == st.tail
  {
    match ev
    case Poll(start, now, dump) =>
      if dump.Some? {
        var shown := st.(sockets := ShowAll(Missed(st.sockets), st.dumped, dump.value), readable := true);
        ShowAllKeeps(Missed(st.sockets), st.dumped, dump.value, st.started);
        BindAllKeeps(shown, Added(st.sockets, dump.value));
      }
    case Notice(now, r) =>
    case Lines(now, batch, fates, keep) => BatchKeeps(Tailed(st, now), batch, now, fates);
  }

  /** Once the log's tail is in, attribution is final: over any stretch of a run whose
      lines come in later than that, a user's connection stays that user's or becomes
      nobody's for good. */
  lemma FinalAfterTail(st: State, evs: seq<Event>, k: nat)
    requires Inv(st) && LegalRun(st, evs) && Stays(st, evs, k) && k in st.sockets && st.sockets[k].email != Nobody
    requires st.tail != 0 && forall i :: 0 <= i < |evs| && evs[i].Lines? ==> evs[i].now - st.tail > CLAIM_WAIT
    ensures var s, t := st.sockets[k], After(st, evs).sockets[k];
            t.email == s.email || (t.disputed && t.email == Nobody)
  {
    WholeRunAttribution(st, evs, k);
    RunKeeps(st, evs);
    assert GoodSocket(After(st, evs).sockets[k]);
    if Handed(st.sockets[k], After(st, evs).sockets[k]) {
      RunHandover(st, evs, k);
      var i :| 0 <= i < |evs| && TailLines(After(st, evs[..i]), evs[i]);
      TailStays(st, evs, i);
      assert false;
    }
  }
}
