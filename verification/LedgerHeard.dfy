/** A connection the ledger keeps has its owner exactly when a line of it came in. */
module LedgerHeard {
  import opened Common
  import opened LedgerModel
  import opened LedgerRuns
  import opened LedgerLocal
  import opened LedgerOwner

  /** A line of the connection is in the batch. */
  ghost predicate HeardIn(l: Life, a: Conn, batch: seq<Line>) {
    exists i :: 0 <= i < |batch| && batch[i].conn == a && batch[i].tcp && Wrote(l, batch[i])
  }

  ghost predicate HeardOf(l: Life, a: Conn, ev: Event) {
    ev.Lines? && HeardIn(l, a, ev.batch)
  }

  ghost predicate Heard(l: Life, a: Conn, evs: seq<Event>) {
    evs != [] && (Heard(l, a, evs[..|evs| - 1]) || HeardOf(l, a, evs[|evs| - 1]))
  }

  /** No connection of the address opened between the line's writing and its intake. */
  ghost predicate Prompt(w: World, line: Line, now: Time) {
    forall j :: j in w ==> w[j].since <= line.at || w[j].since > now
  }

  /** Lines of the address come in before the next connection there opens, and what waits
      there is neither dropped nor outlived. */
  ghost predicate PromptEvent(w: World, a: Conn, st: State, ev: Event) {
    var at := Key(a, true);
    match ev
    case Poll(start, now, dump) =>
      at in TakeDump(st, start, now, dump).claims ==> !Stale(TakeDump(st, start, now, dump).claims[at], now)
    case Notice(now, r) => true
    case Lines(now, batch, fates, keep) =>
      && (forall i :: 0 <= i < |batch| && batch[i].conn == a && batch[i].tcp ==> Prompt(w, batch[i], now))
      && (|batch| == |fates| && at in TakeBatch(Tailed(st, now), batch, now, fates).claims ==> at in keep)
  }

  ghost predicate PromptRun(w: World, a: Conn, evs: seq<Event>) {
    evs == [] ||
    (var n := |evs| - 1;
     PromptRun(w, a, evs[..n]) && PromptEvent(w, a, After(EMPTY, evs[..n]), evs[n]))
  }

  // --------------------------------------------------------------- invariant

  /** The waiting line of the address is the connection's. */
  ghost predicate WaitsFor(l: Life, a: Conn, claims: map<Key, Claim>) {
    Key(a, true) in claims && Wrote(l, claims[Key(a, true)].line)
  }

  /** In the account, the connection has a user exactly when it was heard; before, while
      it is open, its line waits exactly then. */
  ghost predicate Settled(w: World, a: Conn, st: State, last: Time, k: nat, heard: bool) {
    && k in w && (heard ==> w[k].since <= last)
    && (At(st.sockets, k, a) ==> (st.sockets[k].email != Nobody <==> heard))
    && (!At(st.sockets, k, a) && heard && !ClosedBy(w[k], last) ==> WaitsFor(w[k], a, st.claims))
    && (WaitsFor(w[k], a, st.claims) ==> heard)
  }

  lemma SettledAt(w: World, a: Conn, x: State, y: State, last: Time, k: nat, heard: bool)
    requires Settled(w, a, x, last, k, heard) && SameAt(x, y, a)
    ensures Settled(w, a, y, last, k, heard)
  {
    assert At(x.sockets, k, a) <==> At(y.sockets, k, a);
  }

  lemma SettledLater(w: World, a: Conn, st: State, last: Time, now: Time, k: nat, heard: bool)
    requires Settled(w, a, st, last, k, heard) && last <= now
    ensures Settled(w, a, st, now, k, heard)
  {
  }

  lemma OneWriter(w: World, line: Line, j: nat, k: nat)
    requires Proper(w) && j in w && k in w && Wrote(w[j], line) && Wrote(w[k], line)
    ensures j == k
  {
  }

  // ------------------------------------------------------------------- lines

  /** A connection in the account that can take a prompt line is the one that wrote it. */
  lemma CoversOwn(w: World, a: Conn, st: State, now: Time, line: Line, i: nat, j: nat)
    requires Proper(w) && TrueSockets(w, a, st.sockets, now, st.started) && At(st.sockets, i, a)
    requires j in w && Wrote(w[j], line) && line.at <= now && Prompt(w, line, now)
    requires Covers(st.sockets[i], line.at)
    ensures i == j
  {
    assert TrueSocket(w, i, st.sockets[i], now, st.started);
  }

  /** A line goes to the connection that wrote it as soon as that is in the account, and
      waits until then. */
  lemma LineFinds(w: World, a: Conn, st: State, line: Line, now: Time, f: Fate, d: Dumps, j: nat)
    requires Proper(w) && Truth(w, a, st, now, d) && Allowed(st, line, now, f)
    requires line.conn == a && line.tcp && Genuine(w, line, now) && Prompt(w, line, now)
    requires j in w && Wrote(w[j], line)
    ensures At(st.sockets, j, a) ==> (f == Carry(j) && st.sockets[j].email == line.email) || f == Bound(j)
    ensures !At(st.sockets, j, a) ==> f == Wait
  {
    OnlyWaitsOrTakes(w, a, st, line, now, f, d);
    forall i | At(st.sockets, i, a) && Covers(st.sockets[i], line.at)
      ensures i == j
    {
      CoversOwn(w, a, st, now, line, i, j);
    }
    if f.Carry? || f.Bound? {
      assert At(st.sockets, f.cookie, a) && Covers(st.sockets[f.cookie], line.at);
    }
    if At(st.sockets, j, a) {
      assert TrueSocket(w, j, st.sockets[j], now, st.started);
      hide Truth, Prompt, Genuine, Proper;
      if st.sockets[j].email == Nobody {
        OnlyOwn(st, a, line, j);
      } else {
        assert CanCarry(st, j, line);
      }
    }
  }

  lemma OnlyOwn(st: State, a: Conn, line: Line, j: nat)
    requires line.conn == a && CanBind(st, j, line)
    requires forall i :: At(st.sockets, i, a) && Covers(st.sockets[i], line.at) ==> i == j
    ensures OnlyCandidate(st, j, line)
  {
    forall i | CanBind(st, i, line)
      ensures i == j
    {
      assert At(st.sockets, i, a);
    }
  }

  lemma LineSettles(w: World, a: Conn, st: State, line: Line, now: Time, f: Fate, d: Dumps, k: nat, heard: bool)
    requires Proper(w) && Truth(w, a, st, now, d) && Allowed(st, line, now, f) && line.email != Nobody
    requires line.conn == a && line.tcp && Genuine(w, line, now) && Prompt(w, line, now)
    requires Settled(w, a, st, now, k, heard)
    ensures Settled(w, a, TakeLine(st, line, now, f), now, k, heard || Wrote(w[k], line))
  {
    var j :| j in w && Wrote(w[j], line);
    LineFinds(w, a, st, line, now, f, d, j);
    assert At(st.sockets, j, a) ==> TrueSocket(w, j, st.sockets[j], now, st.started);
    assert line.at <= now;
    if k == j {
      hide Truth, Allowed, Prompt, Genuine;
      OwnSettles(w, a, st, line, now, f, k, heard);
    } else {
      if Wrote(w[k], line) {
        OneWriter(w, line, j, k);
      }
      hide Truth, Allowed, Genuine;
      OtherSettles(w, a, st, line, now, f, j, k, heard);
    }
  }

  lemma OwnSettles(w: World, a: Conn, st: State, line: Line, now: Time, f: Fate, k: nat, heard: bool)
    requires Settled(w, a, st, now, k, heard) && line.conn == a && line.tcp && line.email != Nobody
    requires Wrote(w[k], line) && line.at <= now
    requires At(st.sockets, k, a) ==> (f == Carry(k) && st.sockets[k].email == line.email) || f == Bound(k)
    requires !At(st.sockets, k, a) ==> f == Wait
    ensures Settled(w, a, TakeLine(st, line, now, f), now, k, true)
  {
  }

  lemma OtherSettles(w: World, a: Conn, st: State, line: Line, now: Time, f: Fate, j: nat, k: nat, heard: bool)
    requires Proper(w) && Settled(w, a, st, now, k, heard) && line.conn == a && line.tcp && Prompt(w, line, now)
    requires j in w && j != k && Wrote(w[j], line) && !Wrote(w[k], line) && line.at <= now
    requires At(st.sockets, j, a) ==> f == Carry(j) || f == Bound(j)
    requires !At(st.sockets, j, a) ==> f == Wait
    ensures Settled(w, a, TakeLine(st, line, now, f), now, k, heard)
  {
    assert heard ==> ClosedBy(w[k], now);
    hide Prompt, Proper;
  }

  /** A line, of this address or of another. */
  lemma LineStep(w: World, a: Conn, st: State, line: Line, now: Time, f: Fate, d: Dumps, k: nat, heard: bool)
    requires Proper(w) && Inv(st) && Truth(w, a, st, now, d) && Allowed(st, line, now, f) && line.email != Nobody
    requires line.conn == a && line.tcp ==> Genuine(w, line, now) && Prompt(w, line, now)
    requires Settled(w, a, st, now, k, heard)
    ensures Settled(w, a, TakeLine(st, line, now, f), now, k, heard
              || (line.conn == a && line.tcp && Wrote(w[k], line)))
  {
    if line.conn == a && line.tcp {
      LineSettles(w, a, st, line, now, f, d, k, heard);
    } else {
      LineElsewhere(st, line, now, f, a);
      SettledAt(w, a, st, TakeLine(st, line, now, f), now, k, heard);
    }
    hide TakeLine, Allowed, Inv, Truth, Genuine, Prompt, Proper;
  }

  lemma HeardMore(l: Life, a: Conn, batch: seq<Line>)
    requires batch != []
    ensures var n := |batch| - 1;
            HeardIn(l, a, batch) <==>
                HeardIn(l, a, batch[..n]) || (batch[n].conn == a && batch[n].tcp && Wrote(l, batch[n]))
  {
    var n := |batch| - 1;
    if i :| 0 <= i < n && batch[..n][i].conn == a && batch[..n][i].tcp && Wrote(l, batch[..n][i]) {
      assert batch[i] == batch[..n][i];
    }
    if i :| 0 <= i < n && batch[i].conn == a && batch[i].tcp && Wrote(l, batch[i]) {
      assert batch[..n][i] == batch[i];
    }
  }

  lemma {:induction false} BatchSettles(w: World, a: Conn, st: State, batch: seq<Line>, now: Time, fates: seq<Fate>,
                                        d: Dumps, k: nat, heard: bool)
    requires Proper(w) && Inv(st) && Truth(w, a, st, now, d) && |batch| == |fates| && LegalBatch(st, batch, now, fates)
    requires forall i :: 0 <= i < |batch| ==> batch[i].email != Nobody
    requires forall i :: 0 <= i < |batch| && batch[i].conn == a && batch[i].tcp ==>
               Genuine(w, batch[i], now) && Prompt(w, batch[i], now)
    requires Settled(w, a, st, now, k, heard)
    ensures Settled(w, a, TakeBatch(st, batch, now, fates), now, k, heard || HeardIn(w[k], a, batch))
  {
    if batch != [] {
      hide Inv, Truth, Proper, Allowed, TakeLine, Genuine, Prompt, Settled;
      var n := |batch| - 1;
      BatchSettles(w, a, st, batch[..n], now, fates[..n], d, k, heard);
      BatchTrue(w, a, st, batch[..n], now, fates[..n], d);
      BatchKeeps(st, batch[..n], now, fates[..n]);
      HeardMore(w[k], a, batch);
      LineStep(w, a, TakeBatch(st, batch[..n], now, fates[..n]), batch[n], now, fates[n], d, k, heard
          || HeardIn(w[k], a, batch[..n]));
      hide HeardIn;
    }
  }

  // --------------------------------------------------- a connection just seen

  /** A connection just seen, still open or closing now, takes the line that waits there
      exactly when that is its own. */
  lemma NewBinds(w: World, a: Conn, x: State, now: Time, n: nat)
    requires Proper(w) && TrueSockets(w, a, x.sockets, now, x.started) && x.dumped != 0
    requires At(x.sockets, n, a) && n in w && x.sockets[n].email == Nobody && (w[n].until == 0 || w[n].until >= now)
    requires Key(a, true) in x.claims ==> TrueClaim(w, a, x, now, x.claims[Key(a, true)])
    ensures Key(a, true) in x.claims ==>
              (OnlyCandidate(x, n, x.claims[Key(a, true)].line) <==> WaitsFor(w[n], a, x.claims))
  {
    if Key(a, true) in x.claims {
      var line := x.claims[Key(a, true)].line;
      var j :| Awaits(w, a, x, now, line, j);
      if OnlyCandidate(x, n, line) {
        TakesItsOwn(w, a, x, now, line, j, n);
      }
      if Wrote(w[n], line) {
        assert TrueSocket(w, n, x.sockets[n], now, x.started);
        forall i | At(x.sockets, i, a) && Covers(x.sockets[i], line.at)
          ensures i == n
        {
          assert TrueSocket(w, i, x.sockets[i], now, x.started);
        }
        assert CanBind(x, n, line);
        OnlyOwn(x, a, line, n);
      }
    }
  }

  /** In the account and not bound yet; all others are settled. */
  ghost predicate Unsettled(w: World, a: Conn, x: State, now: Time, n: nat, k: nat, heard: bool) {
    && k in w && n in w && At(x.sockets, n, a) && x.sockets[n].email == Nobody
    && (w[n].until == 0 || w[n].until >= now)
    && (k != n ==> Settled(w, a, x, now, k, heard))
    && (k == n ==> (heard <==> WaitsFor(w[k], a, x.claims)) && (heard ==> w[k].since <= now))
  }

  lemma NewSettles(w: World, a: Conn, x: State, now: Time, n: nat, k: nat, heard: bool)
    requires Proper(w) && TrueSockets(w, a, x.sockets, now, x.started) && x.dumped != 0
    requires Key(a, true) in x.claims ==> TrueClaim(w, a, x, now, x.claims[Key(a, true)])
    requires GoodClaims(x.claims) && Unsettled(w, a, x, now, n, k, heard)
    ensures Settled(w, a, BindNew(x, n), now, k, heard)
  {
    NewBinds(w, a, x, now, n);
    if Key(a, true) in x.claims {
      assert GoodClaim(Key(a, true), x.claims[Key(a, true)]);
      if WaitsFor(w[n], a, x.claims) && WaitsFor(w[k], a, x.claims) {
        OneWriter(w, x.claims[Key(a, true)].line, n, k);
      }
    }
    hide OnlyCandidate, Proper, TrueSocket, GoodClaims;
  }

  // ----------------------------------------------------------------- notices

  lemma NoticeSettles(w: World, a: Conn, st: State, last: Time, d: Dumps, now: Time, r: Report, k: nat, heard: bool)
    requires Proper(w) && Inv(st) && Truth(w, a, st, last, d) && Legal(st, Notice(now, r))
    requires TrueEvent(w, a, st, last, d.polled, Notice(now, r)) && Settled(w, a, st, last, k, heard)
    ensures Settled(w, a, TakeNotice(st, now, r), now, k, heard)
  {
    if r.cookie !in w {
      assert !At(st.sockets, r.cookie, a);
      NoticeElsewhere(st, now, r, a);
      SettledAt(w, a, st, TakeNotice(st, now, r), last, k, heard);
      SettledLater(w, a, TakeNotice(st, now, r), last, now, k, heard);
    } else if st.dumped == 0 {
    } else if r.cookie in st.sockets {
      KnownSettles(w, a, st, last, now, r, k, heard);
    } else {
      NewNotice(w, a, st, last, d, now, r, k, heard);
    }
    hide TakeNotice, Truth, Proper, Inv, TrueEvent;
  }

  lemma KnownSettles(w: World, a: Conn, st: State, last: Time, now: Time, r: Report, k: nat, heard: bool)
    requires Settled(w, a, st, last, k, heard) && last < now && r.cookie in st.sockets
    ensures Settled(w, a, TakeNotice(st, now, r), now, k, heard)
  {
  }

  lemma NewNotice(w: World, a: Conn, st: State, last: Time, d: Dumps, now: Time, r: Report, k: nat, heard: bool)
    requires Proper(w) && Inv(st) && Truth(w, a, st, last, d) && 0 < now && r.cookie in w && r.cookie !in st.sockets
    requires TrueEvent(w, a, st, last, d.polled, Notice(now, r)) && Settled(w, a, st, last, k, heard) && st.dumped != 0
    ensures Settled(w, a, TakeNotice(st, now, r), now, k, heard)
  {
    var come := st.(sockets := st.sockets[r.cookie := Fresh(r, st.dumped).(closedAt := now, noticed := true)]);
    NoticeSeen(w, a, st, come, last, d, now, r);
    assert TakeNotice(st, now, r) == BindNew(come, r.cookie);
    assert GoodClaims(come.claims);
    assert Unsettled(w, a, come, now, r.cookie, k, heard);
    hide BindNew, TakeNotice, Proper, Present, TrueSockets, TrueClaim, TrueEvent, Unsettled;
    NewSettles(w, a, come, now, r.cookie, k, heard);
  }

  // ------------------------------------------------------------------- dumps

  lemma DumpSettles(w: World, a: Conn, st: State, last: Time, d: Dumps, start: Time, asked: Time, now: Time,
                    conns: seq<Report>,
                    k: nat, heard: bool)
    requires Proper(w) && Inv(st) && Truth(w, a, st, last, d) && d.polled <= start && 0 < start <= now
    requires last < now && Quiet(w, last, now) && ClearDump(w, a, st, conns, start, asked, now)
    requires Settled(w, a, st, last, k, heard)
    ensures Settled(w, a, TakeDump(st, start, now, Some(conns)), now, k, heard)
  {
    var stamped := Stamped(st, start, conns);
    var shown := st.(sockets := stamped.sockets, readable := true);
    ShownTrue(w, a, st, last, d, start, asked, now, conns, stamped);
    var n := OneAdded(w, a, st, stamped, now, Dumps(asked, now));
    TakeDumpOne(st, start, now, conns, shown, a, n);
    TakenStamps(st, start, now, conns);
    QuietTrue(w, a, st, last, d, now);
    ShownSettles(w, a, st, d, start, asked, now, conns, n, k, heard);
    var taken := TakeDump(st, start, now, Some(conns));
    assert GoodClaims(stamped.claims) && stamped.dumped != 0;
    assert SameAt(stamped, shown, a);
    hide TakeDump, Stamped, ClearDump, Inv, Proper;
    if n !in st.sockets && At(shown.sockets, n, a) {
      NewSettles(w, a, stamped, now, n, k, heard);
      BindNewCongruent(stamped, shown, n, a);
      hide Truth, BindNew, Settled, GoodClaims;
      SettledAt(w, a, BindNew(stamped, n), BindNew(shown, n), now, k, heard);
      LostSettles(w, a, BindNew(shown, n), taken, now, k, heard);
    } else {
      hide Truth, BindNew, Settled, GoodClaims;
      SettledAt(w, a, stamped, shown, now, k, heard);
      LostSettles(w, a, shown, taken, now, k, heard);
    }
  }

  lemma LostSettles(w: World, a: Conn, x: State, y: State, now: Time, k: nat, heard: bool)
    requires Settled(w, a, x, now, k, heard)
    requires SameClaim(y.claims, x.claims, a) && SameSockets(y.sockets, Lost(x.sockets, now), a)
    ensures Settled(w, a, y, now, k, heard)
  {
    assert At(x.sockets, k, a) <==> At(Lost(x.sockets, now), k, a);
    assert At(y.sockets, k, a) <==> At(Lost(x.sockets, now), k, a);
  }

  /** What a dump shows, before the connection it added takes its line. */
  lemma ShownSettles(w: World, a: Conn, st: State, d: Dumps, start: Time, asked: Time, now: Time, conns: seq<Report>,
                     n: nat, k: nat, heard: bool)
    requires Proper(w) && Truth(w, a, st, now, d) && d.polled <= start && 0 < start <= now
    requires ClearDump(w, a, st, conns, start, asked, now) && Settled(w, a, st, now, k, heard)
    requires forall j :: j !in st.sockets && At(Stamped(st, start, conns).sockets, j, a) ==> j == n
    ensures var x := Stamped(st, start, conns);
            if n !in st.sockets && At(x.sockets, n, a) then Unsettled(w, a, x, now, n, k, heard)
                else Settled(w, a, x, now, k, heard)
  {
    ShownOne(w, a, st, d, start, asked, now, conns, k);
    ShownOne(w, a, st, d, start, asked, now, conns, n);
    hide ShowAll, Missed, Truth, ClearDump, Proper;
  }

  // -------------------------------------------------------------------- runs

  lemma PollSettles(w: World, a: Conn, st: State, last: Time, d: Dumps, start: Time, now: Time,
                    dump: Option<seq<Report>>,
                    k: nat, heard: bool)
    requires Proper(w) && Inv(st) && Truth(w, a, st, last, d) && Legal(st, Poll(start, now, dump))
    requires TrueEvent(w, a, st, last, d.polled, Poll(start, now, dump)) && Settled(w, a, st, last, k, heard)
    ensures Settled(w, a, TakeDump(st, start, now, dump), now, k, heard)
  {
    match dump
    case None =>
      SettledLater(w, a, st, last, now, k, heard);
    case Some(conns) =>
      var asked :| ClearDump(w, a, st, conns, start, asked, now);
      DumpSettles(w, a, st, last, d, start, asked, now, conns, k, heard);
  }

  lemma ExpireSettles(w: World, a: Conn, st: State, now: Time, d: Dumps, k: nat, heard: bool)
    requires Truth(w, a, st, now, d) && Settled(w, a, st, now, k, heard)
    requires Key(a, true) in st.claims ==> !Stale(st.claims[Key(a, true)], now)
    ensures Settled(w, a, Expire(st, now), now, k, heard)
  {
    assert At(st.sockets, k, a) ==> TrueSocket(w, k, st.sockets[k], now, st.started);
  }

  lemma KeptSettles(w: World, a: Conn, st: State, keep: set<Key>, now: Time, k: nat, heard: bool)
    requires Settled(w, a, st, now, k, heard) && (Key(a, true) in st.claims ==> Key(a, true) in keep)
    ensures Settled(w, a, st.(claims := Only(st.claims, keep)), now, k, heard)
  {
  }

  lemma StepSettles(w: World, a: Conn, st: State, last: Time, d: Dumps, ev: Event, k: nat, heard: bool)
    requires Proper(w) && Inv(st) && Truth(w, a, st, last, d) && Legal(st, ev)
    requires TrueEvent(w, a, st, last, d.polled, ev) && PromptEvent(w, a, st, ev) && Settled(w, a, st, last, k, heard)
    ensures Settled(w, a, Next(st, ev), ev.now, k, heard || HeardOf(w[k], a, ev))
  {
    match ev
    case Poll(start, now, dump) =>
      PollSettles(w, a, st, last, d, start, now, dump, k, heard);
      var d' := TakenDumpTrue(w, a, st, last, d, start, now, dump);
      hide Truth, TakeDump, Settled;
      ExpireSettles(w, a, TakeDump(st, start, now, dump), now, d', k, heard);
    case Notice(now, r) => NoticeSettles(w, a, st, last, d, now, r, k, heard);
    case Lines(now, batch, fates, keep) =>
      var begun := Tailed(st, now);
      QuietTrue(w, a, st, last, d, now);
      TruthAt(w, a, st, begun, now, d);
      SettledLater(w, a, st, last, now, k, heard);
      SettledAt(w, a, st, begun, now, k, heard);
      hide Truth, TakeBatch, Settled, Genuine, Prompt;
      BatchSettles(w, a, begun, batch, now, fates, d, k, heard);
      KeptSettles(w, a, TakeBatch(begun, batch, now, fates), keep, now, k, heard || HeardIn(w[k], a, batch));
  }

  lemma {:induction false} RunSettles(w: World, a: Conn, evs: seq<Event>, k: nat)
    requires Proper(w) && LegalRun(EMPTY, evs) && TrueRun(w, a, evs) && PromptRun(w, a, evs) && k in w
    ensures Settled(w, a, After(EMPTY, evs), LastTime(evs), k, Heard(w[k], a, evs))
  {
    if evs != [] {
      hide Inv, Truth, Legal, TrueEvent, PromptEvent, Next, Settled, Proper, HeardOf;
      var n := |evs| - 1;
      RunSettles(w, a, evs[..n], k);
      var d := RunTrue(w, a, evs[..n]);
      StepSettles(w, a, After(EMPTY, evs[..n]), LastTime(evs[..n]), d, evs[n], k, Heard(w[k], a, evs[..n]));
    }
  }

  /** Over every true and prompt run: a connection the ledger keeps has its owner as its
      user if a line of it came in, and nobody otherwise. */
  lemma {:induction false} OwnerOnceHeard(w: World, a: Conn, evs: seq<Event>, k: nat)
    requires Proper(w) && LegalRun(EMPTY, evs) && TrueRun(w, a, evs) && PromptRun(w, a, evs)
    requires At(After(EMPTY, evs).sockets, k, a)
    ensures k in w && After(EMPTY, evs).sockets[k].email == if Heard(w[k], a, evs) then w[k].owner else Nobody
  {
    var d := RunTrue(w, a, evs);
    assert TrueSocket(w, k, After(EMPTY, evs).sockets[k], LastTime(evs), After(EMPTY, evs).started);
    RunSettles(w, a, evs, k);
  }

  // ------------------------------------------------ a line that comes in too late

  const LIVES: World := map[1 := Life(User(1), 9, 10, false), 2 := Life(User(2), 11, 12, false)]
  const LATE := Line(PLACE, User(1), 9, true, false, 0)

  const BEGINS := Poll(4, 8, Some([]))
  const ENDS_1 := Notice(10, SHORT)
  const ENDS_2 := Notice(12, NEXT)
  const LATE_LINE := Lines(13, [LATE], [Wait], {Key(PLACE, true)})

  const KNOWN_1 := DUMPED.(sockets := map[1 := Fresh(SHORT, 4).(closedAt := 10, noticed := true)])
  const KNOWN_2 := DUMPED.(sockets := map[1 := Fresh(SHORT, 4).(closedAt := 10, noticed := true),
                                          2 := Fresh(NEXT, 4).(closedAt := 12, noticed := true)])

  lemma TrueOn(w: World, a: Conn, evs: seq<Event>, ev: Event, st: State, last: Time, polled: Time)
    requires LegalRun(EMPTY, evs) && TrueRun(w, a, evs)
    requires st == After(EMPTY, evs) && last == LastTime(evs) && polled == PolledAt(evs)
    requires Legal(st, ev) && TrueEvent(w, a, st, last, polled, ev)
    ensures LegalRun(EMPTY, evs + [ev]) && TrueRun(w, a, evs + [ev])
    ensures After(EMPTY, evs + [ev]) == Next(st, ev) && LastTime(evs + [ev]) == ev.now
    ensures PolledAt(evs + [ev]) == if ev.Poll? then ev.now else polled
  {
    assert (evs + [ev])[..|evs|] == evs;
    hide Legal, TrueEvent, Next;
  }

  lemma BeginsNext()
    ensures Legal(EMPTY, BEGINS) && Next(EMPTY, BEGINS) == DUMPED
  {
    assert TakeDump(EMPTY, 4, 8, Some([])) == DUMPED;
  }

  lemma BeginsTrue()
    ensures Proper(LIVES) && TrueEvent(LIVES, PLACE, EMPTY, 0, 0, BEGINS)
  {
    var none: seq<Report> := [];
    assert DumpOf(LIVES, PLACE, EMPTY, none, 4, 8, 8);
    assert FirstDumpClear(LIVES, 4, 8, 8);
    assert ClearDump(LIVES, PLACE, EMPTY, none, 4, 8, 8);
    hide DumpOf, FirstDumpClear;
  }

  lemma EndsSteps()
    ensures Legal(DUMPED, ENDS_1) && TrueEvent(LIVES, PLACE, DUMPED, 8, 8, ENDS_1) && Next(DUMPED, ENDS_1) == KNOWN_1
    ensures Legal(KNOWN_1, ENDS_2) && TrueEvent(LIVES, PLACE, KNOWN_1, 10, 8, ENDS_2)
              && Next(KNOWN_1, ENDS_2) == KNOWN_2
  {
  }

  lemma LateLineStep()
    ensures Legal(KNOWN_2, LATE_LINE) && TrueEvent(LIVES, PLACE, KNOWN_2, 12, 8, LATE_LINE)
    ensures Next(KNOWN_2, LATE_LINE).sockets == KNOWN_2.sockets && HeardOf(LIVES[1], PLACE, LATE_LINE)
  {
    var begun := KNOWN_2.(tail := 13);
    var done := begun.(claims := map[Key(PLACE, true) := Claim(LATE, 13, 1, 0)]);
    assert [LATE][..0] == [] && [Wait][..0] == [];
    assert TakeBatch(begun, [LATE][..0], 13, [Wait][..0]) == begun && LegalBatch(begun, [LATE][..0], 13, [Wait][..0]);
    assert CanBind(begun, 1, LATE) && CanBind(begun, 2, LATE);
    assert Allowed(begun, LATE, 13, Wait);
    assert TakeLine(begun, LATE, 13, Wait) == done;
    assert Wrote(LIVES[1], LATE) && Genuine(LIVES, LATE, 13);
  }

  lemma LateIsLate()
    ensures !Prompt(LIVES, LATE, LATE_LINE.now) && KNOWN_2.sockets[1].email == Nobody && At(KNOWN_2.sockets, 1, PLACE)
    ensures BEGINS.Poll? && BEGINS.now == 8 && ENDS_1.Notice? && ENDS_1.now == 10 && ENDS_2.Notice? && ENDS_2.now == 12
  {
    assert 2 in LIVES;
  }

  lemma LateRun()
    ensures var evs := [] + [BEGINS] + [ENDS_1] + [ENDS_2] + [LATE_LINE];
            && LegalRun(EMPTY, evs) && TrueRun(LIVES, PLACE, evs) && Heard(LIVES[1], PLACE, evs)
            && After(EMPTY, evs).sockets == KNOWN_2.sockets
  {
    BeginsNext();
    BeginsTrue();
    EndsSteps();
    LateLineStep();
    LateIsLate();
    var evs := [] + [BEGINS] + [ENDS_1] + [ENDS_2];
    LastHeard(LIVES[1], PLACE, evs, LATE_LINE);
    assert After(EMPTY, []) == EMPTY && LastTime([]) == 0 && PolledAt([]) == 0 && LegalRun(EMPTY, [])
             && TrueRun(LIVES, PLACE, []);
    hide Legal, TrueEvent, Next, After, LegalRun, TrueRun, LastTime, PolledAt, Heard, HeardOf, Prompt, Proper;
    hide BEGINS, ENDS_1, ENDS_2, LATE_LINE, KNOWN_1, KNOWN_2, DUMPED, EMPTY, LIVES;
    TrueOn(LIVES, PLACE, [], BEGINS, EMPTY, 0, 0);
    TrueOn(LIVES, PLACE, [] + [BEGINS], ENDS_1, DUMPED, 8, 8);
    TrueOn(LIVES, PLACE, [] + [BEGINS] + [ENDS_1], ENDS_2, KNOWN_1, 10, 8);
    TrueOn(LIVES, PLACE, evs, LATE_LINE, KNOWN_2, 12, 8);
  }

  lemma LastHeard(l: Life, a: Conn, evs: seq<Event>, ev: Event)
    requires HeardOf(l, a, ev)
    ensures Heard(l, a, evs + [ev])
  {
    assert (evs + [ev])[|evs|] == ev;
  }

  /** The line must come in before the next connection of its address opens: in this true
      run it comes in later, either connection could have written it, and the one that did
      stays nobody's. */
  lemma LateLineUnbound()
    ensures var evs := [] + [BEGINS] + [ENDS_1] + [ENDS_2] + [LATE_LINE];
            && Proper(LIVES) && LegalRun(EMPTY, evs) && TrueRun(LIVES, PLACE, evs) && Heard(LIVES[1], PLACE, evs)
            && At(After(EMPTY, evs).sockets, 1, PLACE) && After(EMPTY, evs).sockets[1].email == Nobody
            && !Prompt(LIVES, LATE, LATE_LINE.now)
  {
    BeginsTrue();
    LateIsLate();
    hide *;
    LateRun();
  }
}
