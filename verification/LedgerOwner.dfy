/** Every connection the ledger gives a user is that user's, at any address whose
    connections, notices, dumps and lines are what they should be, whatever
    happens at other addresses. */
module LedgerOwner {
  import opened Common
  import opened LedgerModel
  import opened LedgerRuns
  import opened LedgerLocal

  /** A connection of the address as it really was; until is 0 while it never closes. A
      silent one has no line that is ever taken in. */
  datatype Life = Life(owner: Email, since: Time, until: Time, silent: bool)

  type World = map<nat, Life>

  predicate ClosedBy(l: Life, t: Time) {
    l.until != 0 && l.until <= t
  }

  predicate OpenAt(l: Life, t: Time) {
    l.since <= t && !ClosedBy(l, t)
  }

  /** One connection at a time. */
  ghost predicate Proper(w: World) {
    && (forall k :: k in w ==> w[k].owner != Nobody && 0 < w[k].since && (w[k].until != 0 ==> w[k].since < w[k].until))
    && (forall j, k :: j in w && k in w && j != k ==>
          || (w[j].until != 0 && w[j].until < w[k].since)
          || (w[k].until != 0 && w[k].until < w[j].since))
  }

  /** The line is one the connection wrote. */
  predicate Wrote(l: Life, line: Line) {
    && line.email == l.owner && !line.udp && !l.silent && l.since <= line.at
    && (l.until != 0 ==> line.at <= l.until)
  }

  /** A true line, read within the time a closed connection is kept for it. */
  ghost predicate Genuine(w: World, line: Line, now: Time) {
    && line.at <= now && now - line.at <= KEEP_CLOSED - CLAIM_WAIT
    && exists j :: j in w && Wrote(w[j], line)
  }

  /** Closed before the first dump: the ledger never sees it. */
  predicate Past(l: Life, started: Time) {
    l.until != 0 && l.until < started
  }

  /** Over by then, and never heard of. */
  predicate Slipped(l: Life, now: Time) {
    l.silent && l.until != 0 && l.until <= now
  }

  /** Nothing is open at any time from the start of the first dump until it is taken in,
      but for what opened after the kernel was asked and stays open, and for what is over
      and wrote no line. */
  ghost predicate FirstDumpClear(w: World, start: Time, asked: Time, now: Time) {
    forall k :: k in w ==>
      || Past(w[k], start)
      || (w[k].since > asked && !ClosedBy(w[k], now))
      || Slipped(w[k], now)
  }

  /** The dump is what was open at a moment between its start and its intake: it may be
      out of date when it is taken in. The first one finds nothing of the address open. */
  ghost predicate DumpOf(w: World, a: Conn, st: State, conns: seq<Report>, start: Time, asked: Time, now: Time) {
    && start <= asked <= now
    && (forall i :: 0 <= i < |conns| ==> (conns[i].Address() == a <==> conns[i].cookie in w))
    && (forall k :: k in w ==> (Shows(conns, k) <==> OpenAt(w[k], asked)))
    && (st.dumped == 0 ==> forall k :: k in w ==> !OpenAt(w[k], asked))
  }

  /** The world is what the event says of the address. Times are distinct; a close is
      noticed as it happens; a dump begins after the one before it was taken in. */
  ghost predicate Faithful(w: World, a: Conn, st: State, last: Time, polled: Time, ev: Event) {
    && last < ev.now
    && (forall k :: k in w && w[k].until != 0 && last < w[k].until <= ev.now ==>
          ev.Notice? && ev.report.cookie == k && w[k].until == ev.now)
    && match ev
       case Poll(start, now, dump) =>
         polled <= start && (dump.Some? ==> exists asked :: DumpOf(w, a, st, dump.value, start, asked, now))
       case Notice(now, r) =>
         && (r.Address() == a <==> r.cookie in w)
         && (r.cookie in w ==> w[r.cookie].until == now)
       case Lines(now, batch, fates, keep) =>
         forall i :: 0 <= i < |batch| && batch[i].conn == a && batch[i].tcp ==> Genuine(w, batch[i], now)
  }

  ghost predicate ClearDump(w: World, a: Conn, st: State, conns: seq<Report>, start: Time, asked: Time, now: Time) {
    DumpOf(w, a, st, conns, start, asked, now) && (st.dumped == 0 ==> FirstDumpClear(w, start, asked, now))
  }

  /** And what was over within the first dump left no line. */
  ghost predicate TrueEvent(w: World, a: Conn, st: State, last: Time, polled: Time, ev: Event) {
    && Faithful(w, a, st, last, polled, ev)
    && (ev.Poll? && ev.dump.Some? ==> exists asked :: ClearDump(w, a, st, ev.dump.value, ev.start, asked, ev.now))
  }

  function LastTime(evs: seq<Event>): Time {
    if evs == [] then 0 else evs[|evs| - 1].now
  }

  /** When the last poll was taken in. */
  function PolledAt(evs: seq<Event>): Time {
    if evs == [] then 0
    else
      var n := |evs| - 1;
      if evs[n].Poll? then evs[n].now else PolledAt(evs[..n])
  }

  ghost predicate TrueRun(w: World, a: Conn, evs: seq<Event>) {
    evs == [] ||
    (var n := |evs| - 1;
     TrueRun(w, a, evs[..n]) && TrueEvent(w, a, After(EMPTY, evs[..n]), LastTime(evs[..n]), PolledAt(evs[..n]), evs[n]))
  }

  // --------------------------------------------------------------- invariant

  ghost predicate TrueSocket(w: World, k: nat, s: Socket, last: Time, started: Time) {
    && k in w
    && 0 < started <= s.after <= w[k].since <= last
    && s.closedAt == (if ClosedBy(w[k], last) then w[k].until else 0)
    && (s.closedAt != 0 <==> s.noticed)
    && !s.disputed && (s.email == Nobody || s.email == w[k].owner)
  }

  ghost predicate TrueSockets(w: World, a: Conn, sockets: map<nat, Socket>, last: Time, started: Time) {
    forall k :: At(sockets, k, a) ==> TrueSocket(w, k, sockets[k], last, started)
  }

  /** What was open when the kernel was asked last, and when the last poll was taken in. */
  datatype Dumps = Dumps(asked: Time, polled: Time)

  /** Every connection the ledger can know of is there until its time is over. */
  ghost predicate Present(w: World, a: Conn, sockets: map<nat, Socket>, last: Time, d: Dumps, started: Time) {
    forall k :: k in w && !Past(w[k], started)
                && (OpenAt(w[k], d.asked) || (ClosedBy(w[k], last) && (!w[k].silent || w[k].until > d.polled))) ==>
      At(sockets, k, a) || (w[k].until != 0 && d.polled > w[k].until + KEEP_CLOSED)
  }

  /** What the ledger takes for open was open when the kernel was asked last. */
  ghost predicate Met(w: World, a: Conn, sockets: map<nat, Socket>, d: Dumps) {
    forall k :: At(sockets, k, a) && k in w && sockets[k].closedAt == 0 ==> w[k].since <= d.asked
  }

  /** A line of connection j may still find it: it is there and nobody's, or still
      to be seen, or was over before the first dump and is never seen. */
  ghost predicate Awaits(w: World, a: Conn, st: State, last: Time, line: Line, j: nat) {
    && j in w && Wrote(w[j], line) && line.at <= last
    && (At(st.sockets, j, a) ==> st.sockets[j].email == Nobody)
    && (!At(st.sockets, j, a) ==> st.dumped == 0 || Past(w[j], st.started) || !ClosedBy(w[j], last))
  }

  ghost predicate TrueClaim(w: World, a: Conn, st: State, last: Time, c: Claim) {
    && c.rival == 0 && c.line.conn == a && c.line.tcp
    && c.arrived <= c.line.at + KEEP_CLOSED - CLAIM_WAIT
    && exists j :: Awaits(w, a, st, last, c.line, j)
  }

  /** The address's connections are at the address. */
  ghost predicate Homed(w: World, a: Conn, sockets: map<nat, Socket>) {
    forall k :: k in w && k in sockets ==> sockets[k].conn == a
  }

  ghost predicate Truth(w: World, a: Conn, st: State, last: Time, d: Dumps) {
    && (st.dumped == 0 <==> st.started == 0) && (st.dumped == 0 <==> d.asked == 0)
    && st.started <= st.dumped <= d.asked <= d.polled <= last
    && (st.dumped == 0 ==> st.sockets == map[])
    && Homed(w, a, st.sockets)
    && TrueSockets(w, a, st.sockets, last, st.started) && Met(w, a, st.sockets, d)
    && (st.dumped != 0 ==> Present(w, a, st.sockets, last, d, st.started))
    && (Key(a, true) in st.claims ==> TrueClaim(w, a, st, last, st.claims[Key(a, true)]))
  }

  // ----------------------------------------------------------- the main step

  /** A line that one unbound connection can take is that connection's own. */
  lemma TakesItsOwn(w: World, a: Conn, st: State, last: Time, line: Line, j: nat, k: nat)
    requires Proper(w) && TrueSockets(w, a, st.sockets, last, st.started) && st.dumped != 0
    requires line.conn == a && Awaits(w, a, st, last, line, j) && OnlyCandidate(st, k, line)
    ensures k == j && w[k].owner == line.email
  {
    assert At(st.sockets, k, a);
    assert TrueSocket(w, k, st.sockets[k], last, st.started);
    if At(st.sockets, j, a) {
      assert CanBind(st, j, line);
    }
  }

  /** A line just read still finds its connection. */
  lemma StillThere(w: World, a: Conn, st: State, now: Time, d: Dumps, line: Line)
    requires Proper(w) && Truth(w, a, st, now, d)
    requires line.conn == a && line.tcp && Genuine(w, line, now) && NoCarry(st, line)
    ensures exists j :: Awaits(w, a, st, now, line, j)
  {
    var j :| j in w && Wrote(w[j], line);
    if At(st.sockets, j, a) {
      assert TrueSocket(w, j, st.sockets[j], now, st.started);
      assert !CanCarry(st, j, line);
    } else if st.dumped != 0 && !Past(w[j], st.started) && ClosedBy(w[j], now) {
      assert false;
    }
    assert Awaits(w, a, st, now, line, j);
  }

  lemma TruthAt(w: World, a: Conn, x: State, y: State, last: Time, d: Dumps)
    requires Truth(w, a, x, last, d) && SameAt(x, y, a)
    requires y.dumped == x.dumped && y.started == x.started && (y.sockets == map[] || y.dumped != 0)
    requires Homed(w, a, y.sockets)
    ensures Truth(w, a, y, last, d)
  {
    forall k
      ensures At(x.sockets, k, a) <==> At(y.sockets, k, a)
    {
    }
    if Key(a, true) in y.claims {
      var c := x.claims[Key(a, true)];
      var j :| Awaits(w, a, x, last, c.line, j);
      assert Awaits(w, a, y, last, c.line, j);
    }
  }

  // ------------------------------------------------------------------- lines

  /** One connection changes its requests, or goes to its owner, and nothing waits
      at the address any more. */
  lemma TakenTrue(w: World, a: Conn, st: State, next: State, now: Time, d: Dumps, k: nat)
    requires Truth(w, a, st, now, d) && At(st.sockets, k, a) && k in next.sockets
    requires next == st.(sockets := st.sockets[k := next.sockets[k]], claims := st.claims - {Key(a, true)})
    requires TrueSocket(w, k, next.sockets[k], now, st.started) && next.sockets[k].conn == a
    ensures Truth(w, a, next, now, d)
  {
    forall j
      ensures At(st.sockets, j, a) <==> At(next.sockets, j, a)
    {
    }
  }

  lemma WaitTrue(w: World, a: Conn, st: State, line: Line, now: Time, d: Dumps)
    requires Proper(w) && Truth(w, a, st, now, d)
    requires line.conn == a && line.tcp && Genuine(w, line, now) && NoCarry(st, line)
    ensures Truth(w, a, TakeLine(st, line, now, Wait), now, d)
  {
    var next := TakeLine(st, line, now, Wait);
    StillThere(w, a, st, now, d, line);
    var j :| Awaits(w, a, st, now, line, j);
    assert Awaits(w, a, next, now, line, j);
  }

  lemma OnlyWaitsOrTakes(w: World, a: Conn, st: State, line: Line, now: Time, f: Fate, d: Dumps)
    requires Truth(w, a, st, now, d) && Allowed(st, line, now, f)
    requires line.conn == a && line.tcp && Genuine(w, line, now)
    ensures f.Carry? || f.Bound? || f.Wait?
  {
    forall k | k in st.sockets && st.sockets[k].conn == a
      ensures st.sockets[k].after != 0 && !st.sockets[k].disputed
    {
      assert At(st.sockets, k, a);
    }
  }

  lemma LineTrue(w: World, a: Conn, st: State, line: Line, now: Time, f: Fate, d: Dumps)
    requires Proper(w) && Inv(st) && Truth(w, a, st, now, d)
    requires line.email != Nobody && Allowed(st, line, now, f)
    requires line.conn == a && line.tcp ==> Genuine(w, line, now)
    ensures Truth(w, a, TakeLine(st, line, now, f), now, d)
  {
    var next := TakeLine(st, line, now, f);
    if line.conn != a || !line.tcp {
      LineElsewhere(st, line, now, f, a);
      LineKeeps(st, line, now, f);
      TruthAt(w, a, st, next, now, d);
    } else {
      OnlyWaitsOrTakes(w, a, st, line, now, f, d);
      if f.Wait? {
        WaitTrue(w, a, st, line, now, d);
      } else {
        var k := f.cookie;
        assert At(st.sockets, k, a);
        assert TrueSocket(w, k, st.sockets[k], now, st.started);
        if f.Bound? {
          StillThere(w, a, st, now, d, line);
          var j :| Awaits(w, a, st, now, line, j);
          TakesItsOwn(w, a, st, now, line, j, k);
        }
        TakenTrue(w, a, st, next, now, d, k);
      }
    }
  }

  lemma {:induction false} BatchTrue(w: World, a: Conn, st: State, batch: seq<Line>, now: Time, fates: seq<Fate>,
                                     d: Dumps)
    requires Proper(w) && Inv(st) && Truth(w, a, st, now, d)
    requires |batch| == |fates| && LegalBatch(st, batch, now, fates)
    requires forall i :: 0 <= i < |batch| ==> batch[i].email != Nobody
    requires forall i :: 0 <= i < |batch| && batch[i].conn == a && batch[i].tcp ==> Genuine(w, batch[i], now)
    ensures Truth(w, a, TakeBatch(st, batch, now, fates), now, d)
  {
    if batch != [] {
      var n := |batch| - 1;
      BatchTrue(w, a, st, batch[..n], now, fates[..n], d);
      BatchKeeps(st, batch[..n], now, fates[..n]);
      LineTrue(w, a, TakeBatch(st, batch[..n], now, fates[..n]), batch[n], now, fates[n], d);
    }
  }

  // --------------------------------------------------- a connection just seen

  /** Binding a connection just seen to what waits at its address. */
  lemma NewTrue(w: World, a: Conn, st: State, now: Time, k: nat)
    requires Proper(w) && GoodClaims(st.claims) && At(st.sockets, k, a) && st.dumped != 0
    requires TrueSockets(w, a, st.sockets, now, st.started)
    requires Key(a, true) in st.claims ==> TrueClaim(w, a, st, now, st.claims[Key(a, true)])
    ensures var next := BindNew(st, k);
            && next.(sockets := st.sockets, claims := st.claims) == st
            && (forall j :: At(st.sockets, j, a) <==> At(next.sockets, j, a))
            && TrueSockets(w, a, next.sockets, now, st.started)
            && (Key(a, true) in next.claims ==> TrueClaim(w, a, next, now, next.claims[Key(a, true)]))
            && next.sockets[k].missing == st.sockets[k].missing && next.sockets[k].closedAt == st.sockets[k].closedAt
            && (forall j :: j != k && j in st.sockets ==> next.sockets[j] == st.sockets[j])
  {
    var at := Key(a, true);
    if at in st.claims && OnlyCandidate(st, k, st.claims[at].line) {
      var c := st.claims[at];
      var j :| Awaits(w, a, st, now, c.line, j);
      TakesItsOwn(w, a, st, now, c.line, j, k);
      assert TrueSocket(w, k, st.sockets[k], now, st.started);
      hide OnlyCandidate, Proper;
    }
  }

  lemma BoundTrue(w: World, a: Conn, x: State, now: Time, d: Dumps, k: nat)
    requires Proper(w) && GoodClaims(x.claims) && Truth(w, a, x, now, d) && x.dumped != 0 && At(x.sockets, k, a)
    ensures Truth(w, a, BindNew(x, k), now, d)
    ensures forall j :: At(BindNew(x, k).sockets, j, a) ==>
              At(x.sockets, j, a) && BindNew(x, k).sockets[j].(email := x.sockets[j].email, line := x.sockets[j].line,
                requests := x.sockets[j].requests, disputed := x.sockets[j].disputed) == x.sockets[j]
  {
    hide Proper, GoodClaims, TrueClaim, TrueSocket;
    NewTrue(w, a, x, now, k);
    BindOnly(x, k);
    hide BindNew;
  }

  /** Binding changes nothing of a socket but whose it is. */
  lemma BindOnly(x: State, k: nat)
    ensures forall j :: j in BindNew(x, k).sockets ==>
              j in x.sockets && BindNew(x, k).sockets[j].(email := x.sockets[j].email, line := x.sockets[j].line,
                requests := x.sockets[j].requests, disputed := x.sockets[j].disputed) == x.sockets[j]
  {
  }

  /** What waits at the address goes on waiting for the same connection. */
  lemma ClaimOn(w: World, a: Conn, x: State, y: State, last: Time, now: Time)
    requires last <= now
    requires Key(a, true) in x.claims ==> TrueClaim(w, a, x, last, x.claims[Key(a, true)])
    requires Key(a, true) in y.claims ==> Key(a, true) in x.claims && y.claims[Key(a, true)] == x.claims[Key(a, true)]
    requires forall j :: j in w && At(x.sockets, j, a) ==>
               At(y.sockets, j, a) && y.sockets[j].email == x.sockets[j].email
    requires forall j :: j in w && !At(x.sockets, j, a) && At(y.sockets, j, a) ==> y.sockets[j].email == Nobody
    requires forall j :: j in w && !w[j].silent && !At(y.sockets, j, a)
                         && (x.dumped == 0 || Past(w[j], x.started) || !ClosedBy(w[j], last)) ==>
               y.dumped == 0 || Past(w[j], y.started) || !ClosedBy(w[j], now) || w[j].since > last
    ensures Key(a, true) in y.claims ==> TrueClaim(w, a, y, now, y.claims[Key(a, true)])
  {
    if Key(a, true) in y.claims {
      var c := x.claims[Key(a, true)];
      var j :| Awaits(w, a, x, last, c.line, j);
      assert Awaits(w, a, y, now, c.line, j);
    }
  }

  ghost predicate Quiet(w: World, last: Time, now: Time) {
    forall k :: k in w && w[k].until != 0 ==> !(last < w[k].until <= now)
  }

  /** Time passes and nothing closes. */
  lemma QuietTrue(w: World, a: Conn, st: State, last: Time, d: Dumps, now: Time)
    requires Truth(w, a, st, last, d) && last < now && Quiet(w, last, now)
    ensures Truth(w, a, st, now, d)
  {
    forall k | At(st.sockets, k, a)
      ensures TrueSocket(w, k, st.sockets[k], now, st.started)
    {
      assert TrueSocket(w, k, st.sockets[k], last, st.started);
    }
    ClaimOn(w, a, st, st, last, now);
  }

  /** A close notice brings a connection no dump showed. */
  lemma NoticeSeen(w: World, a: Conn, st: State, come: State, last: Time, d: Dumps, now: Time, r: Report)
    requires Proper(w) && Truth(w, a, st, last, d) && st.dumped != 0 && r.cookie !in st.sockets && r.cookie in w
    requires TrueEvent(w, a, st, last, d.polled, Notice(now, r))
    requires come == st.(sockets := st.sockets[r.cookie := Fresh(r, st.dumped).(closedAt := now, noticed := true)])
    ensures At(come.sockets, r.cookie, a) && Truth(w, a, come, now, d)
  {
    CameTrue(w, a, st, last, d, now, r);
    hide TrueSocket, Proper;
    forall j | At(come.sockets, j, a)
      ensures TrueSocket(w, j, come.sockets[j], now, st.started)
    {
      if j != r.cookie {
        assert At(st.sockets, j, a);
        TrueIn(w, j, st.sockets[j], last, st.started);
        StaysTrue(w, j, st.sockets[j], last, st.started, now);
      }
    }
    CamePresent(w, a, st, come, last, d, now, r);
    CameClaim(w, a, st, come, last, d, now, r);
    hide Present, TrueClaim;
  }

  lemma CamePresent(w: World, a: Conn, st: State, come: State, last: Time, d: Dumps, now: Time, r: Report)
    requires Truth(w, a, st, last, d) && st.dumped != 0 && r.cookie !in st.sockets && r.cookie in w
    requires TrueEvent(w, a, st, last, d.polled, Notice(now, r))
    requires come == st.(sockets := st.sockets[r.cookie := Fresh(r, st.dumped).(closedAt := now, noticed := true)])
    ensures Present(w, a, come.sockets, now, d, st.started)
  {
    hide TrueSocket, TrueClaim;
    forall j | j in w && !Past(w[j], st.started)
               && (OpenAt(w[j], d.asked) || (ClosedBy(w[j], now) && (!w[j].silent || w[j].until > d.polled)))
      ensures At(come.sockets, j, a) || (w[j].until != 0 && d.polled > w[j].until + KEEP_CLOSED)
    {
      if j != r.cookie {
        assert At(come.sockets, j, a) <==> At(st.sockets, j, a);
      }
    }
  }

  lemma CameClaim(w: World, a: Conn, st: State, come: State, last: Time, d: Dumps, now: Time, r: Report)
    requires Truth(w, a, st, last, d) && st.dumped != 0 && r.cookie !in st.sockets && r.cookie in w
    requires TrueEvent(w, a, st, last, d.polled, Notice(now, r))
    requires come == st.(sockets := st.sockets[r.cookie := Fresh(r, st.dumped).(closedAt := now, noticed := true)])
    ensures Key(a, true) in come.claims ==> TrueClaim(w, a, come, now, come.claims[Key(a, true)])
  {
    hide TrueSocket, TrueClaim;
    ClaimOn(w, a, st, come, last, now);
  }

  lemma CameTrue(w: World, a: Conn, st: State, last: Time, d: Dumps, now: Time, r: Report)
    requires Proper(w) && Truth(w, a, st, last, d) && st.dumped != 0 && r.cookie !in st.sockets && r.cookie in w
    requires TrueEvent(w, a, st, last, d.polled, Notice(now, r))
    ensures TrueSocket(w, r.cookie, Fresh(r, st.dumped).(closedAt := now, noticed := true), now, st.started)
  {
    var k := r.cookie;
    assert !OpenAt(w[k], d.asked) by {
      assert !At(st.sockets, k, a);
    }
  }

  lemma NoticedTrue(w: World, k: nat, s: Socket, last: Time, started: Time, now: Time, r: Report)
    requires Proper(w) && TrueSocket(w, k, s, last, started) && last < now && w[k].until == now
    ensures TrueSocket(w, k, Noticed(s, r, now), now, started)
    ensures Noticed(s, r, now).conn == s.conn && Noticed(s, r, now).email == s.email
  {
  }

  lemma StaysTrue(w: World, k: nat, s: Socket, last: Time, started: Time, now: Time)
    requires TrueSocket(w, k, s, last, started) && last < now && !(last < w[k].until <= now)
    ensures TrueSocket(w, k, s, now, started)
  {
  }

  /** What a close notice leaves at the address, each socket true at its time. */
  lemma KnownSockets(w: World, a: Conn, st: State, last: Time, d: Dumps, now: Time, r: Report)
    requires Proper(w) && TrueSockets(w, a, st.sockets, last, st.started) && st.dumped != 0
    requires TrueEvent(w, a, st, last, d.polled, Notice(now, r)) && At(st.sockets, r.cookie, a)
    ensures var next := TakeNotice(st, now, r).sockets;
            && TrueSockets(w, a, next, now, st.started) && next.Keys == st.sockets.Keys
            && forall j :: j in next ==> next[j].conn == st.sockets[j].conn && next[j].email == st.sockets[j].email
  {
    var k := r.cookie;
    NoticedTrue(w, k, st.sockets[k], last, st.started, now, r);
    hide Noticed, TrueSocket;
    forall j | At(st.sockets, j, a) && j != k
      ensures TrueSocket(w, j, st.sockets[j], now, st.started)
    {
      assert TrueSocket(w, j, st.sockets[j], last, st.started);
      TrueIn(w, j, st.sockets[j], last, st.started);
      StaysTrue(w, j, st.sockets[j], last, st.started, now);
    }
  }

  lemma TrueIn(w: World, k: nat, s: Socket, last: Time, started: Time)
    requires TrueSocket(w, k, s, last, started)
    ensures k in w
  {
  }

  lemma NoticeKnown(w: World, a: Conn, st: State, last: Time, d: Dumps, now: Time, r: Report)
    requires Proper(w) && Truth(w, a, st, last, d) && st.dumped != 0 && r.cookie in st.sockets
    requires TrueEvent(w, a, st, last, d.polled, Notice(now, r)) && At(st.sockets, r.cookie, a)
    ensures Truth(w, a, TakeNotice(st, now, r), now, d)
  {
    KnownSockets(w, a, st, last, d, now, r);
    var next := TakeNotice(st, now, r);
    assert next.(sockets := st.sockets) == st;
    hide TakeNotice, TrueSockets;
    ClaimOn(w, a, st, next, last, now);
  }

  lemma NoticeElsewhere(st: State, now: Time, r: Report, a: Conn)
    requires Inv(st) && 0 < now
    requires r.Address() != a && !At(st.sockets, r.cookie, a)
    ensures SameAt(st, TakeNotice(st, now, r), a)
  {
    var next := TakeNotice(st, now, r);
    if st.dumped != 0 && r.cookie !in st.sockets {
      var come := st.(sockets := st.sockets[r.cookie := Fresh(r, st.dumped).(closedAt := now, noticed := true)]);
      BindNewElsewhere(come, r.cookie, a);
      forall j
        ensures At(st.sockets, j, a) <==> At(next.sockets, j, a)
      {
        assert At(come.sockets, j, a) <==> At(next.sockets, j, a);
      }
    }
  }

  lemma NoticeHomed(w: World, a: Conn, st: State, now: Time, r: Report)
    requires Homed(w, a, st.sockets) && (st.dumped == 0 ==> st.sockets == map[]) && r.cookie !in w
    ensures var next := TakeNotice(st, now, r);
            && Homed(w, a, next.sockets) && (next.sockets == map[] || next.dumped != 0)
            && next.dumped == st.dumped && next.started == st.started
  {
    BindsNothingElse(st, now, r);
    assert TakeNotice(st, now, r).dumped == TakeNotice(st, now, r).(sockets := st.sockets, claims := st.claims).dumped;
    hide TakeNotice;
  }

  /** A notice of a connection at another address. */
  lemma StrangerTrue(w: World, a: Conn, st: State, last: Time, d: Dumps, now: Time, r: Report)
    requires Proper(w) && Inv(st) && Truth(w, a, st, last, d) && r.cookie !in w
    requires Legal(st, Notice(now, r)) && TrueEvent(w, a, st, last, d.polled, Notice(now, r))
    ensures Truth(w, a, TakeNotice(st, now, r), now, d)
  {
    assert !At(st.sockets, r.cookie, a) && Homed(w, a, st.sockets) && (st.dumped == 0 ==> st.sockets == map[]);
    QuietTrue(w, a, st, last, d, now);
    hide Truth, TakeNotice;
    NoticeElsewhere(st, now, r, a);
    NoticeHomed(w, a, st, now, r);
    TruthAt(w, a, st, TakeNotice(st, now, r), now, d);
  }

  /** A notice before the first dump changes nothing. */
  lemma NoticeEarly(w: World, a: Conn, st: State, last: Time, d: Dumps, now: Time, r: Report)
    requires Truth(w, a, st, last, d) && st.dumped == 0 && last < now
    ensures Truth(w, a, TakeNotice(st, now, r), now, d)
  {
    ClaimOn(w, a, st, st, last, now);
  }

  lemma NoticeTrue(w: World, a: Conn, st: State, last: Time, d: Dumps, now: Time, r: Report)
    requires Proper(w) && Inv(st) && Truth(w, a, st, last, d)
    requires Legal(st, Notice(now, r)) && TrueEvent(w, a, st, last, d.polled, Notice(now, r))
    ensures Truth(w, a, TakeNotice(st, now, r), now, d)
  {
    hide TakeNotice, TrueSockets, TrueClaim, Present, Proper, Inv;
    var k := r.cookie;
    if k !in w {
      StrangerTrue(w, a, st, last, d, now, r);
    } else if st.dumped == 0 {
      NoticeEarly(w, a, st, last, d, now, r);
    } else if k in st.sockets {
      NoticeKnown(w, a, st, last, d, now, r);
    } else {
      NoticeNew(w, a, st, last, d, now, r);
    }
  }

  lemma NoticeNew(w: World, a: Conn, st: State, last: Time, d: Dumps, now: Time, r: Report)
    requires Proper(w) && Inv(st) && Truth(w, a, st, last, d) && 0 < now
    requires TrueEvent(w, a, st, last, d.polled, Notice(now, r)) && r.cookie in w && r.cookie !in st.sockets
               && st.dumped != 0
    ensures Truth(w, a, TakeNotice(st, now, r), now, d)
  {
    var come := st.(sockets := st.sockets[r.cookie := Fresh(r, st.dumped).(closedAt := now, noticed := true)]);
    assert GoodClaims(come.claims) && come.dumped != 0;
    NoticeSeen(w, a, st, come, last, d, now, r);
    assert TakeNotice(st, now, r) == BindNew(come, r.cookie);
    hide Truth, TakeNotice, BindNew, TrueEvent;
    BoundTrue(w, a, come, now, d, r.cookie);
  }

  lemma BindsNothingElse(st: State, now: Time, r: Report)
    ensures TakeNotice(st, now, r).(sockets := st.sockets, claims := st.claims) == st
    ensures forall k :: k in TakeNotice(st, now, r).sockets && k != r.cookie ==>
              k in st.sockets && TakeNotice(st, now, r).sockets[k].conn == st.sockets[k].conn
  {
  }

  // ------------------------------------------------------------------- dumps

  /** What a dump shows of one connection of the address. */
  lemma ShownOne(w: World, a: Conn, st: State, d: Dumps, start: Time, asked: Time, now: Time, conns: seq<Report>,
                 k: nat)
    requires Proper(w) && Truth(w, a, st, now, d) && d.polled <= start && 0 < start <= now
    requires ClearDump(w, a, st, conns, start, asked, now)
    ensures var shown := ShowAll(Missed(st.sockets), st.dumped, conns);
            && (At(shown, k, a) ==>
                  && TrueSocket(w, k, shown[k], now, if st.dumped == 0 then start else st.started)
                  && (shown[k].closedAt == 0 ==> shown[k].missing == 0 && w[k].since <= asked))
            && (k in w && k in shown ==> shown[k].conn == a)
            && (k in w && OpenAt(w[k], asked) ==> At(shown, k, a))
            && (At(st.sockets, k, a) ==> At(shown, k, a) && shown[k].email == st.sockets[k].email)
            && (At(shown, k, a) && !At(st.sockets, k, a) ==>
                  shown[k].email == Nobody && OpenAt(w[k], asked) && !ClosedBy(w[k], now))
  {
    var missed := Missed(st.sockets);
    var shown := ShowAll(missed, st.dumped, conns);
    ShowAllKey(missed, st.dumped, conns, k);
    if k in st.sockets {
      if At(st.sockets, k, a) {
        assert TrueSocket(w, k, st.sockets[k], now, st.started);
      }
    } else if k in shown {
      var i :| 0 <= i < |conns| && conns[i].cookie == k && conns[i].Address() == shown[k].conn;
      if shown[k].conn == a {
        assert !At(st.sockets, k, a) && OpenAt(w[k], asked);
        NewlyShown(w, a, st, d, start, asked, now, k);
      }
    }
  }

  /** What a dump adds opened after the one before it, and is open still. */
  lemma NewlyShown(w: World, a: Conn, st: State, d: Dumps, start: Time, asked: Time, now: Time, k: nat)
    requires Proper(w) && Truth(w, a, st, now, d) && d.polled <= start <= asked <= now
    requires k in w && !At(st.sockets, k, a) && OpenAt(w[k], asked) && st.dumped != 0
    ensures !ClosedBy(w[k], now) && st.dumped <= w[k].since
  {
    assert !Past(w[k], st.started);
  }

  lemma ShownTrue(w: World, a: Conn, st: State, last: Time, d: Dumps, start: Time, asked: Time, now: Time,
                  conns: seq<Report>, shown: State)
    requires Proper(w) && Truth(w, a, st, last, d) && last < now && Quiet(w, last, now) && d.polled <= start
               && 0 < start <= now
    requires ClearDump(w, a, st, conns, start, asked, now)
    requires shown.sockets == ShowAll(Missed(st.sockets), st.dumped, conns) && shown.claims == st.claims
    requires shown.started == (if st.dumped == 0 then start else st.started) && shown.dumped == start
    ensures Truth(w, a, shown, now, Dumps(asked, now))
    ensures forall k :: At(shown.sockets, k, a) && shown.sockets[k].closedAt == 0 ==> shown.sockets[k].missing == 0
    ensures forall k :: At(shown.sockets, k, a) && k !in st.sockets ==> OpenAt(w[k], asked)
  {
    QuietTrue(w, a, st, last, d, now);
    ShownAll(w, a, st, d, start, asked, now, conns);
    ShownPresent(w, a, st, d, start, asked, now, conns, shown.sockets, shown.started);
    ShownClaim(w, a, st, d, start, asked, last, now, conns, shown);
    hide ShowAll, Missed, TrueSocket, ClearDump, Present, TrueClaim;
  }

  lemma ShownPresent(w: World, a: Conn, st: State, d: Dumps, start: Time, asked: Time, now: Time, conns: seq<Report>,
                     shown: map<nat, Socket>, started: Time)
    requires Truth(w, a, st, now, d) && d.polled <= start <= now && ClearDump(w, a, st, conns, start, asked, now)
    requires started == if st.dumped == 0 then start else st.started
    requires forall k :: k in w && OpenAt(w[k], asked) ==> At(shown, k, a)
    requires forall k :: At(st.sockets, k, a) ==> At(shown, k, a)
    ensures Present(w, a, shown, now, Dumps(asked, now), started)
  {
    hide TrueSocket, TrueClaim;
  }

  lemma ShownClaim(w: World, a: Conn, st: State, d: Dumps, start: Time, asked: Time, last: Time, now: Time,
                   conns: seq<Report>,
                   shown: State)
    requires Truth(w, a, st, last, d) && last < now && Quiet(w, last, now)
               && ClearDump(w, a, st, conns, start, asked, now)
    requires shown.claims == st.claims && shown.dumped == start
    requires shown.started == if st.dumped == 0 then start else st.started
    requires forall k :: At(st.sockets, k, a) ==>
               At(shown.sockets, k, a) && shown.sockets[k].email == st.sockets[k].email
    requires forall k :: At(shown.sockets, k, a) && !At(st.sockets, k, a) ==> shown.sockets[k].email == Nobody
    ensures Key(a, true) in shown.claims ==> TrueClaim(w, a, shown, now, shown.claims[Key(a, true)])
  {
    hide TrueSocket, TrueClaim, Present;
    ClaimOn(w, a, st, shown, last, now);
  }

  lemma ShownAll(w: World, a: Conn, st: State, d: Dumps, start: Time, asked: Time, now: Time, conns: seq<Report>)
    requires Proper(w) && Truth(w, a, st, now, d) && d.polled <= start && 0 < start <= now
    requires ClearDump(w, a, st, conns, start, asked, now)
    ensures var shown := ShowAll(Missed(st.sockets), st.dumped, conns);
            && TrueSockets(w, a, shown, now, if st.dumped == 0 then start else st.started)
            && (forall k :: At(shown, k, a) && shown[k].closedAt == 0 ==> shown[k].missing == 0 && w[k].since <= asked)
            && (forall k :: k in w && k in shown ==> shown[k].conn == a)
            && (forall k :: k in w && OpenAt(w[k], asked) ==> At(shown, k, a))
            && (forall k :: At(st.sockets, k, a) ==> At(shown, k, a) && shown[k].email == st.sockets[k].email)
            && (forall k :: At(shown, k, a) && !At(st.sockets, k, a) ==>
                shown[k].email == Nobody && OpenAt(w[k], asked))
  {
    var shown := ShowAll(Missed(st.sockets), st.dumped, conns);
    forall k
      ensures At(shown, k, a) ==>
                && TrueSocket(w, k, shown[k], now, if st.dumped == 0 then start else st.started)
                && (shown[k].closedAt == 0 ==> shown[k].missing == 0 && w[k].since <= asked)
      ensures k in w && k in shown ==> shown[k].conn == a
      ensures k in w && OpenAt(w[k], asked) ==> At(shown, k, a)
      ensures At(st.sockets, k, a) ==> At(shown, k, a) && shown[k].email == st.sockets[k].email
      ensures At(shown, k, a) && !At(st.sockets, k, a) ==> shown[k].email == Nobody && OpenAt(w[k], asked)
    {
      ShownOne(w, a, st, d, start, asked, now, conns, k);
    }
    hide TrueSocket, ShowAll, Missed, Truth, ClearDump, Proper;
  }

  /** The state a dump leaves, before the line of the one connection it added and
      what it lost, as far as this address is concerned. */
  function Stamped(st: State, start: Time, conns: seq<Report>): State {
    st.(sockets := ShowAll(Missed(st.sockets), st.dumped, conns), readable := true,
        started := if st.dumped == 0 then start else st.started, dumped := start)
  }

  /** At this address nothing is lost: what is open was just shown. */
  lemma NothingLost(a: Conn, sockets: map<nat, Socket>, now: Time)
    requires forall k :: At(sockets, k, a) && sockets[k].closedAt == 0 ==> sockets[k].missing == 0
    ensures SameSockets(sockets, Lost(sockets, now), a)
  {
    forall k
      ensures At(sockets, k, a) <==> At(Lost(sockets, now), k, a)
    {
    }
  }

  lemma SameChain(x: map<nat, Socket>, y: map<nat, Socket>, z: map<nat, Socket>, a: Conn)
    requires SameSockets(x, y, a) && SameSockets(y, z, a)
    ensures SameSockets(x, z, a)
  {
    forall k
      ensures At(x, k, a) <==> At(z, k, a)
    {
      assert At(x, k, a) <==> At(y, k, a);
    }
  }

  /** The address after the connection a dump added took its line. */
  lemma AddedTrue(w: World, a: Conn, x: State, now: Time, d: Dumps, k: nat)
    requires Proper(w) && GoodClaims(x.claims) && Truth(w, a, x, now, d) && x.dumped != 0 && At(x.sockets, k, a)
    requires forall j :: At(x.sockets, j, a) && x.sockets[j].closedAt == 0 ==> x.sockets[j].missing == 0
    ensures Truth(w, a, BindNew(x, k), now, d)
    ensures forall j :: At(BindNew(x, k).sockets, j, a) && BindNew(x, k).sockets[j].closedAt == 0 ==>
              BindNew(x, k).sockets[j].missing == 0
  {
    BoundTrue(w, a, x, now, d, k);
    hide Truth, BindNew, GoodClaims, Proper;
  }

  /** A dump adds at most one connection at the address: the one that is open. */
  lemma OneAdded(w: World, a: Conn, st: State, stamped: State, now: Time, d: Dumps) returns (k: nat)
    requires Proper(w) && Truth(w, a, stamped, now, d)
    requires forall j :: At(stamped.sockets, j, a) && j !in st.sockets ==> OpenAt(w[j], d.asked)
    ensures forall j :: j !in st.sockets && At(stamped.sockets, j, a) ==> j == k
  {
    if j :| j !in st.sockets && At(stamped.sockets, j, a) {
      k := j;
    } else {
      k := 0;
    }
    forall j | j !in st.sockets && At(stamped.sockets, j, a)
      ensures j == k
    {
      assert TrueSocket(w, j, stamped.sockets[j], now, stamped.started);
      assert TrueSocket(w, k, stamped.sockets[k], now, stamped.started);
    }
  }

  lemma AssembleDump(w: World, a: Conn, now: Time, d: Dumps, done: State, bound: State, taken: State)
    requires Truth(w, a, done, now, d) && SameAt(done, bound, a)
    requires forall j :: At(done.sockets, j, a) && done.sockets[j].closedAt == 0 ==> done.sockets[j].missing == 0
    requires SameClaim(taken.claims, bound.claims, a) && SameSockets(taken.sockets, Lost(bound.sockets, now), a)
    requires taken.dumped == done.dumped && taken.started == done.started && taken.dumped != 0
    requires Homed(w, a, taken.sockets)
    ensures Truth(w, a, taken, now, d)
  {
    NothingLost(a, done.sockets, now);
    SameLost(done.sockets, bound.sockets, now, a);
    SameChain(done.sockets, Lost(done.sockets, now), Lost(bound.sockets, now), a);
    SameChain(done.sockets, Lost(bound.sockets, now), taken.sockets, a);
    TruthAt(w, a, done, taken, now, d);
  }

  lemma DumpTrue(w: World, a: Conn, st: State, last: Time, d: Dumps, start: Time, asked: Time, now: Time,
                 conns: seq<Report>)
    requires Proper(w) && Inv(st) && Truth(w, a, st, last, d) && d.polled <= start && 0 < start <= now
    requires last < now && Quiet(w, last, now) && ClearDump(w, a, st, conns, start, asked, now)
    ensures Truth(w, a, TakeDump(st, start, now, Some(conns)), now, Dumps(asked, now))
  {
    var d' := Dumps(asked, now);
    var stamped := Stamped(st, start, conns);
    var shown := st.(sockets := stamped.sockets, readable := true);
    ShownTrue(w, a, st, last, d, start, asked, now, conns, stamped);
    var k := OneAdded(w, a, st, stamped, now, d');
    TakeDumpOne(st, start, now, conns, shown, a, k);
    DumpHomes(w, a, st, stamped, start, now, conns);
    var taken := TakeDump(st, start, now, Some(conns));
    TakenStamps(st, start, now, conns);
    assert Truth(w, a, stamped, now, d') && GoodClaims(stamped.claims);
    hide Truth, TakeDump, ClearDump, Inv, Homed, Proper;
    if k !in st.sockets && At(shown.sockets, k, a) {
      BindNewKeeps(stamped, k);
      AddedTrue(w, a, stamped, now, d', k);
      BindNewCongruent(stamped, shown, k, a);
      AssembleDump(w, a, now, d', BindNew(stamped, k), BindNew(shown, k), taken);
    } else {
      AssembleDump(w, a, now, d', stamped, shown, taken);
    }
  }

  lemma TakenStamps(st: State, start: Time, now: Time, conns: seq<Report>)
    requires Inv(st)
    ensures var taken := TakeDump(st, start, now, Some(conns));
            taken.dumped == start && taken.started == if st.dumped == 0 then start else st.started
    ensures GoodSockets(Stamped(st, start, conns).sockets) && GoodClaims(Stamped(st, start, conns).claims)
  {
    ShowAllKeeps(Missed(st.sockets), st.dumped, conns, st.started);
    BindAllKeeps(st.(sockets := ShowAll(Missed(st.sockets), st.dumped, conns), readable := true),
        Added(st.sockets, conns));
  }

  lemma DumpHomes(w: World, a: Conn, st: State, stamped: State, start: Time, now: Time, conns: seq<Report>)
    requires Inv(st) && stamped == Stamped(st, start, conns) && Homed(w, a, stamped.sockets)
    ensures Homed(w, a, TakeDump(st, start, now, Some(conns)).sockets)
  {
    var shown := st.(sockets := stamped.sockets, readable := true);
    ShowAllKeeps(Missed(st.sockets), st.dumped, conns, st.started);
    BindAllKeeps(shown, Added(st.sockets, conns));
    var bound := BindAll(shown, Added(st.sockets, conns));
    forall k | k in w && k in bound.sockets
      ensures bound.sockets[k].conn == a
    {
      assert Succeeds(shown.sockets[k], bound.sockets[k], st.started);
    }
  }

  lemma ExpireTrue(w: World, a: Conn, st: State, now: Time, d: Dumps)
    requires Truth(w, a, st, now, d) && d.polled == now
    ensures Truth(w, a, Expire(st, now), now, d)
  {
    var next := Expire(st, now);
    forall k
      ensures At(next.sockets, k, a) <==> At(st.sockets, k, a) && !Over(st.sockets[k], now)
    {
    }
    forall k | At(st.sockets, k, a)
      ensures TrueSocket(w, k, st.sockets[k], now, st.started)
    {
    }
    if Key(a, true) in next.claims {
      var c := st.claims[Key(a, true)];
      var j :| Awaits(w, a, st, now, c.line, j);
      assert Awaits(w, a, next, now, c.line, j);
    }
  }

  // -------------------------------------------------------------------- runs

  lemma TakenDumpTrue(w: World, a: Conn, st: State, last: Time, d: Dumps, start: Time, now: Time,
                      dump: Option<seq<Report>>)
    returns (d': Dumps)
    requires Proper(w) && Inv(st) && Truth(w, a, st, last, d) && Legal(st, Poll(start, now, dump))
    requires TrueEvent(w, a, st, last, d.polled, Poll(start, now, dump))
    ensures d'.polled == now && Truth(w, a, TakeDump(st, start, now, dump), now, d')
  {
    match dump
    case None =>
      d' := d.(polled := now);
      QuietTrue(w, a, st, last, d, now);
      PolledTrue(w, a, st, now, d);
      TruthAt(w, a, st, st.(readable := false), now, d');
    case Some(conns) =>
      var asked :| ClearDump(w, a, st, conns, start, asked, now);
      d' := Dumps(asked, now);
      DumpTrue(w, a, st, last, d, start, asked, now, conns);
  }

  lemma PolledTrue(w: World, a: Conn, st: State, now: Time, d: Dumps)
    requires Truth(w, a, st, now, d)
    ensures Truth(w, a, st, now, d.(polled := now))
  {
  }

  lemma StepTrue(w: World, a: Conn, st: State, last: Time, d: Dumps, ev: Event) returns (d': Dumps)
    requires Proper(w) && Inv(st) && Truth(w, a, st, last, d) && Legal(st, ev)
               && TrueEvent(w, a, st, last, d.polled, ev)
    ensures d'.polled == (if ev.Poll? then ev.now else d.polled) && Truth(w, a, Next(st, ev), ev.now, d')
  {
    d' := d;
    match ev
    case Poll(start, now, dump) =>
      d' := TakenDumpTrue(w, a, st, last, d, start, now, dump);
      hide Truth, TakeDump;
      ExpireTrue(w, a, TakeDump(st, start, now, dump), now, d');
    case Notice(now, r) => NoticeTrue(w, a, st, last, d, now, r);
    case Lines(now, batch, fates, keep) =>
      var begun := Tailed(st, now);
      QuietTrue(w, a, st, last, d, now);
      TruthAt(w, a, st, begun, now, d);
      BatchTrue(w, a, begun, batch, now, fates, d);
      var done := TakeBatch(begun, batch, now, fates);
      hide Truth, TakeBatch;
      DroppedTrue(w, a, done, keep, now, d);
  }

  lemma DroppedTrue(w: World, a: Conn, st: State, keep: set<Key>, now: Time, d: Dumps)
    requires Truth(w, a, st, now, d)
    ensures Truth(w, a, st.(claims := Only(st.claims, keep)), now, d)
  {
    ClaimOn(w, a, st, st.(claims := Only(st.claims, keep)), now, now);
  }

  lemma {:induction false} RunTrue(w: World, a: Conn, evs: seq<Event>) returns (d: Dumps)
    requires Proper(w) && LegalRun(EMPTY, evs) && TrueRun(w, a, evs)
    ensures d.polled == PolledAt(evs)
    ensures Inv(After(EMPTY, evs)) && Truth(w, a, After(EMPTY, evs), LastTime(evs), d)
  {
    RunKeeps(EMPTY, evs);
    d := Dumps(0, 0);
    if evs != [] {
      var n := |evs| - 1;
      hide Inv, Truth, Legal, TrueEvent, Next, Proper;
      d := RunTrue(w, a, evs[..n]);
      d := StepTrue(w, a, After(EMPTY, evs[..n]), LastTime(evs[..n]), d, evs[n]);
    }
  }

  /** After every such run, every connection of the address that has a user has
      its true owner as its user. */
  lemma {:induction false} UserIsOwner(w: World, a: Conn, evs: seq<Event>, k: nat)
    requires Proper(w) && LegalRun(EMPTY, evs) && TrueRun(w, a, evs)
    requires At(After(EMPTY, evs).sockets, k, a) && After(EMPTY, evs).sockets[k].email != Nobody
    ensures k in w && After(EMPTY, evs).sockets[k].email == w[k].owner
    ensures !After(EMPTY, evs).sockets[k].disputed
  {
    var d := RunTrue(w, a, evs);
    assert TrueSocket(w, k, After(EMPTY, evs).sockets[k], LastTime(evs), After(EMPTY, evs).started);
  }

  /** And whatever poll ends such a run, every record it tells of a connection of the
      address names the connection's true owner. */
  lemma {:induction false} RecordNamesOwner(w: World, a: Conn, evs: seq<Event>, start: Time, now: Time,
                                            dump: Option<seq<Report>>, k: nat)
    requires Proper(w) && LegalRun(EMPTY, evs + [Poll(start, now, dump)])
               && TrueRun(w, a, evs + [Poll(start, now, dump)])
    requires var taken := TakeDump(After(EMPTY, evs), start, now, dump);
               At(taken.sockets, k, a) && k in Told(taken, now)
    ensures k in w && Told(TakeDump(After(EMPTY, evs), start, now, dump), now)[k].line.email == w[k].owner
  {
    var all := evs + [Poll(start, now, dump)];
    assert all[..|evs|] == evs;
    var d := RunTrue(w, a, evs);
    var st := After(EMPTY, evs);
    d := TakenDumpTrue(w, a, st, LastTime(evs), d, start, now, dump);
    TakeDumpKeeps(st, start, now, dump);
    var taken := TakeDump(st, start, now, dump);
    assert GoodSocket(taken.sockets[k]);
    assert TrueSocket(w, k, taken.sockets[k], now, taken.started);
  }

  // -------------------------------------------- a connection within the first dump

  ghost predicate FaithfulRun(w: World, a: Conn, evs: seq<Event>) {
    evs == [] ||
    (var n := |evs| - 1;
     FaithfulRun(w, a, evs[..n]) && Faithful(w, a, After(EMPTY, evs[..n]), LastTime(evs[..n]), PolledAt(evs[..n]),
         evs[n]))
  }

  const PLACE := Conn(443, Endpoint(1, 5000))
  const SHORT := Report(1, Endpoint(2, 443), Endpoint(1, 5000), 0, 0)
  const NEXT := Report(2, Endpoint(2, 443), Endpoint(1, 5000), 0, 0)
  const WROTE := Line(PLACE, User(1), 5, true, false, 0)

  /** The first connection opens and closes while the first dump is being read, the
      second comes after. */
  const TWO_LIVES: World := map[1 := Life(User(1), 5, 7, false), 2 := Life(User(2), 9, 10, false)]

  const CLOSES := Notice(7, SHORT)
  const FIRST_DUMP := Poll(4, 8, Some([]))
  const ONE_LINE := Lines(9, [WROTE], [Wait], {Key(PLACE, true)})
  const NEXT_CLOSES := Notice(10, NEXT)

  const WAITING := State(4, 4, 9, true, map[], map[Key(PLACE, true) := Claim(WROTE, 9, 1, 0)])

  lemma RunOn(w: World, a: Conn, evs: seq<Event>, ev: Event)
    requires LegalRun(EMPTY, evs) && FaithfulRun(w, a, evs)
    requires Legal(After(EMPTY, evs), ev) && Faithful(w, a, After(EMPTY, evs), LastTime(evs), PolledAt(evs), ev)
    ensures LegalRun(EMPTY, evs + [ev]) && FaithfulRun(w, a, evs + [ev])
    ensures After(EMPTY, evs + [ev]) == Next(After(EMPTY, evs), ev) && LastTime(evs + [ev]) == ev.now
    ensures PolledAt(evs + [ev]) == if ev.Poll? then ev.now else PolledAt(evs)
  {
    assert (evs + [ev])[..|evs|] == evs;
  }

  const DUMPED := State(4, 4, 0, true, map[], map[])

  lemma ClosesStep()
    ensures Legal(EMPTY, CLOSES) && Faithful(TWO_LIVES, PLACE, EMPTY, 0, 0, CLOSES) && Next(EMPTY, CLOSES) == EMPTY
  {
  }

  lemma FirstDumpStep()
    ensures Legal(EMPTY, FIRST_DUMP) && Faithful(TWO_LIVES, PLACE, EMPTY, CLOSES.now, 0, FIRST_DUMP)
              && Next(EMPTY, FIRST_DUMP) == DUMPED
  {
    assert TakeDump(EMPTY, 4, 8, Some([])) == DUMPED;
    assert DumpOf(TWO_LIVES, PLACE, EMPTY, [], 4, 8, 8);
  }

  lemma OneLineStep()
    ensures Legal(DUMPED, ONE_LINE) && Faithful(TWO_LIVES, PLACE, DUMPED, FIRST_DUMP.now, FIRST_DUMP.now, ONE_LINE)
              && Next(DUMPED, ONE_LINE) == WAITING
  {
    var begun := DUMPED.(tail := 9);
    assert [WROTE][..0] == [] && [Wait][..0] == [];
    assert TakeBatch(begun, [WROTE][..0], 9, [Wait][..0]) == begun && LegalBatch(begun, [WROTE][..0], 9, [Wait][..0]);
    assert Allowed(begun, WROTE, 9, Wait);
    assert TakeLine(begun, WROTE, 9, Wait) == WAITING;
    assert Wrote(TWO_LIVES[1], WROTE) && Genuine(TWO_LIVES, WROTE, 9);
    assert Only(WAITING.claims, {Key(PLACE, true)}) == WAITING.claims;
  }

  lemma NextClosesStep()
    ensures Legal(WAITING, NEXT_CLOSES) && Faithful(TWO_LIVES, PLACE, WAITING, ONE_LINE.now, FIRST_DUMP.now,
              NEXT_CLOSES)
    ensures var taken := Next(WAITING, NEXT_CLOSES).sockets; At(taken, 2, PLACE) && taken[2].email == User(1)
  {
    var come := WAITING.(sockets := map[2 := Fresh(NEXT, 4).(closedAt := 10, noticed := true)]);
    assert CanBind(come, 2, WROTE) && OnlyCandidate(come, 2, WROTE);
  }

  lemma FourSteps(w: World, a: Conn, e1: Event, e2: Event, e3: Event, e4: Event, s1: State, s2: State, s3: State)
    requires !e1.Poll? && e2.Poll? && !e3.Poll?
    requires Legal(EMPTY, e1) && Faithful(w, a, EMPTY, 0, 0, e1) && Next(EMPTY, e1) == s1
    requires Legal(s1, e2) && Faithful(w, a, s1, e1.now, 0, e2) && Next(s1, e2) == s2
    requires Legal(s2, e3) && Faithful(w, a, s2, e2.now, e2.now, e3) && Next(s2, e3) == s3
    requires Legal(s3, e4) && Faithful(w, a, s3, e3.now, e2.now, e4)
    ensures var evs := [] + [e1] + [e2] + [e3] + [e4];
            LegalRun(EMPTY, evs) && FaithfulRun(w, a, evs) && After(EMPTY, evs) == Next(s3, e4)
  {
    assert After(EMPTY, []) == EMPTY && LastTime([]) == 0 && PolledAt([]) == 0 && LegalRun(EMPTY, [])
             && FaithfulRun(w, a, []);
    hide Legal, Faithful, Next, After, LegalRun, FaithfulRun, LastTime, PolledAt;
    RunOn(w, a, [], e1);
    RunOn(w, a, [] + [e1], e2);
    RunOn(w, a, [] + [e1] + [e2], e3);
    RunOn(w, a, [] + [e1] + [e2] + [e3], e4);
  }

  /** What makes the first dump unclear is the line of the first connection alone. */
  lemma WindowUnclear()
    ensures Proper(TWO_LIVES) && TWO_LIVES[2].owner == User(2)
              && (forall asked :: !FirstDumpClear(TWO_LIVES, 4, asked, 8))
    ensures FirstDumpClear(TWO_LIVES[1 := TWO_LIVES[1].(silent := true)], 4, 8, 8)
  {
    assert 1 in TWO_LIVES;
  }

  /** A connection that opens and closes while the first dump is being read, and wrote a
      line, is the one thing that must not be: in this run everything else is faithful,
      and the next connection of the address gets its user. */
  lemma FirstDumpWindow()
    ensures var evs := [] + [CLOSES] + [FIRST_DUMP] + [ONE_LINE] + [NEXT_CLOSES];
            && Proper(TWO_LIVES) && LegalRun(EMPTY, evs) && FaithfulRun(TWO_LIVES, PLACE, evs)
            && At(After(EMPTY, evs).sockets, 2, PLACE) && After(EMPTY, evs).sockets[2].email == User(1)
            && TWO_LIVES[2].owner == User(2)
    ensures forall asked :: !FirstDumpClear(TWO_LIVES, 4, asked, 8)
    ensures FirstDumpClear(TWO_LIVES[1 := TWO_LIVES[1].(silent := true)], 4, 8, 8)
  {
    ClosesStep();
    FirstDumpStep();
    OneLineStep();
    NextClosesStep();
    WindowUnclear();
    assert CLOSES.Notice? && FIRST_DUMP.Poll? && ONE_LINE.Lines?;
    hide *;
    FourSteps(TWO_LIVES, PLACE, CLOSES, FIRST_DUMP, ONE_LINE, NEXT_CLOSES, EMPTY, DUMPED, WAITING);
  }
}
