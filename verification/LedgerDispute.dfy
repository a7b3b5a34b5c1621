/** On an inbound that takes TCP and UDP, lines of two users written while a
    connection was open leave it nobody's, whichever of the lines and the first
    sight of the connection comes first. */
module LedgerDispute {
  import opened Common
  import opened LedgerModel
  import opened LedgerRuns
  import opened LedgerLocal

  // ------------------------------------------------- the lines of an address

  /** The lines of a batch that wait for a TCP connection at the address. */
  function LinesAt(batch: seq<Line>, a: Conn): seq<Line> {
    if batch == [] then []
    else
      var n := |batch| - 1;
      LinesAt(batch[..n], a) + (if batch[n].conn == a && batch[n].tcp then [batch[n]] else [])
  }

  function AllLinesAt(evs: seq<Event>, a: Conn): seq<Line> {
    if evs == [] then []
    else
      var n := |evs| - 1;
      AllLinesAt(evs[..n], a) + EventLinesAt(evs[n], a)
  }

  function EventLinesAt(ev: Event, a: Conn): seq<Line> {
    match ev
    case Lines(_, batch, _, _) => LinesAt(batch, a)
    case Poll(_, _, _) => []
    case Notice(_, _) => []
  }

  /** When the last line of a user other than the last line's was written. */
  function LastOther(ls: seq<Line>, e: Email): Time {
    if ls == [] then 0
    else if ls[|ls| - 1].email != e then ls[|ls| - 1].at
    else LastOther(ls[..|ls| - 1], e)
  }

  /** Once a line written after the time came in, so is every later one. */
  ghost predicate Settled(ls: seq<Line>, after: Time) {
    forall i, j :: 0 <= i < j < |ls| && ls[i].at > after ==> ls[j].at > after
  }

  /** Written since the connection opened for certain, and not after it closed. */
  predicate Own(s: Socket, l: Line) {
    l.at > s.after && Covers(s, l.at)
  }

  lemma {:induction false} LastOtherAfter(ls: seq<Line>, e: Email, after: Time, i: int)
    requires Settled(ls, after) && 0 <= i < |ls| && ls[i].email != e && ls[i].at > after
    ensures LastOther(ls, e) > after
  {
    var n := |ls| - 1;
    if ls[n].email == e {
      assert ls[..n][i] == ls[i];
      LastOtherAfter(ls[..n], e, after, i);
    }
  }

  // ------------------------------------------------------ what becomes of a connection

  /** A connection takes a line written no earlier than it may have opened. */
  predicate Takes(s: Socket, l: Line) {
    l.at >= s.after && Covers(s, l.at)
  }

  /** Of the lines of the address, p of them from before its first sight, the one a
      connection takes first: the last of the p, or else the first that comes later. */
  function Binding(s: Socket, ls: seq<Line>, p: nat): (c: Option<nat>)
    ensures c.Some? ==> c.value < |ls| && p <= c.value + 1 && Takes(s, ls[c.value])
  {
    if ls == [] then None
    else
      var n := |ls| - 1;
      var c := Binding(s, ls[..n], p);
      if c.Some? then c else if p <= n + 1 && Takes(s, ls[n]) then Some(n) else None
  }

  /** The line it takes follows one of another user written after it may have opened,
      with none of a third in between, or precedes one of another user's own. */
  ghost predicate Contended(s: Socket, ls: seq<Line>, c: nat)
    requires c < |ls|
  {
    || LastOther(ls[..c + 1], ls[c].email) > s.after
    || exists m :: c < m < |ls| && ls[m].email != ls[c].email && Own(s, ls[m])
  }

  /** Nobody's while it takes no line; then the line's user's, or nobody's for good
      if that line is contended. */
  ghost predicate Verdict(s: Socket, ls: seq<Line>, p: nat) {
    match Binding(s, ls, p)
    case None => s.email == Nobody && !s.disputed
    case Some(c) =>
      (s.disputed <==> Contended(s, ls, c)) && s.email == if s.disputed then Nobody else ls[c].email
  }

  // ------------------------------------------------------------- hypotheses

  /** The connection is alone at its address, closed only by notice, and neither
      it nor what waits there is forgotten; the address's inbound takes UDP too. */
  ghost predicate Alone(st: State, ls: seq<Line>, ev: Event, a: Conn, k: nat) {
    var at := Key(a, true);
    && match ev
       case Poll(start, now, dump) =>
         && (k in TakeDump(st, start, now, dump).sockets ==> k in Next(st, ev).sockets)
         && (at in TakeDump(st, start, now, dump).claims ==> !Stale(TakeDump(st, start, now, dump).claims[at], now))
         && (dump.Some? ==>
               && (forall i :: 0 <= i < |dump.value| ==> (dump.value[i].Address() == a <==> dump.value[i].cookie == k))
               && (k in st.sockets && st.sockets[k].closedAt == 0 ==> Shows(dump.value, k)))
       case Notice(now, r) =>
         && (r.Address() == a <==> r.cookie == k)
         && (forall i :: 0 <= i < |ls| ==> ls[i].at <= now)
       case Lines(now, batch, fates, keep) =>
         && (|batch| == |fates| && at in TakeBatch(Tailed(st, now), batch, now, fates).claims ==> at in keep)
         && (forall i :: 0 <= i < |batch| && batch[i].conn == a && batch[i].tcp ==> batch[i].udp)
  }

  ghost predicate AloneRun(st: State, evs: seq<Event>, a: Conn, k: nat) {
    evs == [] ||
    (var n := |evs| - 1;
     AloneRun(st, evs[..n], a, k) && Alone(After(st, evs[..n]), AllLinesAt(evs[..n], a), evs[n], a, k))
  }

  // --------------------------------------------------------------- invariant

  /** Before the connection is seen: the newest line waits, beside the time of
      the newest one of another user. */
  ghost predicate Queued(claims: map<Key, Claim>, ls: seq<Line>, a: Conn) {
    var at := Key(a, true);
    if ls == [] then at !in claims
    else
      var last := ls[|ls| - 1];
      at in claims && claims[at].line == last && claims[at].rival == LastOther(ls, last.email)
  }

  /** TCP lines of users at the address, whose inbound takes UDP too. */
  ghost predicate TwoWay(ls: seq<Line>, a: Conn) {
    forall i :: 0 <= i < |ls| ==> ls[i].conn == a && ls[i].tcp && ls[i].udp && ls[i].email != Nobody
  }

  ghost predicate Track(st: State, ls: seq<Line>, p: nat, a: Conn, k: nat) {
    && st.dumped != 0 && p <= |ls|
    && TwoWay(ls, a)
    && (forall j :: At(st.sockets, j, a) ==> j == k)
    && (k in st.sockets ==>
        Followed(st.sockets[k], ls, p, a) && (Binding(st.sockets[k], ls, p).None? ==> Queued(st.claims, ls, a)))
    && (k !in st.sockets ==> p == |ls| && Queued(st.claims, ls, a))
  }

  ghost predicate Followed(s: Socket, ls: seq<Line>, p: nat, a: Conn)
    requires p <= |ls|
  {
    && s.conn == a && s.after != 0 && (s.closedAt != 0 ==> s.noticed)
    && (forall i :: 0 <= i < p ==> Covers(s, ls[i].at))
    && Verdict(s, ls, p)
  }

  lemma TrackSame(x: State, y: State, ls: seq<Line>, p: nat, a: Conn, k: nat)
    requires Track(x, ls, p, a, k) && SameAt(x, y, a) && y.dumped != 0
    requires k in y.sockets <==> k in x.sockets
    ensures Track(y, ls, p, a, k)
  {
    forall j | At(y.sockets, j, a)
      ensures j == k
    {
      assert At(x.sockets, j, a);
    }
    if k in x.sockets { assert At(x.sockets, k, a); assert At(y.sockets, k, a); }
  }

  /** What a connection takes and who contends it depend only on when it opened and
      which lines it covers. */
  lemma {:induction false} BindingSame(s: Socket, t: Socket, ls: seq<Line>, p: nat)
    requires t.after == s.after
    requires forall i :: 0 <= i < |ls| ==> (Covers(s, ls[i].at) <==> Covers(t, ls[i].at))
    ensures Binding(s, ls, p) == Binding(t, ls, p)
    ensures forall c :: 0 <= c < |ls| ==> (Contended(s, ls, c) <==> Contended(t, ls, c))
  {
    if ls != [] {
      var n := |ls| - 1;
      assert forall i :: 0 <= i < n ==> ls[..n][i] == ls[i];
      BindingSame(s, t, ls[..n], p);
    }
  }

  /** One more line, once the connection is known. */
  lemma BindingMore(s: Socket, ls: seq<Line>, p: nat, line: Line)
    requires p <= |ls|
    ensures Binding(s, ls + [line], p) == if Binding(s, ls, p).Some? then Binding(s, ls, p)
              else if Takes(s, line) then Some(|ls|) else None
    ensures forall c :: 0 <= c < |ls| ==>
              (Contended(s, ls + [line], c) <==> Contended(s, ls, c) || (line.email != ls[c].email && Own(s, line)))
    ensures Contended(s, ls + [line], |ls|) <==> LastOther(ls, line.email) > s.after
  {
    var all := ls + [line];
    assert all[..|ls|] == ls;
    forall c | 0 <= c < |ls|
      ensures Contended(s, all, c) <==> Contended(s, ls, c) || (line.email != ls[c].email && Own(s, line))
    {
      assert all[..c + 1] == ls[..c + 1];
      assert line.email != ls[c].email && Own(s, line) ==> all[|ls|].email != all[c].email && Own(s, all[|ls|]);
      if m :| c < m < |ls| && ls[m].email != ls[c].email && Own(s, ls[m]) {
        assert all[m] == ls[m] && Own(s, all[m]);
      }
    }
    assert all[..|ls| + 1] == all;
  }

  // ------------------------------------------------------------------- lines

  lemma NothingTakes(st: State, line: Line, now: Time, f: Fate)
    requires Allowed(st, line, now, f) && line.tcp
    requires forall j :: !At(st.sockets, j, line.conn)
    ensures f == Wait
  {
    match f
    case Replay(j) => assert At(st.sockets, j, line.conn);
    case Carry(j) => assert At(st.sockets, j, line.conn);
    case Bound(j) => assert At(st.sockets, j, line.conn);
    case Contest =>
      var j :| j in st.sockets && (Contested(st, st.sockets[j], line, now) || Doubtful(st.sockets[j], line));
      assert At(st.sockets, j, line.conn);
    case Flow =>
    case Wait =>
  }

  lemma LineBefore(st: State, ls: seq<Line>, line: Line, now: Time, f: Fate, a: Conn, k: nat)
    requires Inv(st) && Track(st, ls, |ls|, a, k) && k !in st.sockets
    requires line.conn == a && line.tcp && line.udp && line.email != Nobody && Allowed(st, line, now, f)
    ensures Track(TakeLine(st, line, now, f), ls + [line], |ls| + 1, a, k)
  {
    forall j
      ensures !At(st.sockets, j, a)
    {
    }
    NothingTakes(st, line, now, f);
    QueuedMore(st.claims, ls, line, now, a);
  }

  /** A line that waits joins the queue; what it would find beside it is the last line
      of another user. */
  lemma QueuedMore(claims: map<Key, Claim>, ls: seq<Line>, line: Line, now: Time, a: Conn)
    requires Queued(claims, ls, a) && line.conn == a && line.udp
    ensures Rival(claims, line) == LastOther(ls, line.email)
    ensures Queued(claims[Key(a, true) := Waiting(claims, line, now)], ls + [line], a)
  {
    var all := ls + [line];
    assert all[..|ls|] == ls;
  }

  lemma LineSince(st: State, ls: seq<Line>, p: nat, line: Line, now: Time, f: Fate, a: Conn, k: nat)
    requires Inv(st) && Track(st, ls, p, a, k) && k in st.sockets
    requires line.conn == a && line.tcp && line.udp && line.email != Nobody && Allowed(st, line, now, f)
    ensures Track(TakeLine(st, line, now, f), ls + [line], p, a, k)
  {
    hide Inv, TakeLine, Allowed, Contended, Waiting, Rival, LastOther;
    var s := st.sockets[k];
    var next := TakeLine(st, line, now, f);
    LineDecides(st, line, now, f, a, k);
    forall j | At(next.sockets, j, a)
      ensures j == k
    {
      assert At(st.sockets, j, a);
    }
    assert TwoWay(ls + [line], a);
    if Binding(s, ls, p).None? {
      QueuedMore(st.claims, ls, line, now, a);
    }
    hide Binding, Queued, Followed, TwoWay;
    VerdictMore(s, next.sockets[k], ls, p, line, Rival(st.claims, line), a);
  }

  /** What a line makes of a connection that is followed. */
  lemma VerdictMore(s: Socket, t: Socket, ls: seq<Line>, p: nat, line: Line, rival: Time, a: Conn)
    requires p <= |ls| && Followed(s, ls, p, a)
    requires TwoWay(ls, a)
    requires t.conn == s.conn && t.after == s.after && t.closedAt == s.closedAt && t.noticed == s.noticed
    requires Binding(s, ls, p).None? ==> rival == LastOther(ls, line.email)
    requires s.disputed ==> t.disputed && t.email == Nobody
    requires s.email == Nobody && !s.disputed && !Takes(s, line) ==> t == s
    requires s.email == Nobody && !s.disputed && Takes(s, line) ==>
               (t.disputed <==> rival > s.after) && t.email == if t.disputed then Nobody else line.email
    requires s.email != Nobody ==>
               (t.disputed <==> s.email != line.email && Own(s, line))
                   && t.email == if t.disputed then Nobody else s.email
    ensures Followed(t, ls + [line], p, a)
    ensures Binding(t, ls + [line], p).None? ==>
              t == s && Binding(s, ls, p).None? && !Takes(s, line) && s.email == Nobody && !s.disputed
  {
    BindingMore(s, ls, p, line);
    BindingSame(s, t, ls + [line], p);
    hide Binding, Contended, LastOther;
  }

  /** One line at the address of a connection in the account: if the connection takes
      a line for the first time it becomes the user's, or nobody's for good if the
      last other user's line was written since it opened; a user's connection becomes
      nobody's by another user's own line and by nothing else. */
  lemma LineDecides(st: State, line: Line, now: Time, f: Fate, a: Conn, k: nat)
    requires Inv(st) && k in st.sockets && st.sockets[k].conn == a && st.sockets[k].after != 0
    requires forall j :: At(st.sockets, j, a) ==> j == k
    requires line.conn == a && line.tcp && line.udp && line.email != Nobody && Allowed(st, line, now, f)
    ensures var s, next := st.sockets[k], TakeLine(st, line, now, f);
            && next.dumped == st.dumped && k in next.sockets
            && var t := next.sockets[k];
               && t.conn == s.conn && t.after == s.after && t.closedAt == s.closedAt && t.noticed == s.noticed
               && (s.disputed ==> t.disputed && t.email == Nobody)
               && (s.email == Nobody && !s.disputed && !Takes(s, line) ==>
                     t == s && next.claims == st.claims[Key(a, true) := Waiting(st.claims, line, now)])
               && (s.email == Nobody && !s.disputed && Takes(s, line) ==>
                     (t.disputed <==> Rival(st.claims, line) > s.after)
                         && t.email == if t.disputed then Nobody else line.email)
               && (s.email != Nobody ==>
                     (t.disputed <==> s.email != line.email && Own(s, line))
                         && t.email == if t.disputed then Nobody else s.email)
    ensures forall j :: At(TakeLine(st, line, now, f).sockets, j, a) ==> At(st.sockets, j, a)
  {
    var s := st.sockets[k];
    assert GoodSocket(s) && At(st.sockets, k, a);
    forall j | j in st.sockets && st.sockets[j].conn == a
      ensures j == k
    {
      assert At(st.sockets, j, a);
    }
    if s.email == Nobody && !s.disputed && Takes(s, line) {
      assert CanBind(st, k, line) && OnlyCandidate(st, k, line);
      CarriersHere(st, line, a, k);
    } else if s.email != Nobody && s.email == line.email && Covers(s, line.at) {
      assert CanCarry(st, k, line);
    } else if s.email != Nobody && s.email != line.email && Own(s, line) {
      assert Contested(st, s, line, now);
    }
  }

  lemma CarriersHere(st: State, line: Line, a: Conn, k: nat)
    requires k in st.sockets && st.sockets[k].email != line.email && line.conn == a
    requires forall j :: At(st.sockets, j, a) ==> j == k
    ensures NoCarry(st, line)
  {
    forall j
      ensures !CanCarry(st, j, line)
    {
      if CanCarry(st, j, line) {
        assert At(st.sockets, j, a);
      }
    }
  }

  lemma {:induction false} BatchTracks(st: State, ls: seq<Line>, p: nat, batch: seq<Line>, now: Time,
                                       fates: seq<Fate>, a: Conn, k: nat)
    requires Inv(st) && Track(st, ls, p, a, k) && |batch| == |fates| && LegalBatch(st, batch, now, fates)
    requires forall i :: 0 <= i < |batch| ==> batch[i].email != Nobody
    requires forall i :: 0 <= i < |batch| && batch[i].conn == a && batch[i].tcp ==> batch[i].udp
    ensures var all := ls + LinesAt(batch, a);
            Track(TakeBatch(st, batch, now, fates), all, if k in st.sockets then p else |all|, a, k)
  {
    if batch == [] {
      assert ls + [] == ls;
    } else {
      var n := |batch| - 1;
      var mid := TakeBatch(st, batch[..n], now, fates[..n]);
      var sofar := ls + LinesAt(batch[..n], a);
      BatchTracks(st, ls, p, batch[..n], now, fates[..n], a, k);
      BatchKeeps(st, batch[..n], now, fates[..n]);
      assert ls + LinesAt(batch, a) == sofar + NewAt(batch[n], a);
      assert k in mid.sockets <==> k in st.sockets;
      hide Track, Inv, Evolved, LinesAt;
      OneTracks(mid, sofar, if k in st.sockets then p else |sofar|, batch[n], now, fates[n], a, k);
    }
  }

  function NewAt(line: Line, a: Conn): seq<Line> {
    if line.conn == a && line.tcp then [line] else []
  }

  lemma OneTracks(st: State, ls: seq<Line>, p: nat, line: Line, now: Time, f: Fate, a: Conn, k: nat)
    requires Inv(st) && Track(st, ls, p, a, k) && line.email != Nobody && Allowed(st, line, now, f)
    requires line.conn == a && line.tcp ==> line.udp
    ensures var all := ls + NewAt(line, a);
            Track(TakeLine(st, line, now, f), all, if k in st.sockets then p else |all|, a, k)
  {
    assert k !in st.sockets ==> p == |ls|;
    if line.conn == a && line.tcp {
      hide Track, Inv, Allowed, TakeLine;
      if k in st.sockets {
        LineSince(st, ls, p, line, now, f, a, k);
      } else {
        LineBefore(st, ls, line, now, f, a, k);
      }
    } else {
      assert ls + [] == ls;
      LineElsewhere(st, line, now, f, a);
      LineKeeps(st, line, now, f);
      assert TakeLine(st, line, now, f).dumped == st.dumped;
      hide Track, Inv, Allowed, TakeLine, Evolved, SameAt;
      TrackDumped(st, TakeLine(st, line, now, f), ls, p, a, k);
    }
  }

  /** A step that leaves the dumps alone and, at the address, everything. */
  lemma TrackDumped(x: State, y: State, ls: seq<Line>, p: nat, a: Conn, k: nat)
    requires Track(x, ls, p, a, k) && SameAt(x, y, a) && y.dumped == x.dumped && y.sockets.Keys == x.sockets.Keys
    ensures Track(y, ls, p, a, k)
  {
    TrackSame(x, y, ls, p, a, k);
  }

  // ------------------------------------------------------------- first sight

  /** The moment the connection comes into the account it takes the newest of the lines
      that came before, if that was written since it may have opened; and it is nobody's
      for good exactly when the last one of another user was, too. */
  lemma FirstSight(st: State, ls: seq<Line>, a: Conn, k: nat)
    requires GoodSockets(st.sockets) && GoodClaims(st.claims)
    requires st.dumped != 0 && k in st.sockets && st.sockets[k].conn == a && st.sockets[k].after != 0
    requires st.sockets[k].email == Nobody && !st.sockets[k].disputed
    requires st.sockets[k].closedAt != 0 ==> st.sockets[k].noticed
    requires forall j :: At(st.sockets, j, a) ==> j == k
    requires TwoWay(ls, a)
    requires forall i :: 0 <= i < |ls| ==> Covers(st.sockets[k], ls[i].at)
    requires Queued(st.claims, ls, a)
    ensures var s, next := st.sockets[k], BindNew(st, k).sockets[k];
            && (next.disputed <==>
                ls != [] && ls[|ls| - 1].at >= s.after && LastOther(ls, ls[|ls| - 1].email) > s.after)
            && next.email == if ls != [] && ls[|ls| - 1].at >= s.after && LastOther(ls, ls[|ls| - 1].email) <= s.after
                             then ls[|ls| - 1].email else Nobody
    ensures Track(BindNew(st, k), ls, |ls|, a, k)
  {
    hide GoodSockets, GoodClaims, Binding, Contended, LastOther;
    var s, next := st.sockets[k], BindNew(st, k);
    BindNewKeeps(st, k);
    BindsNewest(st, ls, a, k);
    hide BindNew, Evolved;
    forall j | At(next.sockets, j, a)
      ensures j == k
    {
      assert At(st.sockets, j, a);
    }
    SightVerdict(s, next.sockets[k], ls, st.claims, a);
    hide TwoWay, Followed;
  }

  /** What the newest line makes of a connection just seen. */
  lemma SightVerdict(s: Socket, t: Socket, ls: seq<Line>, claims: map<Key, Claim>, a: Conn)
    requires s.conn == a && s.after != 0 && s.email == Nobody && !s.disputed && (s.closedAt != 0 ==> s.noticed)
    requires TwoWay(ls, a) && Queued(claims, ls, a) && forall i :: 0 <= i < |ls| ==> Covers(s, ls[i].at)
    requires t == if ls == [] || !Takes(s, ls[|ls| - 1]) then s else Bind(s, claims[Key(a, true)])
    ensures Followed(t, ls, |ls|, a)
    ensures Binding(t, ls, |ls|).None? ==> t == s && (ls == [] || !Takes(s, ls[|ls| - 1]))
    ensures t.disputed <==> ls != [] && ls[|ls| - 1].at >= s.after && LastOther(ls, ls[|ls| - 1].email) > s.after
    ensures t.email == if ls != [] && ls[|ls| - 1].at >= s.after && LastOther(ls, ls[|ls| - 1].email) <= s.after
                       then ls[|ls| - 1].email else Nobody
  {
    BindingNewest(s, ls);
    BindingSame(s, t, ls, |ls|);
    assert ls != [] ==> ls[|ls| - 1].email != Nobody;
    hide LastOther, Binding, Contended, TwoWay;
  }

  /** A socket alone at its address takes the newest line if it may. */
  lemma BindsNewest(st: State, ls: seq<Line>, a: Conn, k: nat)
    requires At(st.sockets, k, a) && st.sockets[k].after != 0 && st.sockets[k].email == Nobody
               && !st.sockets[k].disputed
    requires forall j :: At(st.sockets, j, a) ==> j == k
    requires TwoWay(ls, a) && Queued(st.claims, ls, a)
    ensures BindNew(st, k)
         == if ls == [] || !Takes(st.sockets[k], ls[|ls| - 1]) then st
            else st.(sockets := st.sockets[k := Bind(st.sockets[k], st.claims[Key(a, true)])],
                claims := st.claims - {Key(a, true)})
  {
    if ls != [] {
      var last := ls[|ls| - 1];
      assert last.conn == a;
      forall j | CanBind(st, j, last)
        ensures j == k
      {
        assert At(st.sockets, j, a);
      }
    }
  }

  lemma {:induction false} BindingNone(s: Socket, ls: seq<Line>, p: nat)
    requires p > |ls|
    ensures Binding(s, ls, p).None?
  {
    if ls != [] {
      BindingNone(s, ls[..|ls| - 1], p);
    }
  }

  /** Of the lines before its first sight, a connection takes the newest or none. */
  lemma BindingNewest(s: Socket, ls: seq<Line>)
    ensures Binding(s, ls, |ls|) == if ls != [] && Takes(s, ls[|ls| - 1]) then Some(|ls| - 1) else None
    ensures ls != [] ==> (Contended(s, ls, |ls| - 1) <==> LastOther(ls, ls[|ls| - 1].email) > s.after)
  {
    if ls != [] {
      BindingNone(s, ls[..|ls| - 1], |ls|);
      assert ls[..|ls|] == ls;
    }
  }

  // -------------------------------------------------------------------- runs

  /** What a dump shows at the address, with the line of a connection it adds. */
  ghost function ShownAt(st: State, conns: seq<Report>, a: Conn, k: nat): State {
    var shown := st.(sockets := ShowAll(Missed(st.sockets), st.dumped, conns), readable := true);
    if k !in st.sockets && At(shown.sockets, k, a) then BindNew(shown, k) else shown
  }

  /** What is said of a connection survives what does not touch its lines. */
  lemma FollowedOn(s: Socket, t: Socket, ls: seq<Line>, p: nat, a: Conn)
    requires p <= |ls| && Followed(s, ls, p, a)
    requires t.conn == s.conn && t.after == s.after && t.email == s.email && t.disputed == s.disputed
    requires t.closedAt != 0 ==> t.noticed
    requires forall i :: 0 <= i < |ls| ==> (Covers(s, ls[i].at) <==> Covers(t, ls[i].at))
    ensures Followed(t, ls, p, a) && Binding(s, ls, p) == Binding(t, ls, p)
  {
    BindingSame(s, t, ls, p);
    hide Binding, Contended;
  }

  lemma ShownTracks(st: State, ls: seq<Line>, p: nat, conns: seq<Report>, a: Conn, k: nat)
    requires Inv(st) && Track(st, ls, p, a, k)
    requires forall i :: 0 <= i < |conns| ==> (conns[i].Address() == a <==> conns[i].cookie == k)
    requires k in st.sockets && st.sockets[k].closedAt == 0 ==> Shows(conns, k)
    ensures forall j :: At(ShowAll(Missed(st.sockets), st.dumped, conns), j, a) ==> j == k
    ensures ShownAt(st, conns, a, k).sockets.Keys == ShowAll(Missed(st.sockets), st.dumped, conns).Keys
    ensures Track(ShownAt(st, conns, a, k), ls, p, a, k)
    ensures k in ShownAt(st, conns, a, k).sockets ==>
              var s := ShownAt(st, conns, a, k).sockets[k];
              s.closedAt == 0 ==> s.missing == 0
  {
    var missed := Missed(st.sockets);
    var shown := st.(sockets := ShowAll(missed, st.dumped, conns), readable := true);
    forall j | At(shown.sockets, j, a)
      ensures j == k
    {
      ShowAllKey(missed, st.dumped, conns, j);
      if j in st.sockets {
        assert At(st.sockets, j, a);
      }
    }
    ShowAllKey(missed, st.dumped, conns, k);
    ShowAllKeeps(missed, st.dumped, conns, st.started);
    if k in st.sockets {
      FollowedOn(st.sockets[k], shown.sockets[k], ls, p, a);
    } else if At(shown.sockets, k, a) {
      FirstSight(shown, ls, a, k);
      BindNewKeeps(shown, k);
      FirstFresh(shown, ls, a, k);
    }
  }

  lemma FirstFresh(st: State, ls: seq<Line>, a: Conn, k: nat)
    requires GoodSockets(st.sockets) && GoodClaims(st.claims) && k in st.sockets
    ensures BindNew(st, k).sockets[k].closedAt == st.sockets[k].closedAt
              && BindNew(st, k).sockets[k].missing == st.sockets[k].missing
  {
  }

  lemma PollTracks(st: State, ls: seq<Line>, p: nat, start: Time, now: Time, conns: seq<Report>, a: Conn, k: nat)
    requires Inv(st) && Track(st, ls, p, a, k) && 0 < start <= now
    requires forall i :: 0 <= i < |conns| ==> (conns[i].Address() == a <==> conns[i].cookie == k)
    requires k in st.sockets && st.sockets[k].closedAt == 0 ==> Shows(conns, k)
    ensures Track(TakeDump(st, start, now, Some(conns)), ls, p, a, k)
  {
    ShownTracks(st, ls, p, conns, a, k);
    var shown := st.(sockets := ShowAll(Missed(st.sockets), st.dumped, conns), readable := true);
    TakeDumpOne(st, start, now, conns, shown, a, k);
    var bound := ShownAt(st, conns, a, k);
    var lost := bound.(sockets := Lost(bound.sockets, now));
    forall j | At(lost.sockets, j, a)
      ensures j == k
    {
      assert At(bound.sockets, j, a);
    }
    assert Track(lost, ls, p, a, k);
    TakeDumpKeeps(st, start, now, Some(conns));
    TrackSame(lost, TakeDump(st, start, now, Some(conns)), ls, p, a, k);
  }

  lemma NoticeTracks(st: State, ls: seq<Line>, p: nat, now: Time, r: Report, a: Conn, k: nat)
    requires Inv(st) && Track(st, ls, p, a, k) && 0 < now
    requires r.Address() == a <==> r.cookie == k
    requires forall i :: 0 <= i < |ls| ==> ls[i].at <= now
    ensures Track(TakeNotice(st, now, r), ls, p, a, k)
  {
    var next := TakeNotice(st, now, r);
    if r.cookie in st.sockets {
      forall j | At(next.sockets, j, a)
        ensures j == k
      {
        assert At(st.sockets, j, a);
      }
      if k in st.sockets {
        FollowedOn(st.sockets[k], next.sockets[k], ls, p, a);
      }
    } else {
      var seen := st.(sockets := st.sockets[r.cookie := Fresh(r, st.dumped).(closedAt := now, noticed := true)]);
      forall j | At(seen.sockets, j, a)
        ensures j == k
      {
        assert j == r.cookie || At(st.sockets, j, a);
      }
      if r.cookie == k {
        FirstSight(seen, ls, a, k);
      } else {
        BindNewKeeps(seen, r.cookie);
        BindNewElsewhere(seen, r.cookie, a);
        assert Track(seen, ls, p, a, k);
        TrackSame(seen, next, ls, p, a, k);
      }
    }
  }

  /** How many of the address's lines came in before the connection's first sight. */
  ghost function Unseen(st: State, evs: seq<Event>, a: Conn, k: nat): nat {
    if evs == [] then 0
    else
      var n := |evs| - 1;
      if k in After(st, evs[..n]).sockets then Unseen(st, evs[..n], a, k) else |AllLinesAt(evs, a)|
  }

  lemma StepTracks(st: State, ls: seq<Line>, p: nat, ev: Event, a: Conn, k: nat)
    requires Inv(st) && Track(st, ls, p, a, k) && Legal(st, ev) && Alone(st, ls, ev, a, k)
    ensures var all := ls + EventLinesAt(ev, a);
            Track(Next(st, ev), all, if k in st.sockets then p else |all|, a, k)
  {
    match ev
    case Poll(start, now, dump) =>
      assert ls + [] == ls;
      if dump.Some? {
        PollTracks(st, ls, p, start, now, dump.value, a, k);
      }
      ExpireTracks(TakeDump(st, start, now, dump), ls, p, now, a, k);
    case Notice(now, r) =>
      assert ls + [] == ls;
      NoticeTracks(st, ls, p, now, r, a, k);
    case Lines(now, batch, fates, keep) =>
      var begun := Tailed(st, now);
      TrackSame(st, begun, ls, p, a, k);
      BatchTracks(begun, ls, p, batch, now, fates, a, k);
      BatchKeeps(begun, batch, now, fates);
      var done := TakeBatch(begun, batch, now, fates);
      var all := ls + LinesAt(batch, a);
      TrackSame(done, Next(st, ev), all, if k in st.sockets then p else |all|, a, k);
  }

  lemma ExpireTracks(taken: State, ls: seq<Line>, p: nat, now: Time, a: Conn, k: nat)
    requires Track(taken, ls, p, a, k)
    requires k in taken.sockets ==> k in Expire(taken, now).sockets
    requires Key(a, true) in taken.claims ==> !Stale(taken.claims[Key(a, true)], now)
    ensures Track(Expire(taken, now), ls, p, a, k)
  {
    var next := Expire(taken, now);
    forall j | At(next.sockets, j, a)
      ensures j == k
    {
      assert At(taken.sockets, j, a);
    }
  }

  lemma {:induction false} RunTracks(st: State, evs: seq<Event>, a: Conn, k: nat)
    requires Inv(st) && Track(st, [], 0, a, k) && k !in st.sockets && LegalRun(st, evs) && AloneRun(st, evs, a, k)
    ensures Inv(After(st, evs)) && Track(After(st, evs), AllLinesAt(evs, a), Unseen(st, evs, a, k), a, k)
  {
    RunKeeps(st, evs);
    if evs != [] {
      var n := |evs| - 1;
      RunTracks(st, evs[..n], a, k);
      StepTracks(After(st, evs[..n]), AllLinesAt(evs[..n], a), Unseen(st, evs[..n], a, k), evs[n], a, k);
    }
  }

  /** Take any run, from a state in which the address has no connection and no waiting
      line, that brings one connection there and lets other addresses do anything. The
      connection ends as nobody's for good if and only if the first line it takes is
      contended; otherwise it is that line's user's, or, if it takes none, nobody's yet. */
  lemma DisputedExactly(st: State, evs: seq<Event>, a: Conn, k: nat)
    requires Inv(st) && st.dumped != 0 && LegalRun(st, evs) && AloneRun(st, evs, a, k)
    requires k !in st.sockets && Key(a, true) !in st.claims && forall m :: !At(st.sockets, m, a)
    requires k in After(st, evs).sockets
    ensures var s, ls := After(st, evs).sockets[k], AllLinesAt(evs, a);
            var c := Binding(s, ls, Unseen(st, evs, a, k));
            && (s.disputed <==> c.Some? && Contended(s, ls, c.value))
            && s.email == if c.None? || s.disputed then Nobody else ls[c.value].email
  {
    RunTracks(st, evs, a, k);
  }

  /** Lines that keep the order, two of them of different users and the connection's
      own: the first line it takes is contended. */
  lemma SettledContends(s: Socket, ls: seq<Line>, p: nat, i: nat, j: nat)
    requires Settled(ls, s.after) && p <= |ls| && i < |ls| && j < |ls| && ls[i].email != ls[j].email
    requires Own(s, ls[i]) && Own(s, ls[j]) && forall m :: 0 <= m < p ==> Covers(s, ls[m].at)
    ensures Binding(s, ls, p).Some? && Contended(s, ls, Binding(s, ls, p).value)
  {
    var first := if i >= p || i == p - 1 then i else p - 1;
    assert i < first ==> ls[first].at > s.after;
    BindingFound(s, ls, p, first);
    var c := Binding(s, ls, p).value;
    var m := if ls[i].email != ls[c].email then i else j;
    if m < c {
      var sofar := ls[..c + 1];
      assert forall n :: 0 <= n < |sofar| ==> sofar[n] == ls[n];
      LastOtherAfter(sofar, ls[c].email, s.after, m);
    }
  }

  lemma {:induction false} BindingFound(s: Socket, ls: seq<Line>, p: nat, c: nat)
    requires c < |ls| && p <= c + 1 && Takes(s, ls[c])
    ensures Binding(s, ls, p).Some?
  {
    var n := |ls| - 1;
    if c < n {
      assert ls[..n][c] == ls[c];
      BindingFound(s, ls[..n], p, c);
    }
  }

  /** If two of the address's lines are of different users, written after the connection
      can have opened and not after it closed, it ends as nobody's: wherever in the run
      the two lines and the dump or notice that first showed it came. (Lines may be
      late, but not so that one written before it opened follows one written after.) */
  lemma DisputedInEveryOrder(st: State, evs: seq<Event>, a: Conn, k: nat, i: nat, j: nat)
    requires Inv(st) && st.dumped != 0 && LegalRun(st, evs) && AloneRun(st, evs, a, k)
    requires k !in st.sockets && Key(a, true) !in st.claims && forall m :: !At(st.sockets, m, a)
    requires k in After(st, evs).sockets
    requires Settled(AllLinesAt(evs, a), After(st, evs).sockets[k].after)
    requires i < |AllLinesAt(evs, a)| && j < |AllLinesAt(evs, a)|
    requires AllLinesAt(evs, a)[i].email != AllLinesAt(evs, a)[j].email
    requires Own(After(st, evs).sockets[k], AllLinesAt(evs, a)[i])
               && Own(After(st, evs).sockets[k], AllLinesAt(evs, a)[j])
    ensures After(st, evs).sockets[k].disputed && After(st, evs).sockets[k].email == Nobody
  {
    RunTracks(st, evs, a, k);
    SettledContends(After(st, evs).sockets[k], AllLinesAt(evs, a), Unseen(st, evs, a, k), i, j);
  }

  /** The two lines alone, in either order, are always such a run's lines. */
  lemma TwoLinesSettled(l: Line, m: Line, after: Time)
    requires l.at > after && m.at > after
    ensures Settled([l, m], after) && Settled([m, l], after)
  {
  }

  // ------------------------------------------------- a late line can hide a dispute

  const HERE := Conn(443, Endpoint(1, 5000))
  const SEEN := Report(1, Endpoint(2, 443), Endpoint(1, 5000), 0, 0)

  function By(name: nat, at: Time): Line {
    Line(HERE, User(name), at, true, true, 0)
  }

  /** Lines of two users at 10 and at 12, then a late one of a third from before the
      connection, then one of the first user again. */
  const FOUR := [] + [By(1, 10)] + [By(2, 12)] + [By(3, 5)] + [By(1, 20)]
  const ALL_WAIT := [] + [Wait] + [Wait] + [Wait] + [Wait]

  /** Two empty dumps, so that what comes next opened after 7. */
  const OPENING := [] + [Poll(3, 3, Some([]))] + [Poll(7, 7, Some([]))]
  const OPENED := State(7, 3, 0, true, map[], map[])

  const LATE_LINES := Lines(21, FOUR, ALL_WAIT, {Key(HERE, true)})
  const SHOWN := Notice(22, SEEN)

  /** The waiting lines of the address once the four lines came in. */
  const QUEUED := map[Key(HERE, true) := Claim(By(1, 20), 21, 1, 5)]

  lemma BatchOn(st: State, batch: seq<Line>, now: Time, fates: seq<Fate>, line: Line, f: Fate)
    requires |batch| == |fates| && LegalBatch(st, batch, now, fates)
               && Allowed(TakeBatch(st, batch, now, fates), line, now, f)
    ensures |batch + [line]| == |fates + [f]| && LegalBatch(st, batch + [line], now, fates + [f])
    ensures TakeBatch(st, batch + [line], now, fates + [f]) == TakeLine(TakeBatch(st, batch, now, fates), line, now, f)
  {
    assert (batch + [line])[..|batch|] == batch && (fates + [f])[..|fates|] == fates;
    hide Allowed, TakeLine;
  }

  lemma RunOn(st: State, evs: seq<Event>, ev: Event)
    requires LegalRun(st, evs) && Legal(After(st, evs), ev)
    ensures LegalRun(st, evs + [ev]) && After(st, evs + [ev]) == Next(After(st, evs), ev)
  {
    assert (evs + [ev])[..|evs|] == evs;
    hide Legal, Next;
  }

  lemma AloneOn(st: State, evs: seq<Event>, ev: Event, a: Conn, k: nat)
    requires AloneRun(st, evs, a, k) && Alone(After(st, evs), AllLinesAt(evs, a), ev, a, k)
    ensures AloneRun(st, evs + [ev], a, k) && AllLinesAt(evs + [ev], a) == AllLinesAt(evs, a) + EventLinesAt(ev, a)
  {
    assert (evs + [ev])[..|evs|] == evs;
    hide Alone, EventLinesAt, After;
  }

  lemma Opens()
    ensures LegalRun(EMPTY, OPENING) && After(EMPTY, OPENING) == OPENED && Inv(OPENED)
  {
    var mid := State(3, 3, 0, true, map[], map[]);
    assert TakeDump(EMPTY, 3, 3, Some([])) == mid && Next(EMPTY, Poll(3, 3, Some([]))) == mid;
    assert TakeDump(mid, 7, 7, Some([])) == OPENED && Next(mid, Poll(7, 7, Some([]))) == OPENED;
    RunOn(EMPTY, [], Poll(3, 3, Some([])));
    RunOn(EMPTY, [] + [Poll(3, 3, Some([]))], Poll(7, 7, Some([])));
  }

  /** Without a socket of the address a line waits. */
  lemma Waits(st: State, line: Line)
    requires st.sockets == map[] && line.tcp
    ensures Allowed(st, line, 21, Wait)
    ensures TakeLine(st, line, 21, Wait) == st.(claims := st.claims[Key(line.conn, true) := Waiting(st.claims, line,
              21)])
  {
  }

  lemma FourWait()
    ensures var st := OPENED.(tail := 21);
            LegalBatch(st, FOUR, 21, ALL_WAIT) && TakeBatch(st, FOUR, 21, ALL_WAIT) == st.(claims := QUEUED)
  {
    var st, at := OPENED.(tail := 21), Key(HERE, true);
    var s1 := st.(claims := map[at := Claim(By(1, 10), 21, 1, 0)]);
    var s2 := st.(claims := map[at := Claim(By(2, 12), 21, 1, 10)]);
    var s3 := st.(claims := map[at := Claim(By(3, 5), 21, 1, 12)]);
    Waits(st, By(1, 10));
    Waits(s1, By(2, 12));
    Waits(s2, By(3, 5));
    Waits(s3, By(1, 20));
    assert LegalBatch(st, [], 21, []) && TakeBatch(st, [], 21, []) == st;
    hide Allowed, TakeLine, LegalBatch, TakeBatch;
    BatchOn(st, [], 21, [], By(1, 10), Wait);
    BatchOn(st, [] + [By(1, 10)], 21, [] + [Wait], By(2, 12), Wait);
    BatchOn(st, [] + [By(1, 10)] + [By(2, 12)], 21, [] + [Wait] + [Wait], By(3, 5), Wait);
    BatchOn(st, [] + [By(1, 10)] + [By(2, 12)] + [By(3, 5)], 21, [] + [Wait] + [Wait] + [Wait], By(1, 20), Wait);
  }

  const HELD := State(7, 3, 21, true, map[], QUEUED)

  lemma AllHere(ls: seq<Line>, line: Line)
    requires LinesAt(ls, HERE) == ls && line.conn == HERE && line.tcp
    ensures LinesAt(ls + [line], HERE) == ls + [line]
  {
    assert (ls + [line])[..|ls|] == ls;
  }

  lemma FourHere()
    ensures LinesAt(FOUR, HERE) == FOUR
  {
    AllHere([], By(1, 10));
    AllHere([] + [By(1, 10)], By(2, 12));
    AllHere([] + [By(1, 10)] + [By(2, 12)], By(3, 5));
    AllHere([] + [By(1, 10)] + [By(2, 12)] + [By(3, 5)], By(1, 20));
  }

  lemma LateLinesStep()
    ensures Legal(OPENED, LATE_LINES) && Next(OPENED, LATE_LINES) == HELD
    ensures Alone(OPENED, [], LATE_LINES, HERE, 1) && EventLinesAt(LATE_LINES, HERE) == FOUR
  {
    FourWait();
    FourHere();
    assert Only(QUEUED, {Key(HERE, true)}) == QUEUED && |QUEUED| == 1;
    hide LegalBatch, TakeBatch, LinesAt, Only;
  }

  lemma ShownStep()
    ensures Legal(HELD, SHOWN) && Alone(HELD, FOUR, SHOWN, HERE, 1) && EventLinesAt(SHOWN, HERE) == []
    ensures var next := Next(HELD, SHOWN).sockets;
            && 1 in next && next[1].after == 7 && next[1].closedAt == 22
            && next[1].email == User(1) && !next[1].disputed
  {
    var come := HELD.(sockets := map[1 := Fresh(SEEN, 7).(closedAt := 22, noticed := true)]);
    assert CanBind(come, 1, By(1, 20)) && OnlyCandidate(come, 1, By(1, 20));
  }

  /** From the empty ledger: two dumps, the four lines, and the notice that shows the
      connection. It meets all that DisputedInEveryOrder asks but the order: the lines of
      two users at 10 and 12 are its own, and yet it is the first user's. */
  lemma LateLineHides()
    ensures LegalRun(EMPTY, OPENING) && After(EMPTY, OPENING) == OPENED
    ensures var evs := [] + [LATE_LINES] + [SHOWN];
            && Inv(OPENED) && LegalRun(OPENED, evs) && AloneRun(OPENED, evs, HERE, 1) && AllLinesAt(evs, HERE) == FOUR
            && 1 in After(OPENED, evs).sockets
            && var s := After(OPENED, evs).sockets[1];
               && Own(s, FOUR[0]) && Own(s, FOUR[1]) && FOUR[0].email != FOUR[1].email
               && !Settled(FOUR, s.after) && s.email == User(1) && !s.disputed
  {
    Opens();
    LateLinesStep();
    ShownStep();
    assert FOUR + [] == FOUR && FOUR[1].at > 7 && FOUR[2].at <= 7;
    assert LegalRun(OPENED, []) && AloneRun(OPENED, [], HERE, 1) && AllLinesAt([], HERE) == [] && [] + FOUR == FOUR;
    hide LegalRun, AloneRun, AllLinesAt, After, Legal, Alone, Next, EventLinesAt, LATE_LINES, SHOWN, OPENING, Inv;
    RunOn(OPENED, [], LATE_LINES);
    AloneOn(OPENED, [], LATE_LINES, HERE, 1);
    RunOn(OPENED, [] + [LATE_LINES], SHOWN);
    AloneOn(OPENED, [] + [LATE_LINES], SHOWN, HERE, 1);
  }
}
