/** No request is counted twice: for every user, the requests told of ended
    connections and those still held never exceed the user's lines taken in. */
module LedgerRequests {
  import opened Common
  import opened LedgerModel
  import opened LedgerRuns

  function SocketLoads(sockets: map<nat, Socket>, e: Email): map<nat, nat> {
    map k | k in sockets :: if sockets[k].email == e then sockets[k].requests else 0
  }

  function ClaimLoads(claims: map<Key, Claim>, e: Email): map<Key, nat> {
    map at | at in claims :: if claims[at].line.email == e then claims[at].requests else 0
  }

  /** The requests of a user that sockets and waiting claims hold. */
  ghost function Held(st: State, e: Email): nat {
    Total(SocketLoads(st.sockets, e)) + Total(ClaimLoads(st.claims, e))
  }

  function ToldLoads(told: map<nat, Ended>, e: Email): map<nat, nat> {
    map k | k in told :: if told[k].line.email == e then told[k].requests else 0
  }

  function LinesOf(batch: seq<Line>, e: Email): nat {
    if batch == [] then 0
    else LinesOf(batch[..|batch| - 1], e) + (if batch[|batch| - 1].email == e then 1 else 0)
  }

  // ----------------------------------------------------------- single steps

  lemma SocketLoadUpdate(sockets: map<nat, Socket>, k: nat, s: Socket, e: Email)
    ensures Total(SocketLoads(sockets[k := s], e))
         == Total(SocketLoads(sockets, e))
          - (if k in sockets && sockets[k].email == e then sockets[k].requests else 0)
          + (if s.email == e then s.requests else 0)
  {
    TotalUpdate(SocketLoads(sockets, e), k, if s.email == e then s.requests else 0);
    assert SocketLoads(sockets[k := s], e) == SocketLoads(sockets, e)[k := if s.email == e then s.requests else 0];
  }

  lemma ClaimLoadUpdate(claims: map<Key, Claim>, at: Key, c: Claim, e: Email)
    ensures Total(ClaimLoads(claims[at := c], e))
         == Total(ClaimLoads(claims, e))
          - (if at in claims && claims[at].line.email == e then claims[at].requests else 0)
          + (if c.line.email == e then c.requests else 0)
  {
    TotalUpdate(ClaimLoads(claims, e), at, if c.line.email == e then c.requests else 0);
    assert ClaimLoads(claims[at := c], e) == ClaimLoads(claims, e)[at := if c.line.email == e then c.requests else 0];
  }

  lemma ClaimLoadRemove(claims: map<Key, Claim>, at: Key, e: Email)
    ensures Total(ClaimLoads(claims - {at}, e))
         == Total(ClaimLoads(claims, e))
          - (if at in claims && claims[at].line.email == e then claims[at].requests else 0)
  {
    assert ClaimLoads(claims - {at}, e) == ClaimLoads(claims, e) - {at};
    if at in claims {
      TotalWithout(ClaimLoads(claims, e), at);
    } else {
      assert claims - {at} == claims;
    }
  }

  lemma LineConserves(st: State, line: Line, now: Time, f: Fate, e: Email)
    requires Inv(st) && line.email != Nobody && e != Nobody && Allowed(st, line, now, f)
    ensures Held(TakeLine(st, line, now, f), e) <= Held(st, e) + (if line.email == e then 1 else 0)
  {
    var at := Key(line.conn, line.tcp);
    var next := TakeLine(st, line, now, f);
    match f
    case Flow => ClaimLoadUpdate(st.claims, at, next.claims[at], e);
    case Wait => ClaimLoadUpdate(st.claims, at, next.claims[at], e);
    case Replay(k) =>
      SocketLoadUpdate(st.sockets, k, next.sockets[k], e);
      ClaimLoadRemove(st.claims, at, e);
      assert GoodSocket(st.sockets[k]);
    case Carry(k) =>
      SocketLoadUpdate(st.sockets, k, next.sockets[k], e);
      ClaimLoadRemove(st.claims, at, e);
    case Bound(k) =>
      SocketLoadUpdate(st.sockets, k, next.sockets[k], e);
      ClaimLoadRemove(st.claims, at, e);
    case Contest =>
      TotalMonotone(SocketLoads(next.sockets, e), SocketLoads(st.sockets, e));
  }

  lemma {:induction false} BatchConserves(st: State, batch: seq<Line>, now: Time, fates: seq<Fate>, e: Email)
    requires Inv(st) && e != Nobody && |batch| == |fates| && LegalBatch(st, batch, now, fates)
    requires forall i :: 0 <= i < |batch| ==> batch[i].email != Nobody
    ensures Held(TakeBatch(st, batch, now, fates), e) <= Held(st, e) + LinesOf(batch, e)
  {
    if batch != [] {
      var n := |batch| - 1;
      BatchConserves(st, batch[..n], now, fates[..n], e);
      BatchKeeps(st, batch[..n], now, fates[..n]);
      LineConserves(TakeBatch(st, batch[..n], now, fates[..n]), batch[n], now, fates[n], e);
    }
  }

  lemma {:induction false} ShowAllConserves(sockets: map<nat, Socket>, dumped: Time, conns: seq<Report>, e: Email)
    requires e != Nobody
    ensures Total(SocketLoads(ShowAll(sockets, dumped, conns), e)) == Total(SocketLoads(sockets, e))
  {
    if conns != [] {
      var n := |conns| - 1;
      ShowAllConserves(sockets, dumped, conns[..n], e);
      var mid := ShowAll(sockets, dumped, conns[..n]);
      var r := conns[n];
      SocketLoadUpdate(mid, r.cookie, Show(mid, dumped, r)[r.cookie], e);
    }
  }

  lemma BindNewConserves(st: State, k: nat, e: Email)
    requires GoodSockets(st.sockets) && GoodClaims(st.claims) && e != Nobody
    ensures Held(BindNew(st, k), e) <= Held(st, e)
  {
    var next := BindNew(st, k);
    if next != st {
      var at := Key(st.sockets[k].conn, true);
      SocketLoadUpdate(st.sockets, k, next.sockets[k], e);
      ClaimLoadRemove(st.claims, at, e);
    }
  }

  lemma {:induction false} BindAllConserves(st: State, ids: seq<nat>, e: Email)
    requires GoodSockets(st.sockets) && GoodClaims(st.claims) && e != Nobody
    ensures Held(BindAll(st, ids), e) <= Held(st, e)
  {
    if ids != [] {
      var n := |ids| - 1;
      BindAllConserves(st, ids[..n], e);
      BindAllKeeps(st, ids[..n]);
      BindNewConserves(BindAll(st, ids[..n]), ids[n], e);
    }
  }

  lemma MissedConserves(sockets: map<nat, Socket>, now: Time, e: Email)
    ensures SocketLoads(Missed(sockets), e) == SocketLoads(sockets, e)
    ensures SocketLoads(Lost(sockets, now), e) == SocketLoads(sockets, e)
  {
    SameLoads(sockets, Missed(sockets), e);
    SameLoads(sockets, Lost(sockets, now), e);
    hide SocketLoads, Missed, Lost;
  }

  lemma SameLoads(x: map<nat, Socket>, y: map<nat, Socket>, e: Email)
    requires x.Keys == y.Keys && forall k :: k in x ==> y[k].email == x[k].email && y[k].requests == x[k].requests
    ensures SocketLoads(y, e) == SocketLoads(x, e)
  {
  }

  lemma TakeDumpConserves(st: State, start: Time, now: Time, dump: Option<seq<Report>>, e: Email)
    requires Inv(st) && e != Nobody
    ensures Held(TakeDump(st, start, now, dump), e) <= Held(st, e)
  {
    if dump.Some? {
      var missed := Missed(st.sockets);
      MissedConserves(st.sockets, now, e);
      ShowAllConserves(missed, st.dumped, dump.value, e);
      assert GoodSockets(missed) && GoodClaims(st.claims);
      ShowAllKeeps(missed, st.dumped, dump.value, st.started);
      var shown := st.(sockets := ShowAll(missed, st.dumped, dump.value), readable := true);
      var bound := BindAll(shown, Added(st.sockets, dump.value));
      hide GoodSockets, GoodClaims, Evolved, ShowAll, Missed, Lost, BindAll, Added, SocketLoads, ClaimLoads, Inv;
      BindAllConserves(shown, Added(st.sockets, dump.value), e);
      MissedConserves(bound.sockets, now, e);
    }
  }

  function OverKeys(sockets: map<nat, Socket>, now: Time): set<nat> {
    set k | k in sockets && Over(sockets[k], now)
  }

  function Part<K>(m: map<K, nat>, keys: set<K>): map<K, nat> {
    map k | k in keys && k in m :: m[k]
  }

  lemma ToldWithinOver(st: State, now: Time, e: Email)
    requires GoodSockets(st.sockets) && e != Nobody
    ensures Total(ToldLoads(Told(st, now), e)) <= Total(Part(SocketLoads(st.sockets, e), OverKeys(st.sockets, now)))
  {
    var told := ToldLoads(Told(st, now), e);
    var part := Part(SocketLoads(st.sockets, e), OverKeys(st.sockets, now));
    forall k | k in told
      ensures k in part && told[k] <= part[k]
    {
      assert GoodSocket(st.sockets[k]);
    }
    TotalMonotone(told, part);
  }

  lemma LeftLoads(st: State, now: Time, e: Email)
    ensures OverKeys(st.sockets, now) <= SocketLoads(st.sockets, e).Keys
    ensures SocketLoads(Expire(st, now).sockets, e) == SocketLoads(st.sockets, e) - OverKeys(st.sockets, now)
    ensures ClaimLoads(Expire(st, now).claims, e) == Part(ClaimLoads(st.claims, e), Expire(st, now).claims.Keys)
  {
  }

  lemma ExpireConserves(st: State, now: Time, e: Email)
    requires GoodSockets(st.sockets) && e != Nobody
    ensures Held(Expire(st, now), e) + Total(ToldLoads(Told(st, now), e)) <= Held(st, e)
  {
    var loads := SocketLoads(st.sockets, e);
    var over := OverKeys(st.sockets, now);
    LeftLoads(st, now, e);
    ToldWithinOver(st, now, e);
    hide SocketLoads, ClaimLoads, ToldLoads, Told, OverKeys, Expire, GoodSockets;
    TotalSplit(loads, over);
    assert (map k | k in over :: loads[k]) == Part(loads, over);
    TotalMonotone(ClaimLoads(Expire(st, now).claims, e), ClaimLoads(st.claims, e));
  }

  // -------------------------------------------------------------------- runs

  /** The bound connections a step tells of as gone. */
  ghost function ToldBy(st: State, ev: Event): map<nat, Ended> {
    match ev
    case Poll(start, now, dump) => Told(TakeDump(st, start, now, dump), now)
    case Notice(_, _) => map[]
    case Lines(_, _, _, _) => map[]
  }

  function LinesIn(ev: Event, e: Email): nat {
    match ev
    case Lines(_, batch, _, _) => LinesOf(batch, e)
    case Poll(_, _, _) => 0
    case Notice(_, _) => 0
  }

  /** All requests of a user in the ended connections a run tells of. */
  ghost function Emitted(st: State, evs: seq<Event>, e: Email): nat {
    if evs == [] then 0
    else
      var n := |evs| - 1;
      Emitted(st, evs[..n], e) + Total(ToldLoads(ToldBy(After(st, evs[..n]), evs[n]), e))
  }

  function TakenIn(evs: seq<Event>, e: Email): nat {
    if evs == [] then 0 else TakenIn(evs[..|evs| - 1], e) + LinesIn(evs[|evs| - 1], e)
  }

  lemma NoticeConserves(st: State, now: Time, r: Report, e: Email)
    requires Inv(st) && 0 < now && e != Nobody
    ensures Held(TakeNotice(st, now, r), e) <= Held(st, e)
  {
    if st.dumped == 0 {
    } else if r.cookie in st.sockets {
      SocketLoadUpdate(st.sockets, r.cookie, Noticed(st.sockets[r.cookie], r, now), e);
      hide SocketLoads, ClaimLoads, Inv;
    } else {
      var s := Fresh(r, st.dumped).(closedAt := now, noticed := true);
      SocketLoadUpdate(st.sockets, r.cookie, s, e);
      BindNewConserves(st.(sockets := st.sockets[r.cookie := s]), r.cookie, e);
      hide SocketLoads, ClaimLoads, Inv, BindNew;
    }
  }

  lemma LinesConserve(st: State, now: Time, batch: seq<Line>, fates: seq<Fate>, keep: set<Key>, e: Email)
    requires Inv(st) && Legal(st, Lines(now, batch, fates, keep)) && e != Nobody
    ensures Held(Next(st, Lines(now, batch, fates, keep)), e) <= Held(st, e) + LinesOf(batch, e)
  {
    var done := TakeBatch(Tailed(st, now), batch, now, fates);
    assert Inv(Tailed(st, now));
    assert Held(Tailed(st, now), e) == Held(st, e);
    BatchConserves(Tailed(st, now), batch, now, fates, e);
    TotalMonotone(ClaimLoads(Only(done.claims, keep), e), ClaimLoads(done.claims, e));
    hide SocketLoads, ClaimLoads, Inv, TakeBatch, LegalBatch, Only, Kept;
  }

  lemma StepConserves(st: State, ev: Event, e: Email)
    requires Inv(st) && Legal(st, ev) && e != Nobody
    ensures Held(Next(st, ev), e) + Total(ToldLoads(ToldBy(st, ev), e)) <= Held(st, e) + LinesIn(ev, e)
  {
    assert Total(ToldLoads(map[], e)) == 0;
    match ev
    case Poll(start, now, dump) =>
      TakeDumpConserves(st, start, now, dump, e);
      TakeDumpKeeps(st, start, now, dump);
      hide TakeDump, Expire, Told, ToldLoads, Held;
      ExpireConserves(TakeDump(st, start, now, dump), now, e);
    case Notice(now, r) =>
      NoticeConserves(st, now, r, e);
      hide TakeNotice, ToldLoads, Held, Inv;
    case Lines(now, batch, fates, keep) =>
      LinesConserve(st, now, batch, fates, keep, e);
      hide TakeBatch, ToldLoads, Held, Inv;
  }

  /** Over every run from the empty ledger, and for every user: what was told
      plus what is held is at most the user's lines. No line counts twice, nor
      for another user. */
  lemma {:induction false} RequestsConserved(evs: seq<Event>, e: Email)
    requires LegalRun(EMPTY, evs) && e != Nobody
    ensures Emitted(EMPTY, evs, e) + Held(After(EMPTY, evs), e) <= TakenIn(evs, e)
  {
    if evs == [] {
      assert SocketLoads(map[], e) == map[] && ClaimLoads(map[], e) == map[];
    } else {
      var n := |evs| - 1;
      RequestsConserved(evs[..n], e);
      RunKeeps(EMPTY, evs[..n]);
      StepConserves(After(EMPTY, evs[..n]), evs[n], e);
    }
  }
}
