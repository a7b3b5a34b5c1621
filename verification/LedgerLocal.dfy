/** What happens at one address depends on nothing at any other. */
module LedgerLocal {
  import opened Common
  import opened LedgerModel
  import opened LedgerRuns

  ghost predicate At(sockets: map<nat, Socket>, k: nat, a: Conn) {
    k in sockets && sockets[k].conn == a
  }

  ghost predicate SameSockets(x: map<nat, Socket>, y: map<nat, Socket>, a: Conn) {
    && (forall k :: At(x, k, a) <==> At(y, k, a))
    && (forall k :: At(x, k, a) ==> x[k] == y[k])
  }

  ghost predicate SameClaim(x: map<Key, Claim>, y: map<Key, Claim>, a: Conn) {
    var at := Key(a, true);
    (at in x <==> at in y) && (at in x ==> x[at] == y[at])
  }

  /** The two states agree on the sockets and the waiting line at an address. */
  ghost predicate SameAt(x: State, y: State, a: Conn) {
    SameSockets(x.sockets, y.sockets, a) && SameClaim(x.claims, y.claims, a)
  }

  /** A line of another address, or of an inbound for UDP only, changes
      nothing at this one. */
  lemma LineElsewhere(st: State, line: Line, now: Time, f: Fate, a: Conn)
    requires Inv(st) && Allowed(st, line, now, f)
    requires line.conn != a || !line.tcp
    ensures SameAt(st, TakeLine(st, line, now, f), a)
  {
  }

  lemma BindNewElsewhere(st: State, k: nat, a: Conn)
    requires !At(st.sockets, k, a)
    ensures SameAt(st, BindNew(st, k), a)
  {
  }

  lemma OnlyCandidateAt(x: State, y: State, k: nat, line: Line)
    requires SameSockets(x.sockets, y.sockets, line.conn)
    ensures OnlyCandidate(x, k, line) <==> OnlyCandidate(y, k, line)
  {
    forall j
      ensures CanBind(x, j, line) <==> CanBind(y, j, line)
    {
      assert At(x.sockets, j, line.conn) <==> At(y.sockets, j, line.conn);
    }
  }

  lemma BindNewCongruent(x: State, y: State, k: nat, a: Conn)
    requires GoodClaims(x.claims) && SameAt(x, y, a) && At(x.sockets, k, a)
    ensures SameAt(BindNew(x, k), BindNew(y, k), a)
  {
    assert At(y.sockets, k, a);
    var at := Key(a, true);
    if at in x.claims {
      assert GoodClaim(at, x.claims[at]);
      OnlyCandidateAt(x, y, k, x.claims[at].line);
    }
    SameUpdate(x.sockets, y.sockets, k, BindNew(x, k).sockets[k], a);
  }

  lemma SameUpdate(x: map<nat, Socket>, y: map<nat, Socket>, k: nat, s: Socket, a: Conn)
    requires SameSockets(x, y, a) && At(x, k, a) && s.conn == a
    ensures SameSockets(x[k := s], y[k := s], a)
  {
    var x', y' := x[k := s], y[k := s];
    forall j
      ensures At(x', j, a) <==> At(y', j, a)
      ensures At(x', j, a) ==> x'[j] == y'[j]
    {
      assert At(x, j, a) <==> At(y, j, a);
    }
  }

  lemma SameLost(x: map<nat, Socket>, y: map<nat, Socket>, now: Time, a: Conn)
    requires SameSockets(x, y, a)
    ensures SameSockets(Lost(x, now), Lost(y, now), a)
  {
    forall j
      ensures At(Lost(x, now), j, a) <==> At(Lost(y, now), j, a)
      ensures At(Lost(x, now), j, a) ==> Lost(x, now)[j] == Lost(y, now)[j]
    {
      assert At(x, j, a) <==> At(y, j, a);
    }
  }

  /** Those of the sockets that are at the address, in their order. */
  ghost function IdsAt(sockets: map<nat, Socket>, ids: seq<nat>, a: Conn): seq<nat> {
    if ids == [] then []
    else
      var n := |ids| - 1;
      IdsAt(sockets, ids[..n], a) + if At(sockets, ids[n], a) then [ids[n]] else []
  }

  /** Of the sockets a dump added, only those at this address matter here. */
  lemma {:induction false} BindAllAt(st: State, ids: seq<nat>, a: Conn)
    requires GoodSockets(st.sockets) && GoodClaims(st.claims)
    ensures SameAt(BindAll(st, ids), BindAll(st, IdsAt(st.sockets, ids, a)), a)
  {
    if ids != [] {
      var n := |ids| - 1;
      BindAllAt(st, ids[..n], a);
      BindAllKeeps(st, ids[..n]);
      BindStepAt(st, ids, a);
    }
  }

  lemma BindStepAt(st: State, ids: seq<nat>, a: Conn)
    requires ids != []
    requires var n := |ids| - 1; var mid := BindAll(st, ids[..n]);
             && GoodClaims(mid.claims) && mid.sockets.Keys == st.sockets.Keys
                 && Evolved(st.sockets, mid.sockets, st.started)
             && SameAt(mid, BindAll(st, IdsAt(st.sockets, ids[..n], a)), a)
    ensures SameAt(BindAll(st, ids), BindAll(st, IdsAt(st.sockets, ids, a)), a)
  {
    var n := |ids| - 1;
    var k, before := ids[n], IdsAt(st.sockets, ids[..n], a);
    var mid, here := BindAll(st, ids[..n]), BindAll(st, before);
    assert k in st.sockets ==> Succeeds(st.sockets[k], mid.sockets[k], st.started);
    assert At(mid.sockets, k, a) <==> At(st.sockets, k, a);
    hide GoodClaims, BindNew, Evolved;
    if At(st.sockets, k, a) {
      BindNewCongruent(mid, here, k, a);
      BindAllMore(st, before, k);
    } else {
      BindNewElsewhere(mid, k, a);
      SameTwice(BindNew(mid, k), mid, here, a);
      assert before + [] == before;
    }
  }

  lemma BindAllMore(st: State, ids: seq<nat>, k: nat)
    ensures BindAll(st, ids + [k]) == BindNew(BindAll(st, ids), k)
  {
    assert (ids + [k])[..|ids|] == ids;
    hide BindNew;
  }

  /** Only one of them is. */
  lemma {:induction false} OneAt(sockets: map<nat, Socket>, ids: seq<nat>, a: Conn, k: nat)
    requires forall i :: 0 <= i < |ids| && At(sockets, ids[i], a) ==> ids[i] == k
    requires forall i, j :: 0 <= i < j < |ids| ==> ids[i] != ids[j]
    ensures IdsAt(sockets, ids, a) == if k in ids && At(sockets, k, a) then [k] else []
  {
    if ids != [] {
      var n := |ids| - 1;
      OneAt(sockets, ids[..n], a, k);
      assert k in ids <==> k in ids[..n] || k == ids[n];
    }
  }

  lemma SameTwice(x: State, y: State, z: State, a: Conn)
    requires SameAt(y, x, a) && SameAt(y, z, a)
    ensures SameAt(x, z, a)
  {
  }

  /** Whether a dump shows a connection. */
  predicate Shows(conns: seq<Report>, k: nat) {
    exists i :: 0 <= i < |conns| && conns[i].cookie == k
  }

  /** The socket a dump adds: nothing of it is known but the connection. */
  predicate Unknown(s: Socket, dumped: Time) {
    && s.email == Nobody && s.line == NO_LINE && s.requests == 0 && s.after == dumped
    && s.closedAt == 0 && !s.noticed && s.missing == 0 && !s.disputed
  }

  /** What a dump does to one connection. */
  lemma {:induction false} ShowAllKey(sockets: map<nat, Socket>, dumped: Time, conns: seq<Report>, k: nat)
    ensures var out := ShowAll(sockets, dumped, conns);
            && (k in out <==> k in sockets || Shows(conns, k))
            && (k in sockets && (sockets[k].noticed || !Shows(conns, k)) ==> out[k] == sockets[k])
            && (k in sockets && !sockets[k].noticed && Shows(conns, k) ==>
                  out[k].(acked := sockets[k].acked, received := sockets[k].received)
                  == sockets[k].(missing := 0, closedAt := 0))
            && (k !in sockets && Shows(conns, k) ==>
                  && Unknown(out[k], dumped)
                  && exists i :: 0 <= i < |conns| && conns[i].cookie == k && conns[i].Address() == out[k].conn)
  {
    if conns != [] {
      var n := |conns| - 1;
      ShowAllKey(sockets, dumped, conns[..n], k);
      assert Shows(conns, k) <==> Shows(conns[..n], k) || conns[n].cookie == k by {
        if Shows(conns, k) && conns[n].cookie != k {
          var i :| 0 <= i < |conns| && conns[i].cookie == k;
          assert conns[..n][i].cookie == k;
        }
        if Shows(conns[..n], k) {
          var i :| 0 <= i < n && conns[..n][i].cookie == k;
          assert conns[i].cookie == k;
        }
      }
      if k !in sockets && Shows(conns[..n], k) {
        var i :| 0 <= i < n && conns[..n][i].cookie == k
                 && conns[..n][i].Address() == ShowAll(sockets, dumped, conns[..n])[k].conn;
        assert conns[i].cookie == k && conns[i].Address() == ShowAll(sockets, dumped, conns)[k].conn;
      } else if k !in sockets && conns[n].cookie == k {
        assert conns[n].Address() == ShowAll(sockets, dumped, conns)[k].conn;
      }
    }
  }

  /** The added sockets are exactly those shown first, each once. */
  lemma {:induction false} AddedExactly(sockets: map<nat, Socket>, conns: seq<Report>)
    ensures forall k :: k in Added(sockets, conns) <==> k !in sockets && Shows(conns, k)
    ensures forall i, j :: 0 <= i < j < |Added(sockets, conns)| ==> Added(sockets, conns)[i] != Added(sockets, conns)[j]
  {
    if conns != [] {
      var n := |conns| - 1;
      AddedExactly(sockets, conns[..n]);
      forall k
        ensures k in Added(sockets, conns) <==> k !in sockets && Shows(conns, k)
      {
        if Shows(conns, k) && conns[n].cookie != k {
          var i :| 0 <= i < |conns| && conns[i].cookie == k;
          assert conns[..n][i].cookie == k;
        }
        if Shows(conns[..n], k) {
          var i :| 0 <= i < n && conns[..n][i].cookie == k;
          assert conns[i].cookie == k;
        }
      }
    }
  }

  /** A whole dump at one address: first what it shows, then, in turn, the line of each
      connection it adds there, then what is lost. Nothing else matters. */
  lemma TakeDumpAt(st: State, start: Time, now: Time, conns: seq<Report>, shown: State, a: Conn)
    requires Inv(st) && shown == st.(sockets := ShowAll(Missed(st.sockets), st.dumped, conns), readable := true)
    ensures var bound := BindAll(shown, IdsAt(shown.sockets, Added(st.sockets, conns), a));
            var taken := TakeDump(st, start, now, Some(conns));
            SameClaim(taken.claims, bound.claims, a) && SameSockets(taken.sockets, Lost(bound.sockets, now), a)
  {
    var added := Added(st.sockets, conns);
    ShowAllKeeps(Missed(st.sockets), st.dumped, conns, st.started);
    BindAllAt(shown, added, a);
    SameLost(BindAll(shown, added).sockets, BindAll(shown, IdsAt(shown.sockets, added, a)).sockets, now, a);
  }

  /** When it adds at most one connection there, that one's line. */
  lemma TakeDumpOne(st: State, start: Time, now: Time, conns: seq<Report>, shown: State, a: Conn, k: nat)
    requires Inv(st) && shown == st.(sockets := ShowAll(Missed(st.sockets), st.dumped, conns), readable := true)
    requires forall j :: j !in st.sockets && At(shown.sockets, j, a) ==> j == k
    ensures var bound := if k !in st.sockets && At(shown.sockets, k, a) then BindNew(shown, k) else shown;
            var taken := TakeDump(st, start, now, Some(conns));
            SameClaim(taken.claims, bound.claims, a) && SameSockets(taken.sockets, Lost(bound.sockets, now), a)
  {
    TakeDumpAt(st, start, now, conns, shown, a);
    AddedHere(st, conns, shown, a, k);
    assert [k][..0] == [];
    assert BindAll(shown, [k]) == BindNew(shown, k);
    hide TakeDump, BindNew, ShowAll, Missed, Inv;
  }

  lemma AddedHere(st: State, conns: seq<Report>, shown: State, a: Conn, k: nat)
    requires shown.sockets == ShowAll(Missed(st.sockets), st.dumped, conns)
    requires forall j :: j !in st.sockets && At(shown.sockets, j, a) ==> j == k
    ensures IdsAt(shown.sockets, Added(st.sockets, conns), a) == if k !in st.sockets
              && At(shown.sockets, k, a) then [k] else []
  {
    var added := Added(st.sockets, conns);
    AddedExactly(st.sockets, conns);
    forall i | 0 <= i < |added| && At(shown.sockets, added[i], a)
      ensures added[i] == k
    {
      assert added[i] in added;
    }
    OneAt(shown.sockets, added, a, k);
    ShowAllKey(Missed(st.sockets), st.dumped, conns, k);
  }
}
