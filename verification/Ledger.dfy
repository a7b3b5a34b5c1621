/** The ledger as it runs: maps changed in place, and an index of the sockets of
    each connection, in the order they came, kept beside the main map. Each
    method does exactly what LedgerModel says of a state without any index. */
module LedgerObject {
  import opened Common
  import opened LedgerModel
  import opened LedgerRuns
  import opened LedgerLocal

  /** The index is exactly the sockets by connection: no duplicates, no leftovers. */
  ghost predicate Indexed(sockets: map<nat, Socket>, byConn: map<Conn, seq<nat>>) {
    && (forall a :: a in byConn ==> byConn[a] != [])
    && (forall a, i :: a in byConn && 0 <= i < |byConn[a]| ==>
        byConn[a][i] in sockets && sockets[byConn[a][i]].conn == a)
    && (forall a, i, j :: a in byConn && 0 <= i < j < |byConn[a]| ==> byConn[a][i] != byConn[a][j])
    && (forall k :: k in sockets ==> sockets[k].conn in byConn && k in byConn[sockets[k].conn])
  }

  /** told holds the entries of m outside todo, one each, in the order of ids. */
  ghost predicate Telling(told: seq<Ended>, ids: seq<nat>, m: map<nat, Ended>, todo: set<nat>) {
    && |told| == |ids|
    && (forall k :: k in ids <==> k in m && k !in todo)
    && (forall i, j :: 0 <= i < j < |ids| ==> ids[i] != ids[j])
    && (forall i :: 0 <= i < |ids| ==> ids[i] in m && told[i] == m[ids[i]])
  }

  /** told holds exactly the entries of m, one each. */
  ghost predicate Lists(told: seq<Ended>, ids: seq<nat>, m: map<nat, Ended>) {
    Telling(told, ids, m, {})
  }

  lemma TellingOn(told: seq<Ended>, ids: seq<nat>, m: map<nat, Ended>, todo: set<nat>, k: nat)
    requires Telling(told, ids, m, todo) && k in todo
    ensures k in m ==> Telling(told + [m[k]], ids + [k], m, todo - {k})
    ensures k !in m ==> Telling(told, ids, m, todo - {k})
  {
    assert k !in ids;
  }

  lemma SameConnsIndexed(x: map<nat, Socket>, y: map<nat, Socket>, byConn: map<Conn, seq<nat>>)
    requires Indexed(x, byConn) && x.Keys == y.Keys
    requires forall k :: k in x ==> x[k].conn == y[k].conn
    ensures Indexed(y, byConn)
  {
  }

  lemma IndexedWithout(sockets: map<nat, Socket>, byConn: map<Conn, seq<nat>>, k: nat, rest: seq<nat>)
    requires Indexed(sockets, byConn) && k in sockets
    requires forall j :: j in rest <==> j in byConn[sockets[k].conn] && j != k
    requires forall i, j :: 0 <= i < j < |rest| ==> rest[i] != rest[j]
    ensures Indexed(sockets - {k}, if rest == [] then byConn - {sockets[k].conn} else byConn[sockets[k].conn := rest])
  {
    assert forall i :: 0 <= i < |rest| ==> rest[i] in rest;
    forall i | 0 <= i < |rest|
      ensures rest[i] in sockets - {k} && sockets[rest[i]].conn == sockets[k].conn
    {
      var j :| 0 <= j < |byConn[sockets[k].conn]| && byConn[sockets[k].conn][j] == rest[i];
    }
    assert forall a, i :: a in byConn && a != sockets[k].conn && 0 <= i < |byConn[a]| ==> byConn[a][i] != k;
  }

  class Ledger {
    var dumped: Time
    var started: Time
    var tail: Time
    var readable: bool
    var sockets: map<nat, Socket>
    var byConn: map<Conn, seq<nat>>
    var claims: map<Key, Claim>
    var finished: seq<Ended>
    const tells: bool

    ghost function View(): State
      reads this
    {
      State(dumped, started, tail, readable, sockets, claims)
    }

    ghost predicate Valid()
      reads this
    {
      Inv(View()) && Indexed(sockets, byConn)
    }

    constructor (tells: bool)
      ensures Valid() && View() == EMPTY && finished == [] && this.tells == tells
    {
      dumped, started, tail, readable := 0, 0, 0, true;
      sockets, byConn, claims, finished := map[], map[], map[], [];
      this.tells := tells;
    }

    /** The sockets at a connection, oldest first. */
    function Here(conn: Conn): (ids: seq<nat>)
      requires Indexed(sockets, byConn)
      reads this
      ensures forall k :: k in ids <==> k in sockets && sockets[k].conn == conn
      ensures forall i, j :: 0 <= i < j < |ids| ==> ids[i] != ids[j]
    {
      if conn in byConn then byConn[conn] else []
    }

    // ------------------------------------------------------------ the index

    method Add(r: Report)
      requires Indexed(sockets, byConn) && r.cookie !in sockets
      modifies this`sockets, this`byConn
      ensures Indexed(sockets, byConn)
      ensures sockets == old(sockets)[r.cookie := Fresh(r, dumped)]
    {
      var a := r.Address();
      var before := Here(a);
      sockets := sockets[r.cookie := Fresh(r, dumped)];
      byConn := byConn[a := before + [r.cookie]];
      assert forall k :: k in old(sockets) ==> k in byConn[sockets[k].conn];
    }

    method Remove(k: nat)
      requires Indexed(sockets, byConn) && k in sockets
      modifies this`sockets, this`byConn, this`finished
      ensures Indexed(sockets, byConn)
      ensures sockets == old(sockets) - {k}
      ensures finished == old(finished) + (if old(sockets)[k].email != Nobody && old(sockets)[k].after != 0 && tells
                                           then [EndedOf(old(sockets)[k])] else [])
    {
      var s := sockets[k];
      if s.email != Nobody && s.after != 0 && tells {
        finished := finished + [EndedOf(s)];
      }
      var rest := Others(byConn[s.conn], k);
      IndexedWithout(sockets, byConn, k, rest);
      sockets := sockets - {k};
      if rest == [] {
        byConn := byConn - {s.conn};
      } else {
        byConn := byConn[s.conn := rest];
      }
    }

    static method Others(ids: seq<nat>, k: nat) returns (rest: seq<nat>)
      requires forall i, j :: 0 <= i < j < |ids| ==> ids[i] != ids[j]
      ensures forall j :: j in rest <==> j in ids && j != k
      ensures forall i, j :: 0 <= i < j < |rest| ==> rest[i] != rest[j]
    {
      rest := [];
      for i := 0 to |ids|
        invariant forall j :: j in rest <==> j in ids[..i] && j != k
        invariant forall i, j :: 0 <= i < j < |rest| ==> rest[i] != rest[j]
      {
        if ids[i] != k {
          assert ids[i] !in ids[..i];
          rest := rest + [ids[i]];
        }
        assert ids[..i + 1] == ids[..i] + [ids[i]];
      }
      assert ids[..|ids|] == ids;
    }

    // ----------------------------------------------------- who takes a line

    method Carrier(line: Line) returns (found: Option<nat>)
      requires Indexed(sockets, byConn)
      ensures found.Some? ==> CanCarry(View(), found.value, line)
      ensures found.None? ==> NoCarry(View(), line)
    {
      var ids := Here(line.conn);
      for i := 0 to |ids|
        invariant forall j :: 0 <= j < i ==> !CanCarry(View(), ids[j], line)
      {
        assert ids[i] in ids;
        var s := sockets[ids[i]];
        if s.email == line.email && (s.closedAt == 0 || line.at <= s.closedAt) {
          return Some(ids[i]);
        }
      }
      return None;
    }

    method Candidate(line: Line) returns (found: Option<nat>)
      requires Indexed(sockets, byConn)
      ensures found.Some? ==> OnlyCandidate(View(), found.value, line)
      ensures found.None? ==> NoBind(View(), line)
    {
      found := None;
      var ids := Here(line.conn);
      for i := 0 to |ids|
        invariant found.None? ==> forall j :: 0 <= j < i ==> !CanBind(View(), ids[j], line)
        invariant found.Some? ==> CanBind(View(), found.value, line) && found.value in ids[..i]
        invariant found.Some? ==> forall j :: 0 <= j < i && CanBind(View(), ids[j], line) ==> ids[j] == found.value
      {
        assert ids[i] in ids;
        assert ids[i] !in ids[..i];
        var s := sockets[ids[i]];
        if s.email != Nobody || s.disputed || line.at < s.after || (line.udp && s.after == 0)
           || (s.closedAt != 0 && line.at > s.closedAt) {
          assert !CanBind(View(), ids[i], line);
          assert ids[..i + 1] == ids[..i] + [ids[i]];
          continue;
        }
        assert CanBind(View(), ids[i], line);
        if found.Some? {
          return None;
        }
        found := Some(ids[i]);
        assert ids[..i + 1] == ids[..i] + [ids[i]];
      }
      assert forall j :: CanBind(View(), j, line) ==> j in ids;
    }

    method Replayed(line: Line, now: Time) returns (found: Option<nat>)
      requires Indexed(sockets, byConn)
      ensures found.Some? ==> CanReplay(View(), found.value, line, now)
      ensures found.None? ==> NoReplay(View(), line, now)
    {
      if line.udp || started == 0 || line.at > started || now - tail > CLAIM_WAIT {
        return None;
      }
      var ids := Here(line.conn);
      for i := 0 to |ids|
        invariant forall j :: 0 <= j < i ==> !CanReplay(View(), ids[j], line, now)
      {
        assert ids[i] in ids;
        var s := sockets[ids[i]];
        if s.after == 0 && s.email != Nobody && line.at > s.line.at {
          return Some(ids[i]);
        }
      }
      return None;
    }

    /** What the line does to one socket of its connection. */
    method Judge(s: Socket, line: Line, now: Time, ghost st: State) returns (t: Socket, disputed: bool)
      requires s.conn == line.conn && st.started == started && st.tail == tail
      ensures t == Struck(st, s, line, now)
      ensures disputed <==> Touches(st, s, line, now)
    {
      var inTail := started != 0 && line.at > started && now - tail <= CLAIM_WAIT;
      t, disputed := s, false;
      if s.closedAt != 0 && line.at > s.closedAt {
      } else if s.disputed {
        disputed := line.udp;
      } else if s.email == Nobody || s.email == line.email {
      } else if (s.after == 0 && inTail && s.line.at <= started) || (line.udp && s.after != 0 && line.at > s.after) {
        t := s.(email := Nobody, line := NO_LINE, requests := 0, disputed := true);
        disputed := true;
      }
    }

    method Dispute(line: Line, now: Time) returns (disputed: bool)
      requires Indexed(sockets, byConn)
      modifies this`sockets
      ensures Indexed(sockets, byConn)
      ensures disputed <==> Contests(old(View()), line, now)
      ensures sockets == map k | k in old(sockets) :: Struck(old(View()), old(sockets)[k], line, now)
    {
      ghost var before := View();
      var ids := Here(line.conn);
      assert forall i :: 0 <= i < |ids| ==> ids[i] in ids;
      StruckNone(before, ids, line, now);
      disputed := false;
      hide Indexed, Contests, Struck, StruckTo, NoneTouched;
      for i := 0 to |ids|
        invariant StruckTo(before, sockets, ids, i, line, now)
        invariant disputed ==> Contests(before, line, now)
        invariant disputed || NoneTouched(before, ids, i, line, now)
      {
        NextStruck(before, sockets, ids, i, line, now);
        var t, d := Judge(sockets[ids[i]], line, now, before);
        StruckOn(before, sockets, ids, i, t, d, line, now);
        sockets := sockets[ids[i] := t];
        disputed := disputed || d;
      }
      AllStruck(before, sockets, ids, line, now);
      SameConnsIndexed(before.sockets, sockets, byConn);
    }

    // ---------------------------------------------------------------- lines

    /** Changes one socket; its connection stays, and with it the index. */
    method Set(k: nat, s: Socket)
      requires Indexed(sockets, byConn) && k in sockets && s.conn == sockets[k].conn
      modifies this`sockets
      ensures Indexed(sockets, byConn)
      ensures sockets == old(sockets)[k := s]
    {
      sockets := sockets[k := s];
      SameConnsIndexed(old(sockets), sockets, byConn);
    }

    method BindSocket(k: nat)
      requires Indexed(sockets, byConn) && GoodClaims(claims) && k in sockets
      modifies this`sockets, this`claims
      ensures Indexed(sockets, byConn) && GoodClaims(claims)
      ensures View() == BindNew(old(View()), k)
    {
      var at := Key(sockets[k].conn, true);
      if at in claims {
        var c := claims[at];
        assert GoodClaim(at, c);
        var found := Candidate(c.line);
        if found == Some(k) {
          Set(k, Bind(sockets[k], c));
          claims := claims - {at};
        }
      }
    }

    /** The connection that takes the line, if any. */
    method Taker(line: Line, now: Time) returns (found: Option<nat>, s: Socket, ghost f: Fate)
      requires Valid() && line.email != Nobody && line.tcp
      ensures found.Some? ==>
                Allowed(View(), line, now, f) && found.value in sockets && s.conn == sockets[found.value].conn
      ensures found.Some? ==> Gives(View(), found.value, s, line) == TakeLine(View(), line, now, f)
      ensures found.None? ==> NoReplay(View(), line, now) && NoCarry(View(), line) && NoBind(View(), line)
    {
      s, f := Fresh(Report(0, Endpoint(0, 0), Endpoint(0, 0), 0, 0), 0), Flow;
      found := Replayed(line, now);
      if found.Some? {
        f := Replay(found.value);
        s := sockets[found.value].(email := line.email, line := line, requests := 1);
        return;
      }
      found := Carrier(line);
      if found.Some? {
        f := Carry(found.value);
        s := sockets[found.value].(requests := sockets[found.value].requests + 1);
        return;
      }
      found := Candidate(line);
      if found.Some? {
        f := Bound(found.value);
        s := Bind(sockets[found.value], Claim(line, now, 1, Rival(claims, line)));
      }
    }

    /** One line of a batch. */
    method TakeOne(line: Line, now: Time) returns (ghost f: Fate)
      requires Valid() && line.email != Nobody
      modifies this`sockets, this`claims
      ensures Valid()
      ensures Allowed(old(View()), line, now, f)
      ensures View() == TakeLine(old(View()), line, now, f)
    {
      hide Inv, Indexed, Allowed, TakeLine, NoReplay, NoCarry, NoBind, Evolved;
      ghost var before := View();
      var at := Key(line.conn, line.tcp);
      if !line.tcp {
        f := Flow;
        FlowWaits(before, line, now);
        claims := claims[at := Claim(line, now, 1, 0)];
      } else {
        var found, s;
        found, s, f := Taker(line, now);
        if found.Some? {
          Set(found.value, s);
          claims := claims - {at};
        } else {
          f := Unclaimed(line, now);
        }
      }
      LineKeeps(before, line, now, f);
    }

    /** A line no connection takes: it contests one, or it waits. */
    method Unclaimed(line: Line, now: Time) returns (ghost f: Fate)
      requires Valid() && line.email != Nobody && line.tcp
      requires NoReplay(View(), line, now) && NoCarry(View(), line) && NoBind(View(), line)
      modifies this`sockets, this`claims
      ensures Indexed(sockets, byConn)
      ensures Allowed(old(View()), line, now, f)
      ensures View() == TakeLine(old(View()), line, now, f)
    {
      ghost var before := View();
      hide NoReplay, NoCarry, NoBind, Contests, Struck, Indexed, Waiting;
      var c := Waiting(claims, line, now);
      var disputed := Dispute(line, now);
      f := if disputed then Contest else Wait;
      if disputed {
        StruckIsContest(before, line, now);
      } else {
        NoContest(before, line, now);
        claims := claims[Key(line.conn, true) := c];
      }
    }

    /** The lines of a batch in turn. */
    method TakeEach(now: Time, batch: seq<Line>) returns (ghost fates: seq<Fate>)
      requires Valid() && forall i :: 0 <= i < |batch| ==> batch[i].email != Nobody
      modifies this`sockets, this`claims
      ensures Valid() && |fates| == |batch|
      ensures LegalBatch(old(View()), batch, now, fates)
      ensures View() == TakeBatch(old(View()), batch, now, fates)
    {
      ghost var begun := View();
      fates := [];
      hide Valid, Allowed, TakeLine;
      for i := 0 to |batch|
        invariant Valid() && |fates| == i
        invariant LegalBatch(begun, batch[..i], now, fates)
        invariant View() == TakeBatch(begun, batch[..i], now, fates)
      {
        var f := TakeOne(batch[i], now);
        BatchMore(begun, batch, now, fates, f);
        fates := fates + [f];
      }
      assert batch[..|batch|] == batch;
    }

    method TakeLines(now: Time, batch: seq<Line>) returns (ghost fates: seq<Fate>, ghost keep: set<Key>)
      requires Valid() && 0 < now
      requires forall i :: 0 <= i < |batch| ==> batch[i].email != Nobody
      modifies this`tail, this`sockets, this`claims
      ensures Valid()
      ensures Legal(old(View()), Lines(now, batch, fates, keep))
      ensures View() == Next(old(View()), Lines(now, batch, fates, keep))
      ensures |claims| <= MAX_CLAIMS
    {
      ghost var before := View();
      TailedInv(before, now);
      hide Inv, Indexed, TakeBatch, LegalBatch, Only, Kept, Legal, Next;
      if tail == 0 && started != 0 {
        tail := now;
      }
      fates := TakeEach(now, batch);
      ghost var done := View();
      keep := LimitClaims();
      OnlyInv(done, keep);
      LinesStep(before, now, batch, fates, keep);
    }

    method LimitClaims() returns (ghost keep: set<Key>)
      modifies this`claims
      ensures Kept(old(claims), keep) && claims == Only(old(claims), keep)
      ensures |claims| <= MAX_CLAIMS
    {
      keep := claims.Keys;
      AllKept(claims);
      if |claims| > MAX_CLAIMS {
        keep := DropOldClaims();
      }
    }

    /** The oldest waiting line. */
    method Oldest() returns (at: Key)
      requires claims != map[]
      ensures at in claims && forall b :: b in claims ==> claims[at].arrived <= claims[b].arrived
    {
      var todo := claims.Keys;
      assert todo != {} by {
        var k :| k in claims;
        assert k in todo;
      }
      at :| at in todo;
      todo := todo - {at};
      while todo != {}
        invariant at in claims && todo <= claims.Keys
        invariant forall b :: b in claims && b !in todo ==> claims[at].arrived <= claims[b].arrived
        decreases todo
      {
        var b :| b in todo;
        if claims[b].arrived < claims[at].arrived {
          at := b;
        }
        todo := todo - {b};
      }
    }

    method DropOldClaims() returns (ghost keep: set<Key>)
      requires |claims| > MAX_CLAIMS
      modifies this`claims
      ensures Kept(old(claims), keep) && claims == Only(old(claims), keep)
      ensures |claims| == MAX_CLAIMS * 9 / 10
    {
      ghost var all := claims;
      while |claims| > MAX_CLAIMS * 9 / 10
        invariant |claims| >= MAX_CLAIMS * 9 / 10
        invariant forall at :: at in claims ==> at in all && claims[at] == all[at]
        invariant forall a, b :: a in claims && b in all.Keys - claims.Keys ==> all[b].arrived <= all[a].arrived
      {
        assert claims != map[];
        var at := Oldest();
        assert (claims - {at}).Keys == claims.Keys - {at};
        claims := claims - {at};
      }
      keep := claims.Keys;
      assert |keep| == |claims|;
    }

    // ---------------------------------------------------------------- dumps

    method ForgetIfOver(k: nat, now: Time)
      requires Indexed(sockets, byConn) && k in sockets
      modifies this`sockets, this`byConn, this`finished
      ensures Indexed(sockets, byConn)
      ensures sockets == if Over(old(sockets)[k], now) then old(sockets) - {k} else old(sockets)
      ensures finished == old(finished) + if tells
                && Tellable(old(sockets)[k], now) then [EndedOf(old(sockets)[k])] else []
    {
      if sockets[k].closedAt != 0 && now - sockets[k].closedAt > KEEP_CLOSED {
        Remove(k);
      }
    }

    method ForgetAll(now: Time, ghost m: map<nat, Ended>) returns (ghost ids: seq<nat>)
      requires Indexed(sockets, byConn) && finished == []
      requires forall k :: k in m <==> k in sockets && tells && Tellable(sockets[k], now)
      requires forall k :: k in m ==> m[k] == EndedOf(sockets[k])
      modifies this`sockets, this`byConn, this`finished
      ensures Indexed(sockets, byConn)
      ensures Pruned(old(sockets), sockets, {}, now)
      ensures Lists(finished, ids, m)
    {
      hide Indexed;
      ids := [];
      var todo := sockets.Keys;
      while todo != {}
        invariant Indexed(sockets, byConn) && Pruned(old(sockets), sockets, todo, now)
        invariant Telling(finished, ids, m, todo)
        decreases todo
      {
        var k :| k in todo;
        TellingOn(finished, ids, m, todo, k);
        PrunedOn(old(sockets), sockets, todo, k, now);
        ForgetIfOver(k, now);
        if k in m {
          ids := ids + [k];
        }
        todo := todo - {k};
      }
    }

    method ExpireSockets(now: Time) returns (ghost ids: seq<nat>)
      requires Indexed(sockets, byConn) && finished == []
      modifies this`sockets, this`byConn, this`finished
      ensures Indexed(sockets, byConn)
      ensures sockets == LedgerModel.Expire(old(View()), now).sockets
      ensures Lists(finished, ids, if tells then Told(old(View()), now) else map[])
    {
      ids := ForgetAll(now, if tells then Told(View(), now) else map[]);
    }

    method ExpireClaims(now: Time)
      modifies this`claims
      ensures claims == LedgerModel.Expire(old(View()), now).claims
    {
      ghost var before := claims;
      var left := claims.Keys;
      while left != {}
        invariant left <= claims.Keys <= before.Keys
        invariant forall at :: at in claims ==> claims[at] == before[at]
        invariant forall at :: at in before && at !in left ==> (at in claims <==> !Stale(before[at], now))
        decreases left
      {
        var at :| at in left;
        left := left - {at};
        var c := claims[at];
        if (c.line.udp && now - c.line.at > UDP_KEEP) || (!c.line.udp && now - c.arrived > CLAIM_WAIT) {
          claims := claims - {at};
        }
      }
    }

    method Expire(now: Time) returns (ghost ids: seq<nat>)
      requires Indexed(sockets, byConn) && finished == []
      modifies this`sockets, this`byConn, this`claims, this`finished
      ensures Indexed(sockets, byConn)
      ensures View() == LedgerModel.Expire(old(View()), now)
      ensures Lists(finished, ids, if tells then Told(old(View()), now) else map[])
    {
      ids := ExpireSockets(now);
      ExpireClaims(now);
    }

    method MissAll()
      requires Indexed(sockets, byConn)
      modifies this`sockets
      ensures Indexed(sockets, byConn)
      ensures sockets == Missed(old(sockets))
    {
      hide Indexed;
      var todo := sockets.Keys;
      while todo != {}
        invariant todo <= sockets.Keys == old(sockets).Keys
        invariant forall k :: k in sockets ==>
                    sockets[k] == if k in todo then old(sockets)[k] else Missed(old(sockets))[k]
        decreases todo
      {
        var k :| k in todo;
        todo := todo - {k};
        if sockets[k].closedAt == 0 {
          sockets := sockets[k := sockets[k].(missing := sockets[k].missing + 1)];
        }
      }
      SameConnsIndexed(old(sockets), sockets, byConn);
    }

    method LoseAll(now: Time)
      requires Indexed(sockets, byConn)
      modifies this`sockets
      ensures Indexed(sockets, byConn)
      ensures sockets == Lost(old(sockets), now)
    {
      hide Indexed;
      var todo := sockets.Keys;
      while todo != {}
        invariant todo <= sockets.Keys == old(sockets).Keys
        invariant forall k :: k in sockets ==>
                    sockets[k] == if k in todo then old(sockets)[k] else Lost(old(sockets), now)[k]
        decreases todo
      {
        var k :| k in todo;
        todo := todo - {k};
        if sockets[k].closedAt == 0 && sockets[k].missing >= MISSING_DUMPS {
          sockets := sockets[k := sockets[k].(closedAt := now)];
        }
      }
      SameConnsIndexed(old(sockets), sockets, byConn);
    }

    /** One entry of a dump. */
    method ShowConn(c: Report) returns (isNew: bool)
      requires Indexed(sockets, byConn)
      modifies this`sockets, this`byConn
      ensures Indexed(sockets, byConn)
      ensures sockets == Show(old(sockets), dumped, c)
      ensures isNew <==> c.cookie !in old(sockets)
    {
      isNew := c.cookie !in sockets;
      if isNew {
        Add(c);
      } else if !sockets[c.cookie].noticed {
        Set(c.cookie, Updated(sockets[c.cookie].(missing := 0, closedAt := 0), c));
      }
    }

    method ShowConns(conns: seq<Report>) returns (added: seq<nat>)
      requires Indexed(sockets, byConn)
      modifies this`sockets, this`byConn
      ensures Indexed(sockets, byConn)
      ensures sockets == ShowAll(old(sockets), dumped, conns)
      ensures added == Added(old(sockets), conns)
    {
      hide Indexed;
      added := [];
      for i := 0 to |conns|
        invariant Indexed(sockets, byConn)
        invariant sockets == ShowAll(old(sockets), dumped, conns[..i])
        invariant added == Added(old(sockets), conns[..i])
        invariant forall k :: k in sockets <==> k in old(sockets) || k in added
      {
        ShownMore(old(sockets), dumped, conns, i);
        hide ShowAll, Added;
        var isNew := ShowConn(conns[i]);
        if isNew {
          added := added + [conns[i].cookie];
        }
      }
      assert conns[..|conns|] == conns;
    }

    method BindAdded(added: seq<nat>)
      requires Indexed(sockets, byConn) && GoodClaims(claims)
      requires forall i :: 0 <= i < |added| ==> added[i] in sockets
      modifies this`sockets, this`claims
      ensures Indexed(sockets, byConn)
      ensures View() == BindAll(old(View()), added)
    {
      ghost var before := View();
      for i := 0 to |added|
        invariant Indexed(sockets, byConn) && GoodClaims(claims)
        invariant View() == BindAll(before, added[..i])
        invariant sockets.Keys == before.sockets.Keys
      {
        assert added[..i + 1][..i] == added[..i];
        BindSocket(added[i]);
      }
      assert added[..|added|] == added;
    }

    method ShowDump(conns: seq<Report>) returns (added: seq<nat>)
      requires Indexed(sockets, byConn)
      modifies this`sockets, this`byConn
      ensures Indexed(sockets, byConn)
      ensures sockets == ShowAll(Missed(old(sockets)), dumped, conns)
      ensures added == Added(old(sockets), conns)
      ensures forall i :: 0 <= i < |added| ==> added[i] in sockets
    {
      MissAll();
      added := ShowConns(conns);
      AddedSame(old(sockets), Missed(old(sockets)), conns);
      AddedShown(old(sockets), dumped, conns);
      assert forall i :: 0 <= i < |added| ==> added[i] in added;
    }

    /** A dump that could be read, before anything is forgotten. */
    method TakeConns(start: Time, now: Time, conns: seq<Report>)
      requires Valid() && 0 < start <= now
      modifies this`dumped, this`started, this`readable, this`sockets, this`byConn, this`claims
      ensures Indexed(sockets, byConn)
      ensures View() == TakeDump(old(View()), start, now, Some(conns))
    {
      readable := true;
      var added := ShowDump(conns);
      BindAdded(added);
      LoseAll(now);
      if dumped == 0 {
        started := start;
      }
      dumped := start;
    }

    method Take(start: Time, now: Time, dump: Option<seq<Report>>) returns (ghost ids: seq<nat>)
      requires Valid() && finished == [] && 0 < start <= now
      modifies this
      ensures Valid()
      ensures View() == Next(old(View()), Poll(start, now, dump))
      ensures Lists(finished, ids, if tells then Told(TakeDump(old(View()), start, now, dump), now) else map[])
    {
      StepKeeps(View(), Poll(start, now, dump));
      if dump.None? {
        readable := false;
      } else {
        TakeConns(start, now, dump.value);
      }
      ids := Expire(now);
    }

    /** Takes in a dump, then hands over what is to be told. */
    method TakePoll(start: Time, now: Time, dump: Option<seq<Report>>) returns (told: seq<Ended>, ghost ids: seq<nat>)
      requires Valid() && finished == [] && 0 < start <= now
      modifies this
      ensures Valid() && finished == []
      ensures View() == Next(old(View()), Poll(start, now, dump))
      ensures Lists(told, ids, if tells then Told(TakeDump(old(View()), start, now, dump), now) else map[])
    {
      ids := Take(start, now, dump);
      told := finished;
      finished := [];
    }

    method Close(now: Time, r: Report)
      requires Valid() && 0 < now
      modifies this`sockets, this`byConn, this`claims
      ensures Valid()
      ensures View() == Next(old(View()), Notice(now, r))
    {
      NoticeKeeps(View(), now, r);
      if dumped != 0 {
        if r.cookie !in sockets {
          CloseNew(now, r);
        } else {
          var s := Updated(sockets[r.cookie], r);
          if s.closedAt == 0 {
            s := s.(closedAt := now);
          }
          Set(r.cookie, s.(noticed := true));
        }
      }
    }

    /** Opened and closed between two dumps. */
    method CloseNew(now: Time, r: Report)
      requires Indexed(sockets, byConn) && GoodClaims(claims) && r.cookie !in sockets && dumped != 0
      modifies this`sockets, this`byConn, this`claims
      ensures Indexed(sockets, byConn)
      ensures View() == TakeNotice(old(View()), now, r)
    {
      Add(r);
      Set(r.cookie, sockets[r.cookie].(closedAt := now, noticed := true));
      assert sockets == old(sockets)[r.cookie := Fresh(r, dumped).(closedAt := now, noticed := true)];
      BindSocket(r.cookie);
    }
  }

  predicate Tellable(s: Socket, now: Time) {
    Over(s, now) && s.email != Nobody && s.after != 0
  }

  /** What is over is gone, except for what is still to do. */
  ghost predicate Pruned(x: map<nat, Socket>, y: map<nat, Socket>, todo: set<nat>, now: Time) {
    && todo <= y.Keys <= x.Keys
    && (forall k :: k in y ==> y[k] == x[k])
    && (forall k :: k in x && k !in todo ==> (k in y <==> !Over(x[k], now)))
  }

  lemma PrunedOn(x: map<nat, Socket>, y: map<nat, Socket>, todo: set<nat>, k: nat, now: Time)
    requires Pruned(x, y, todo, now) && k in todo
    ensures Pruned(x, if Over(y[k], now) then y - {k} else y, todo - {k}, now)
  {
  }

  /** The line goes to a connection, and nothing waits at its address. */
  function Gives(st: State, k: nat, s: Socket, line: Line): State {
    st.(sockets := st.sockets[k := s], claims := st.claims - {Key(line.conn, true)})
  }

  lemma FlowWaits(st: State, line: Line, now: Time)
    requires !line.tcp
    ensures Allowed(st, line, now, Flow)
    ensures TakeLine(st, line, now, Flow) == st.(claims := st.claims[Key(line.conn, false) := Claim(line, now, 1, 0)])
  {
  }

  lemma TailedInv(st: State, now: Time)
    requires Inv(st) && 0 < now
    ensures Inv(Tailed(st, now))
  {
  }

  /** All claims may stay while there are not too many. */
  lemma AllKept(claims: map<Key, Claim>)
    ensures Only(claims, claims.Keys) == claims && (|claims| <= MAX_CLAIMS ==> Kept(claims, claims.Keys))
  {
  }

  lemma OnlyInv(st: State, keep: set<Key>)
    requires Inv(st)
    ensures Inv(st.(claims := Only(st.claims, keep)))
  {
  }

  lemma LinesStep(st: State, now: Time, batch: seq<Line>, fates: seq<Fate>, keep: set<Key>)
    requires 0 < now && |batch| == |fates| && (forall i :: 0 <= i < |batch| ==> batch[i].email != Nobody)
    requires LegalBatch(Tailed(st, now), batch, now, fates)
               && Kept(TakeBatch(Tailed(st, now), batch, now, fates).claims, keep)
    ensures Legal(st, Lines(now, batch, fates, keep))
    ensures var done := TakeBatch(Tailed(st, now), batch, now, fates);
            Next(st, Lines(now, batch, fates, keep)) == done.(claims := Only(done.claims, keep))
  {
    hide TakeBatch, LegalBatch, Only, Kept, Tailed;
  }

  lemma ShownMore(sockets: map<nat, Socket>, dumped: Time, conns: seq<Report>, i: nat)
    requires i < |conns|
    ensures ShowAll(sockets, dumped, conns[..i + 1]) == Show(ShowAll(sockets, dumped, conns[..i]), dumped, conns[i])
    ensures Added(sockets, conns[..i + 1])
         == Added(sockets, conns[..i]) + if conns[i].cookie in sockets
             || conns[i].cookie in Added(sockets, conns[..i]) then []
                                         else [conns[i].cookie]
  {
    assert conns[..i + 1][..i] == conns[..i];
  }

  lemma BatchMore(st: State, batch: seq<Line>, now: Time, fates: seq<Fate>, f: Fate)
    requires |fates| < |batch| && LegalBatch(st, batch[..|fates|], now, fates)
    requires Allowed(TakeBatch(st, batch[..|fates|], now, fates), batch[|fates|], now, f)
    ensures LegalBatch(st, batch[..|fates| + 1], now, fates + [f])
    ensures TakeBatch(st, batch[..|fates| + 1], now, fates + [f])
         == TakeLine(TakeBatch(st, batch[..|fates|], now, fates), batch[|fates|], now, f)
  {
    assert batch[..|fates| + 1][..|fates|] == batch[..|fates|] && (fates + [f])[..|fates|] == fates;
    hide Allowed, TakeLine;
  }

  lemma StruckIsContest(st: State, line: Line, now: Time)
    ensures TakeLine(st, line, now, Contest) == st.(sockets := map k | k in st.sockets :: Struck(st, st.sockets[k],
              line, now))
  {
  }

  lemma NoContest(st: State, line: Line, now: Time)
    requires !Contests(st, line, now)
    ensures (map k | k in st.sockets :: Struck(st, st.sockets[k], line, now)) == st.sockets
  {
    forall k | k in st.sockets
      ensures Struck(st, st.sockets[k], line, now) == st.sockets[k]
    {
    }
  }

  lemma {:induction false} AddedSame(x: map<nat, Socket>, y: map<nat, Socket>, conns: seq<Report>)
    requires x.Keys == y.Keys
    ensures Added(x, conns) == Added(y, conns)
  {
    if conns != [] {
      AddedSame(x, y, conns[..|conns| - 1]);
    }
  }

  lemma AddedShown(sockets: map<nat, Socket>, dumped: Time, conns: seq<Report>)
    ensures forall k :: k in Added(sockets, conns) ==> k in ShowAll(Missed(sockets), dumped, conns)
  {
    AddedExactly(sockets, conns);
    forall k | k in Added(sockets, conns)
      ensures k in ShowAll(Missed(sockets), dumped, conns)
    {
      ShowAllKey(Missed(sockets), dumped, conns, k);
    }
  }

  /** What a contesting line makes of one socket. */
  function Struck(st: State, s: Socket, line: Line, now: Time): Socket {
    if Contested(st, s, line, now) then Disputed(s) else s
  }

  predicate Touches(st: State, s: Socket, line: Line, now: Time) {
    Contested(st, s, line, now) || Doubtful(s, line)
  }

  /** The first i of the sockets are as the line leaves them, the others as they were. */
  ghost predicate StruckTo(st: State, sockets: map<nat, Socket>, ids: seq<nat>, i: nat, line: Line, now: Time)
    requires i <= |ids|
  {
    && sockets.Keys == st.sockets.Keys
    && (forall j :: 0 <= j < |ids| ==> ids[j] in st.sockets && st.sockets[ids[j]].conn == line.conn)
    && (forall j :: 0 <= j < i ==> sockets[ids[j]] == Struck(st, st.sockets[ids[j]], line, now))
    && (forall j :: i <= j < |ids| ==> sockets[ids[j]] == st.sockets[ids[j]])
    && (forall k :: k in sockets && k !in ids ==> sockets[k] == st.sockets[k])
  }

  ghost predicate NoneTouched(st: State, ids: seq<nat>, i: nat, line: Line, now: Time) {
    i <= |ids| && forall j :: 0 <= j < i ==> ids[j] in st.sockets && !Touches(st, st.sockets[ids[j]], line, now)
  }

  lemma StruckNone(st: State, ids: seq<nat>, line: Line, now: Time)
    requires forall j :: 0 <= j < |ids| ==> ids[j] in st.sockets && st.sockets[ids[j]].conn == line.conn
    ensures StruckTo(st, st.sockets, ids, 0, line, now) && NoneTouched(st, ids, 0, line, now)
  {
  }

  lemma NextStruck(st: State, sockets: map<nat, Socket>, ids: seq<nat>, i: nat, line: Line, now: Time)
    requires i < |ids| && StruckTo(st, sockets, ids, i, line, now)
    ensures ids[i] in sockets && ids[i] in st.sockets && sockets[ids[i]] == st.sockets[ids[i]]
              && sockets[ids[i]].conn == line.conn
  {
  }

  lemma StruckOn(st: State, sockets: map<nat, Socket>, ids: seq<nat>, i: nat, t: Socket, d: bool, line: Line, now: Time)
    requires i < |ids| && StruckTo(st, sockets, ids, i, line, now)
    requires forall i, j :: 0 <= i < j < |ids| ==> ids[i] != ids[j]
    requires t == Struck(st, st.sockets[ids[i]], line, now) && (d <==> Touches(st, st.sockets[ids[i]], line, now))
    ensures StruckTo(st, sockets[ids[i] := t], ids, i + 1, line, now)
    ensures d ==> Contests(st, line, now)
    ensures !d && NoneTouched(st, ids, i, line, now) ==> NoneTouched(st, ids, i + 1, line, now)
  {
  }

  /** Searching the sockets of the line's connection is searching them all. */
  lemma AllStruck(st: State, sockets: map<nat, Socket>, ids: seq<nat>, line: Line, now: Time)
    requires forall k :: k in ids <==> k in st.sockets && st.sockets[k].conn == line.conn
    requires StruckTo(st, sockets, ids, |ids|, line, now)
    ensures sockets.Keys == st.sockets.Keys && forall k :: k in sockets ==> sockets[k].conn == st.sockets[k].conn
    ensures sockets == map k | k in st.sockets :: Struck(st, st.sockets[k], line, now)
    ensures NoneTouched(st, ids, |ids|, line, now) ==> !Contests(st, line, now)
  {
    forall k | k in sockets
      ensures sockets[k] == Struck(st, st.sockets[k], line, now)
    {
      if k in ids {
        var j :| 0 <= j < |ids| && ids[j] == k;
      }
    }
    if Contests(st, line, now) {
      var k :| k in st.sockets && (Contested(st, st.sockets[k], line, now) || Doubtful(st.sockets[k], line));
      assert k in ids;
      var j :| 0 <= j < |ids| && ids[j] == k;
      assert Touches(st, st.sockets[ids[j]], line, now);
    }
  }
}
