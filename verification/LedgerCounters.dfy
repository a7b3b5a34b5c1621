/** What a connection is told to have carried is the most the kernel ever said. */
module LedgerCounters {
  import opened Common
  import opened LedgerModel
  import opened LedgerRuns
  import opened LedgerLocal

  datatype Count = Count(acked: nat, received: nat)

  predicate AtMost(x: Count, y: Count) {
    x.acked <= y.acked && x.received <= y.received
  }

  function Counts(s: Socket): Count {
    Count(s.acked, s.received)
  }

  /** What a dump says of a connection. */
  function DumpCounts(conns: seq<Report>, k: nat): seq<Count> {
    if conns == [] then []
    else
      var n := |conns| - 1;
      DumpCounts(conns[..n], k) + (if conns[n].cookie == k then [Count(conns[n].acked, conns[n].received)] else [])
  }

  function EventCounts(ev: Event, k: nat): seq<Count> {
    match ev
    case Poll(_, _, dump) => if dump.Some? then DumpCounts(dump.value, k) else []
    case Notice(_, r) => if r.cookie == k then [Count(r.acked, r.received)] else []
    case Lines(_, _, _, _) => []
  }

  /** All the kernel said of a connection from a state on. */
  function Said(first: Count, evs: seq<Event>, k: nat): seq<Count> {
    if evs == [] then [first]
    else
      var n := |evs| - 1;
      Said(first, evs[..n], k) + EventCounts(evs[n], k)
  }

  /** Counters only grow, so any two reports of a connection are ordered. */
  ghost predicate Growing(cs: seq<Count>) {
    forall i, j :: 0 <= i < |cs| && 0 <= j < |cs| ==> AtMost(cs[i], cs[j]) || AtMost(cs[j], cs[i])
  }

  ghost predicate Highest(c: Count, cs: seq<Count>) {
    c in cs && forall i :: 0 <= i < |cs| ==> AtMost(cs[i], c)
  }

  /** A close notice is the kernel's last word. */
  ghost predicate NoticeFinal(st: State, evs: seq<Event>, k: nat) {
    evs == [] ||
    (var n := |evs| - 1;
     var mid := After(st, evs[..n]);
     && NoticeFinal(st, evs[..n], k)
     && (k in mid.sockets && mid.sockets[k].noticed ==>
           forall c :: c in EventCounts(evs[n], k) ==> AtMost(c, Counts(mid.sockets[k]))))
  }

  lemma HighestOn(c: Count, d: Count, next: Count, cs: seq<Count>)
    requires Highest(c, cs) && Growing(cs + [d])
    requires next == if d.acked < c.acked || d.received < c.received then c else d
    ensures Highest(next, cs + [d])
  {
    var all := cs + [d];
    var i :| 0 <= i < |cs| && cs[i] == c;
    assert all[i] == c && all[|cs|] == d;
    assert AtMost(all[i], all[|cs|]) || AtMost(all[|cs|], all[i]);
    assert next in all;
    forall j | 0 <= j < |all|
      ensures AtMost(all[j], next)
    {
      if j < |cs| {
        assert all[j] == cs[j];
      }
    }
  }

  lemma GrowingPrefix(a: seq<Count>, b: seq<Count>)
    requires Growing(a + b)
    ensures Growing(a)
  {
    forall i, j | 0 <= i < |a| && 0 <= j < |a|
      ensures AtMost(a[i], a[j]) || AtMost(a[j], a[i])
    {
      assert (a + b)[i] == a[i] && (a + b)[j] == a[j];
    }
  }

  lemma {:induction false} DumpHighest(sockets: map<nat, Socket>, dumped: Time, conns: seq<Report>, k: nat,
                                       cs: seq<Count>)
    requires k in sockets && !sockets[k].noticed && Highest(Counts(sockets[k]), cs)
               && Growing(cs + DumpCounts(conns, k))
    ensures k in ShowAll(sockets, dumped, conns) && !ShowAll(sockets, dumped, conns)[k].noticed
    ensures Highest(Counts(ShowAll(sockets, dumped, conns)[k]), cs + DumpCounts(conns, k))
  {
    if conns == [] {
      assert cs + [] == cs;
    } else {
      var n := |conns| - 1;
      var sofar := cs + DumpCounts(conns[..n], k);
      if conns[n].cookie == k {
        var c := Count(conns[n].acked, conns[n].received);
        assert cs + DumpCounts(conns, k) == sofar + [c];
        GrowingPrefix(sofar, [c]);
        DumpHighest(sockets, dumped, conns[..n], k, cs);
        var s := ShowAll(sockets, dumped, conns[..n])[k];
        HighestOn(Counts(s), c, Counts(Shown(s, conns[n])), sofar);
      } else {
        assert cs + DumpCounts(conns, k) == sofar;
        DumpHighest(sockets, dumped, conns[..n], k, cs);
      }
    }
  }

  /** Binding, losing and taking lines leave the counters alone. */
  lemma {:induction false} BindAllCounts(st: State, ids: seq<nat>, k: nat)
    requires k in st.sockets
    ensures k in BindAll(st, ids).sockets && Counts(BindAll(st, ids).sockets[k]) == Counts(st.sockets[k])
  {
    if ids != [] {
      BindAllCounts(st, ids[..|ids| - 1], k);
    }
  }

  lemma LineCounts(st: State, line: Line, now: Time, f: Fate, k: nat)
    requires k in st.sockets
    ensures k in TakeLine(st, line, now, f).sockets
              && Counts(TakeLine(st, line, now, f).sockets[k]) == Counts(st.sockets[k])
  {
  }

  lemma {:induction false} BatchCounts(st: State, batch: seq<Line>, now: Time, fates: seq<Fate>, k: nat)
    requires k in st.sockets && |batch| == |fates|
    ensures k in TakeBatch(st, batch, now, fates).sockets
    ensures Counts(TakeBatch(st, batch, now, fates).sockets[k]) == Counts(st.sockets[k])
  {
    if batch != [] {
      var n := |batch| - 1;
      BatchCounts(st, batch[..n], now, fates[..n], k);
      LineCounts(TakeBatch(st, batch[..n], now, fates[..n]), batch[n], now, fates[n], k);
      hide TakeLine, Counts;
    }
  }

  lemma {:induction false} ShowNoticed(sockets: map<nat, Socket>, dumped: Time, conns: seq<Report>, k: nat)
    requires k in sockets && sockets[k].noticed
    ensures k in ShowAll(sockets, dumped, conns) && ShowAll(sockets, dumped, conns)[k] == sockets[k]
  {
    if conns != [] {
      ShowNoticed(sockets, dumped, conns[..|conns| - 1], k);
    }
  }

  /** A dump, before what is over is forgotten. */
  lemma PollHighest(st: State, start: Time, now: Time, conns: seq<Report>, k: nat, cs: seq<Count>)
    requires k in st.sockets && Highest(Counts(st.sockets[k]), cs) && Growing(cs + DumpCounts(conns, k))
    requires st.sockets[k].noticed ==> forall c :: c in DumpCounts(conns, k) ==> AtMost(c, Counts(st.sockets[k]))
    ensures var taken := TakeDump(st, start, now, Some(conns));
            k in taken.sockets && Highest(Counts(taken.sockets[k]), cs + DumpCounts(conns, k))
  {
    var missed := Missed(st.sockets);
    assert Counts(missed[k]) == Counts(st.sockets[k]);
    if st.sockets[k].noticed {
      ShowNoticed(missed, st.dumped, conns, k);
    } else {
      DumpHighest(missed, st.dumped, conns, k, cs);
    }
    var shown := st.(sockets := ShowAll(missed, st.dumped, conns), readable := true);
    BindAllCounts(shown, Added(st.sockets, conns), k);
  }

  /** A poll, whether the dump could be read or not. */
  lemma AnyPollHighest(st: State, start: Time, now: Time, dump: Option<seq<Report>>, k: nat, cs: seq<Count>)
    requires k in st.sockets && Highest(Counts(st.sockets[k]), cs)
               && Growing(cs + EventCounts(Poll(start, now, dump), k))
    requires st.sockets[k].noticed ==> forall c :: c in EventCounts(Poll(start, now, dump), k) ==>
               AtMost(c, Counts(st.sockets[k]))
    ensures var taken := TakeDump(st, start, now, dump);
            k in taken.sockets && Highest(Counts(taken.sockets[k]), cs + EventCounts(Poll(start, now, dump), k))
  {
    if dump.Some? {
      PollHighest(st, start, now, dump.value, k, cs);
    } else {
      assert cs + [] == cs;
    }
  }

  lemma StepHighest(st: State, ev: Event, k: nat, cs: seq<Count>)
    requires Legal(st, ev) && st.dumped != 0
    requires k in st.sockets && Highest(Counts(st.sockets[k]), cs) && Growing(cs + EventCounts(ev, k))
    requires st.sockets[k].noticed ==> forall c :: c in EventCounts(ev, k) ==> AtMost(c, Counts(st.sockets[k]))
    ensures k in Next(st, ev).sockets ==> Highest(Counts(Next(st, ev).sockets[k]), cs + EventCounts(ev, k))
  {
    match ev
    case Poll(start, now, dump) =>
      AnyPollHighest(st, start, now, dump, k, cs);
    case Notice(now, r) =>
      if r.cookie == k {
        HighestOn(Counts(st.sockets[k]), Count(r.acked, r.received), Counts(Noticed(st.sockets[k], r, now)), cs);
      } else {
        assert cs + [] == cs;
      }
    case Lines(now, batch, fates, keep) =>
      assert cs + [] == cs;
      BatchCounts(Tailed(st, now), batch, now, fates, k);
  }

  /** While the ledger keeps a connection, its counters are the highest of all the
      kernel said of it, and one the kernel did say. */
  lemma {:induction false} KeepsHighest(st: State, evs: seq<Event>, k: nat)
    requires Inv(st) && LegalRun(st, evs) && Stays(st, evs, k) && k in st.sockets
    requires NoticeFinal(st, evs, k) && Growing(Said(Counts(st.sockets[k]), evs, k))
    ensures k in After(st, evs).sockets
    ensures Highest(Counts(After(st, evs).sockets[k]), Said(Counts(st.sockets[k]), evs, k))
  {
    if evs != [] {
      var n := |evs| - 1;
      GrowingPrefix(Said(Counts(st.sockets[k]), evs[..n], k), EventCounts(evs[n], k));
      KeepsHighest(st, evs[..n], k);
      RunKeeps(st, evs[..n]);
      StepHighest(After(st, evs[..n]), evs[n], k, Said(Counts(st.sockets[k]), evs[..n], k));
    }
  }

  /** A connection a poll forgets, its dump read or not, is told of exactly when it is
      bound and was opened since the start: once, with its line and the highest counters. */
  lemma ToldOnceWithHighest(st: State, evs: seq<Event>, start: Time, now: Time, dump: Option<seq<Report>>,
                            told: map<nat, Ended>, k: nat)
    requires Inv(st) && LegalRun(st, evs) && Stays(st, evs, k) && k in st.sockets && 0 < start <= now
    requires NoticeFinal(st, evs + [Poll(start, now, dump)], k)
    requires Growing(Said(Counts(st.sockets[k]), evs + [Poll(start, now, dump)], k))
    requires told == Told(TakeDump(After(st, evs), start, now, dump), now)
    requires k !in Next(After(st, evs), Poll(start, now, dump)).sockets
    ensures var s := TakeDump(After(st, evs), start, now, dump).sockets;
            k in s && (k in told <==> s[k].email != Nobody && s[k].after != 0)
    ensures k in told ==>
              && told[k].line.email != Nobody && told[k].requests >= 1
              && Highest(Count(told[k].down, told[k].up),
                  Said(Counts(st.sockets[k]), evs + [Poll(start, now, dump)], k))
  {
    var poll := Poll(start, now, dump);
    var all := evs + [poll];
    assert all[..|all| - 1] == evs && all[|evs|] == poll;
    var first := Counts(st.sockets[k]);
    assert Said(first, all, k) == Said(first, evs, k) + EventCounts(poll, k);
    GrowingPrefix(Said(first, evs, k), EventCounts(poll, k));
    KeepsHighest(st, evs, k);
    RunKeeps(st, evs);
    AnyPollHighest(After(st, evs), start, now, dump, k, Said(first, evs, k));
    TakeDumpKeeps(After(st, evs), start, now, dump);
    assert GoodSocket(TakeDump(After(st, evs), start, now, dump).sockets[k]);
  }
}
