/** What the connection ledger keeps and how each lock-held step changes it.
    The index of sockets by connection is not part of this state: the class in
    Ledger.dfy keeps it and is proved to behave as if every socket were searched. */
module LedgerModel {
  import opened Common

  /** Nanoseconds; 0 is the zero time, which is before every clock reading. */
  type Time = nat

  const SECOND := 1_000_000_000
  const MISSING_DUMPS := 2
  const KEEP_CLOSED := 30 * SECOND
  const CLAIM_WAIT := 10 * SECOND
  const UDP_KEEP := 7200 * SECOND
  const MAX_CLAIMS := 65536

  /** The empty email is nobody's; any other value is a user. */
  datatype Email = Nobody | User(name: nat)

  datatype Endpoint = Endpoint(addr: nat, port: nat)

  /** What the log tells of a connection: our port and the client's address and port. */
  datatype Conn = Conn(port: nat, remote: Endpoint)

  /** An access log line; rest stands for what the ledger only passes on. */
  datatype Line = Line(conn: Conn, email: Email, at: Time, tcp: bool, udp: bool, rest: nat)

  const NO_LINE := Line(Conn(0, Endpoint(0, 0)), Nobody, 0, false, false, 0)

  /** An entry of a dump, or a close notice, with the kernel's counters. */
  datatype Report = Report(cookie: nat, local: Endpoint, remote: Endpoint, acked: nat, received: nat) {
    function Address(): Conn {
      Conn(local.port, remote)
    }
  }

  datatype Socket = Socket(conn: Conn, local: Endpoint, email: Email, line: Line, requests: nat,
                           acked: nat, received: nat, after: Time, closedAt: Time, noticed: bool,
                           missing: nat, disputed: bool)

  datatype Claim = Claim(line: Line, arrived: Time, requests: nat, rival: Time)

  datatype Key = Key(conn: Conn, tcp: bool)

  datatype Ended = Ended(line: Line, at: Time, up: nat, down: nat, requests: nat)

  datatype State = State(dumped: Time, started: Time, tail: Time, readable: bool,
                         sockets: map<nat, Socket>, claims: map<Key, Claim>)

  const EMPTY := State(0, 0, 0, true, map[], map[])

  // ---------------------------------------------------------------- sockets

  /** Whether the socket was not yet closed at that time. */
  predicate Covers(s: Socket, at: Time) {
    s.closedAt == 0 || at <= s.closedAt
  }

  function Fresh(r: Report, dumped: Time): Socket {
    Socket(r.Address(), r.local, Nobody, NO_LINE, 0, r.acked, r.received, dumped, 0, false, 0, false)
  }

  function Updated(s: Socket, r: Report): Socket {
    if r.acked < s.acked || r.received < s.received then s
    else s.(acked := r.acked, received := r.received)
  }

  function Shown(s: Socket, r: Report): Socket {
    if s.noticed then s else Updated(s.(missing := 0, closedAt := 0), r)
  }

  function Noticed(s: Socket, r: Report, now: Time): Socket {
    var u := Updated(s, r);
    u.(closedAt := if u.closedAt == 0 then now else u.closedAt, noticed := true)
  }

  function Bind(s: Socket, c: Claim): Socket {
    if c.rival > s.after then s.(disputed := true)
    else s.(email := c.line.email, line := c.line, requests := c.requests)
  }

  function Disputed(s: Socket): Socket {
    s.(email := Nobody, line := NO_LINE, requests := 0, disputed := true)
  }

  // ------------------------------------------------------------------ lines

  /** What became of a line. Where several connections could take it, the one
      that does is part of the outcome, so every order of search is covered. */
  datatype Fate = Flow | Replay(cookie: nat) | Carry(cookie: nat) | Bound(cookie: nat) | Contest | Wait

  predicate InTail(st: State, now: Time) {
    st.started != 0 && now - st.tail <= CLAIM_WAIT
  }

  ghost predicate CanReplay(st: State, k: nat, line: Line, now: Time) {
    && k in st.sockets
    && !line.udp && InTail(st, now) && line.at <= st.started
    && var s := st.sockets[k];
       s.conn == line.conn && s.after == 0 && s.email != Nobody && line.at > s.line.at
  }

  ghost predicate CanCarry(st: State, k: nat, line: Line) {
    && k in st.sockets
    && var s := st.sockets[k];
       s.conn == line.conn && s.email == line.email && Covers(s, line.at)
  }

  ghost predicate CanBind(st: State, k: nat, line: Line) {
    && k in st.sockets
    && var s := st.sockets[k];
       && s.conn == line.conn && s.email == Nobody && !s.disputed && line.at >= s.after
       && !(line.udp && s.after == 0) && Covers(s, line.at)
  }

  ghost predicate OnlyCandidate(st: State, k: nat, line: Line) {
    CanBind(st, k, line) && forall j :: CanBind(st, j, line) ==> j == k
  }

  /** The line leaves this bound connection nobody's. */
  predicate Contested(st: State, s: Socket, line: Line, now: Time) {
    && s.conn == line.conn && Covers(s, line.at) && !s.disputed
    && s.email != Nobody && s.email != line.email
    && (|| (s.after == 0 && InTail(st, now) && line.at > st.started && s.line.at <= st.started)
        || (line.udp && s.after != 0 && line.at > s.after))
  }

  /** The line may be a request on this connection that is already nobody's. */
  predicate Doubtful(s: Socket, line: Line) {
    s.conn == line.conn && Covers(s, line.at) && s.disputed && line.udp
  }

  ghost predicate Contests(st: State, line: Line, now: Time) {
    exists k :: k in st.sockets && (Contested(st, st.sockets[k], line, now) || Doubtful(st.sockets[k], line))
  }

  ghost predicate NoReplay(st: State, line: Line, now: Time) {
    forall k :: !CanReplay(st, k, line, now)
  }

  ghost predicate NoCarry(st: State, line: Line) {
    forall k :: !CanCarry(st, k, line)
  }

  ghost predicate NoBind(st: State, line: Line) {
    forall k :: !OnlyCandidate(st, k, line)
  }

  ghost predicate Allowed(st: State, line: Line, now: Time, f: Fate) {
    match f
    case Flow => !line.tcp
    case Replay(k) => line.tcp && CanReplay(st, k, line, now)
    case Carry(k) => line.tcp && NoReplay(st, line, now) && CanCarry(st, k, line)
    case Bound(k) => line.tcp && NoReplay(st, line, now) && NoCarry(st, line) && OnlyCandidate(st, k, line)
    case Contest =>
      line.tcp && NoReplay(st, line, now) && NoCarry(st, line) && NoBind(st, line) && Contests(st, line, now)
    case Wait =>
      line.tcp && NoReplay(st, line, now) && NoCarry(st, line) && NoBind(st, line) && !Contests(st, line, now)
  }

  /** The time of the last waiting line there that was somebody else's. */
  function Rival(claims: map<Key, Claim>, line: Line): Time {
    var at := Key(line.conn, true);
    if !line.udp || at !in claims then 0
    else if claims[at].line.email != line.email then claims[at].line.at
    else claims[at].rival
  }

  /** The line as a claim, with the requests of its user's line it would replace. */
  function Waiting(claims: map<Key, Claim>, line: Line, now: Time): Claim {
    var at := Key(line.conn, true);
    var merged := if at in claims && claims[at].line.email == line.email then claims[at].requests else 0;
    Claim(line, now, 1 + merged, Rival(claims, line))
  }

  function TakeLine(st: State, line: Line, now: Time, f: Fate): State {
    var at := Key(line.conn, line.tcp);
    match f
    case Flow => st.(claims := st.claims[at := Claim(line, now, 1, 0)])
    case Replay(k) =>
      if k !in st.sockets then st else
      st.(sockets := st.sockets[k := st.sockets[k].(email := line.email, line := line, requests := 1)],
          claims := st.claims - {at})
    case Carry(k) =>
      if k !in st.sockets then st else
      st.(sockets := st.sockets[k := st.sockets[k].(requests := st.sockets[k].requests + 1)],
          claims := st.claims - {at})
    case Bound(k) =>
      if k !in st.sockets then st else
      st.(sockets := st.sockets[k := Bind(st.sockets[k], Claim(line, now, 1, Rival(st.claims, line)))],
          claims := st.claims - {at})
    case Contest =>
      st.(sockets := map k | k in st.sockets ::
            if Contested(st, st.sockets[k], line, now) then Disputed(st.sockets[k]) else st.sockets[k])
    case Wait => st.(claims := st.claims[at := Waiting(st.claims, line, now)])
  }

  function TakeBatch(st: State, batch: seq<Line>, now: Time, fates: seq<Fate>): State
    requires |batch| == |fates|
  {
    if batch == [] then st
    else
      var n := |batch| - 1;
      TakeLine(TakeBatch(st, batch[..n], now, fates[..n]), batch[n], now, fates[n])
  }

  ghost predicate LegalBatch(st: State, batch: seq<Line>, now: Time, fates: seq<Fate>)
    requires |batch| == |fates|
  {
    batch == [] ||
    (var n := |batch| - 1;
     && LegalBatch(st, batch[..n], now, fates[..n])
     && Allowed(TakeBatch(st, batch[..n], now, fates[..n]), batch[n], now, fates[n]))
  }

  /** The claims left after a batch: all of them, or past the limit the newest
      nine tenths of the limit, none of which came before one that is dropped. */
  ghost predicate Kept(claims: map<Key, Claim>, keep: set<Key>) {
    && keep <= claims.Keys
    && (|claims| <= MAX_CLAIMS ==> keep == claims.Keys)
    && (|claims| > MAX_CLAIMS ==>
          && |keep| == MAX_CLAIMS * 9 / 10
          && forall a, b :: a in keep && b in claims.Keys - keep ==> claims[b].arrived <= claims[a].arrived)
  }

  function Only(claims: map<Key, Claim>, keep: set<Key>): map<Key, Claim> {
    map at | at in claims && at in keep :: claims[at]
  }

  function Tailed(st: State, now: Time): State {
    if st.tail == 0 && st.started != 0 then st.(tail := now) else st
  }

  // ------------------------------------------------------------------ dumps

  function Missed(sockets: map<nat, Socket>): map<nat, Socket> {
    map k | k in sockets ::
      if sockets[k].closedAt == 0 then sockets[k].(missing := sockets[k].missing + 1) else sockets[k]
  }

  function Show(sockets: map<nat, Socket>, dumped: Time, r: Report): map<nat, Socket> {
    if r.cookie !in sockets then sockets[r.cookie := Fresh(r, dumped)]
    else sockets[r.cookie := Shown(sockets[r.cookie], r)]
  }

  function ShowAll(sockets: map<nat, Socket>, dumped: Time, conns: seq<Report>): map<nat, Socket> {
    if conns == [] then sockets
    else
      var n := |conns| - 1;
      Show(ShowAll(sockets, dumped, conns[..n]), dumped, conns[n])
  }

  /** The cookies a dump shows for the first time, in its order. */
  function Added(sockets: map<nat, Socket>, conns: seq<Report>): seq<nat> {
    if conns == [] then []
    else
      var n := |conns| - 1;
      var added := Added(sockets, conns[..n]);
      if conns[n].cookie in sockets || conns[n].cookie in added then added else added + [conns[n].cookie]
  }

  /** A socket just shown takes the line that waits at its address when it is
      the only one that can. */
  ghost function BindNew(st: State, k: nat): State {
    if k !in st.sockets then st
    else
      var at := Key(st.sockets[k].conn, true);
      if at in st.claims && OnlyCandidate(st, k, st.claims[at].line)
      then st.(sockets := st.sockets[k := Bind(st.sockets[k], st.claims[at])], claims := st.claims - {at})
      else st
  }

  ghost function BindAll(st: State, ids: seq<nat>): State {
    if ids == [] then st
    else
      var n := |ids| - 1;
      BindNew(BindAll(st, ids[..n]), ids[n])
  }

  function Lost(sockets: map<nat, Socket>, now: Time): map<nat, Socket> {
    map k | k in sockets ::
      if sockets[k].closedAt == 0 && sockets[k].missing >= MISSING_DUMPS
      then sockets[k].(closedAt := now) else sockets[k]
  }

  predicate Over(s: Socket, now: Time) {
    s.closedAt != 0 && now - s.closedAt > KEEP_CLOSED
  }

  predicate Stale(c: Claim, now: Time) {
    if c.line.udp then now - c.line.at > UDP_KEEP else now - c.arrived > CLAIM_WAIT
  }

  function Expire(st: State, now: Time): State {
    st.(sockets := map k | k in st.sockets && !Over(st.sockets[k], now) :: st.sockets[k],
        claims := map at | at in st.claims && !Stale(st.claims[at], now) :: st.claims[at])
  }

  function EndedOf(s: Socket): Ended {
    Ended(s.line, s.closedAt, s.received, s.acked, s.requests)
  }

  /** The bound connections opened since the start that expire now, as told. */
  function Told(st: State, now: Time): map<nat, Ended> {
    map k | k in st.sockets && Over(st.sockets[k], now) && st.sockets[k].email != Nobody && st.sockets[k].after != 0
      :: EndedOf(st.sockets[k])
  }

  /** Everything a dump does before what is over is forgotten. */
  ghost function TakeDump(st: State, start: Time, now: Time, dump: Option<seq<Report>>): State {
    match dump
    case None => st.(readable := false)
    case Some(conns) =>
      var shown := st.(sockets := ShowAll(Missed(st.sockets), st.dumped, conns), readable := true);
      var bound := BindAll(shown, Added(st.sockets, conns));
      bound.(sockets := Lost(bound.sockets, now),
             started := if st.dumped == 0 then start else st.started,
             dumped := start)
  }

  ghost function TakeNotice(st: State, now: Time, r: Report): State {
    if st.dumped == 0 then st
    else if r.cookie !in st.sockets then
      BindNew(st.(sockets := st.sockets[r.cookie := Fresh(r, st.dumped).(closedAt := now, noticed := true)]), r.cookie)
    else st.(sockets := st.sockets[r.cookie := Noticed(st.sockets[r.cookie], r, now)])
  }

  // -------------------------------------------------------------------- runs

  /** One lock-held step: a dump (None when the kernel could not be read), a
      close notice, or a batch of lines with what became of each. */
  datatype Event =
    | Poll(start: Time, now: Time, dump: Option<seq<Report>>)
    | Notice(now: Time, report: Report)
    | Lines(now: Time, batch: seq<Line>, fates: seq<Fate>, keep: set<Key>)

  ghost function Next(st: State, ev: Event): State {
    match ev
    case Poll(start, now, dump) => Expire(TakeDump(st, start, now, dump), now)
    case Notice(now, r) => TakeNotice(st, now, r)
    case Lines(now, batch, fates, keep) =>
      if |batch| != |fates| then st
      else
        var done := TakeBatch(Tailed(st, now), batch, now, fates);
        done.(claims := Only(done.claims, keep))
  }

  /** The clock is past the zero time, lines carry a user, and the outcomes are
      ones the ledger can reach. */
  ghost predicate Legal(st: State, ev: Event) {
    match ev
    case Poll(start, now, dump) => 0 < start <= now
    case Notice(now, r) => 0 < now
    case Lines(now, batch, fates, keep) =>
      && 0 < now && |batch| == |fates|
      && (forall i :: 0 <= i < |batch| ==> batch[i].email != Nobody)
      && LegalBatch(Tailed(st, now), batch, now, fates)
      && Kept(TakeBatch(Tailed(st, now), batch, now, fates).claims, keep)
  }

  /** The state after a run from st. */
  ghost function After(st: State, evs: seq<Event>): State {
    if evs == [] then st else Next(After(st, evs[..|evs| - 1]), evs[|evs| - 1])
  }

  ghost predicate LegalRun(st: State, evs: seq<Event>) {
    evs == [] || (LegalRun(st, evs[..|evs| - 1]) && Legal(After(st, evs[..|evs| - 1]), evs[|evs| - 1]))
  }
}
