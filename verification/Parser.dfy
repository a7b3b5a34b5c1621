/** Reading one access line of an accepted request, whatever destination
    the client chose to write into it. */
module LogParser {
  import opened Common

  type Time = nat

  datatype Endpoint = Endpoint(addr: nat, port: nat)

  datatype Dest = Dest(network: string, host: string, port: nat)

  const NO_DEST := Dest("", "", 0)

  datatype Entry = Entry(at: Time, tag: string, addr: Endpoint, email: string, dest: Dest, outbound: string)

  /** The library calls the parser makes: they read an address with its port, a
      time stamp, the host and port of a destination, and a port number. */
  datatype Library = Library(
    parseAddrPort: string -> Option<Endpoint>,
    unmap: nat -> nat,
    parseTime: string -> Option<Time>,
    splitHostPort: string -> Option<(string, string)>,
    parsePort: string -> Option<nat>)

  const FROM := " from "
  const ACCEPTED := " accepted "
  const EMAIL := " email: "
  const MAX_HOST := 255

  // ---------------------------------------------------------------- searching

  predicate Holds(s: string, sep: string, i: nat) {
    i + |sep| <= |s| && s[i..i + |sep|] == sep
  }

  function IndexFrom(s: string, sep: string, i: nat): (found: Option<nat>)
    ensures found.Some? ==> i <= found.value && Holds(s, sep, found.value)
    ensures found.Some? ==> forall k :: i <= k < found.value ==> !Holds(s, sep, k)
    ensures found.None? ==> forall k :: i <= k ==> !Holds(s, sep, k)
    decreases |s| - i
  {
    if i + |sep| > |s| then None
    else if Holds(s, sep, i) then Some(i)
    else if i == |s| then None
    else IndexFrom(s, sep, i + 1)
  }

  function LastIndexTo(s: string, sep: string, n: nat): (found: Option<nat>)
    ensures found.Some? ==> found.value < n && Holds(s, sep, found.value)
    ensures found.Some? ==> forall k :: found.value < k < n ==> !Holds(s, sep, k)
    ensures found.None? ==> forall k :: 0 <= k < n ==> !Holds(s, sep, k)
  {
    if n == 0 then None else if Holds(s, sep, n - 1) then Some(n - 1) else LastIndexTo(s, sep, n - 1)
  }

  function LastIndex(s: string, sep: string): Option<nat> {
    LastIndexTo(s, sep, |s|)
  }

  /** The text before the first separator, and after it. */
  function Cut(s: string, sep: string): Option<(string, string)> {
    var found := IndexFrom(s, sep, 0);
    if found.None? then None else Some((s[..found.value], s[found.value + |sep|..]))
  }

  function TrimPrefix(s: string, prefix: string): string {
    if prefix <= s then s[|prefix|..] else s
  }

  function TrimSuffix(s: string, suffix: string): string {
    if |suffix| <= |s| && s[|s| - |suffix|..] == suffix then s[..|s| - |suffix|] else s
  }

  // ------------------------------------------------------------------ parsing

  /** The pieces of a line, before any of them is read. */
  datatype Pieces = Pieces(stamp: string, source: string, tag: string, outbound: string, email: string, dest: string)

  function Split(raw: string): Option<Pieces> {
    var first := Cut(raw, FROM);
    if first.None? then None
    else
      var second := Cut(first.value.1, ACCEPTED);
      if second.None? then None
      else SplitRoute(first.value.0, second.value.0, second.value.1)
  }

  function SplitRoute(stamp: string, source: string, rest: string): Option<Pieces> {
    var at := LastIndex(rest, EMAIL);
    if at.None? then None
    else
      var email := rest[at.value + |EMAIL|..];
      var route := rest[..at.value];
      var begin := LastIndex(route, "[");
      if email == "" || ' ' in email || '\t' in email then None
      else if begin.None? || route[|route| - 1] != ']' then None
      else
        var detour := route[begin.value + 1..|route| - 1];
        var tag := Cut(detour, " ");
        if tag.None? || tag.value.0 == "" then None
        else
          Some(Pieces(stamp, source, tag.value.0, detour[LastIndex(detour, " ").value + 1..], email,
                      TrimSuffix(route[..begin.value], " ")))
  }

  function ParseSource(source: string, lib: Library): Option<Endpoint> {
    var addr := lib.parseAddrPort(TrimPrefix(TrimPrefix(source, "tcp:"), "udp:"));
    if addr.None? || addr.value.port == 0 then None else Some(Endpoint(lib.unmap(addr.value.addr), addr.value.port))
  }

  function ParseStamp(stamp: string, lib: Library): Time {
    var at := lib.parseTime(stamp);
    if at.Some? then at.value else 0
  }

  predicate PlainChar(c: char) {
    'a' <= c <= 'z' || 'A' <= c <= 'Z' || '0' <= c <= '9' || c == '.' || c == '-' || c == '_' || c == ':'
  }

  predicate PlainHost(host: string) {
    && TrimSuffix(host, ".") != "" && |host| <= MAX_HOST
    && forall i :: 0 <= i < |host| ==> PlainChar(host[i])
  }

  function ParseDest(s: string, lib: Library): (d: Dest)
    ensures d != NO_DEST ==> PlainHost(d.host) && d.port != 0 && d.network in ["", "tcp", "udp"]
  {
    var cut := Cut(s, ":");
    var named := cut.Some? && (cut.value.0 == "tcp" || cut.value.0 == "udp");
    var network := if named then cut.value.0 else "";
    var hostPort := lib.splitHostPort(if named then cut.value.1 else s);
    if hostPort.None? then NO_DEST
    else
      var port := lib.parsePort(hostPort.value.1);
      if port.None? || port.value == 0 || !PlainHost(hostPort.value.0) then NO_DEST
      else Dest(network, hostPort.value.0, port.value)
  }

  function Parse(raw: string, lib: Library): Option<Entry> {
    var pieces := Split(raw);
    if pieces.None? then None
    else
      var p := pieces.value;
      var addr := ParseSource(p.source, lib);
      if addr.None? then None
      else Some(Entry(ParseStamp(p.stamp, lib), p.tag, addr.value, p.email, ParseDest(p.dest, lib), p.outbound))
  }

  /** The host of a destination is checked character by character. */
  method CheckHost(host: string) returns (plain: bool)
    ensures plain == PlainHost(host)
  {
    if TrimSuffix(host, ".") == "" || |host| > MAX_HOST {
      return false;
    }
    for i := 0 to |host|
      invariant forall k :: 0 <= k < i ==> PlainChar(host[k])
    {
      var c := host[i];
      if !('a' <= c <= 'z' || 'A' <= c <= 'Z' || '0' <= c <= '9' || c == '.' || c == '-' || c == '_' || c == ':') {
        assert !PlainChar(host[i]);
        return false;
      }
    }
    return true;
  }

  // ---------------------------------------------------------------- the format

  /** A line as Xray writes it. */
  function Render(p: Pieces, arrow: string): string {
    p.stamp + FROM + p.source + ACCEPTED + p.dest + " [" + p.tag + " " + arrow + " " + p.outbound + "]" + EMAIL
        + p.email
  }

  /** The names a panel gives: nothing in them reads as another part of the line. */
  predicate Named(p: Pieces, arrow: string) {
    && p.tag != "" && ' ' !in p.tag && '[' !in p.tag
    && ' ' !in p.outbound && '[' !in p.outbound && '[' !in arrow
    && p.email != "" && ' ' !in p.email && '\t' !in p.email
  }

  /** Followed by the separator, the text holds it nowhere before its end. */
  predicate Safe(s: string, sep: string) {
    forall i :: 0 <= i < |s| ==> !Holds(s + sep, sep, i)
  }

  lemma CutSafe(s: string, sep: string, rest: string)
    requires sep != ""
    ensures Safe(s, sep) ==> Cut(s + sep + rest, sep) == Some((s, rest))
    ensures !Safe(s, sep) ==> Cut(s + sep + rest, sep).Some? && |Cut(s + sep + rest, sep).value.0| < |s|
  {
    var all := s + sep + rest;
    assert Holds(all, sep, |s|);
    forall i | 0 <= i < |s|
      ensures Holds(all, sep, i) <==> Holds(s + sep, sep, i)
    {
      assert all[i..i + |sep|] == (s + sep)[i..i + |sep|];
    }
    assert all[..|s|] == s && all[|s| + |sep|..] == rest;
  }

  /** One different character is enough. */
  lemma Differs(s: string, sep: string, i: nat, j: nat)
    requires i + j < |s| && j < |sep| && s[i + j] != sep[j]
    ensures !Holds(s, sep, i)
  {
    assert i + |sep| <= |s| ==> s[i..i + |sep|][j] == s[i + j];
  }

  /** The last separator is the one before a text without spaces. */
  lemma LastEmail(route: string, email: string)
    requires ' ' !in email
    ensures LastIndex(route + EMAIL + email, EMAIL) == Some(|route|)
  {
    var all := route + EMAIL + email;
    assert Holds(all, EMAIL, |route|);
    forall k | |route| < k < |all|
      ensures !Holds(all, EMAIL, k)
    {
      if k + 8 <= |all| {
        assert all[k + 7] in email;
        Differs(all, EMAIL, k, 7);
      }
    }
  }

  lemma LastSingle(a: string, c: char, b: string)
    requires c !in b
    ensures LastIndex(a + [c] + b, [c]) == Some(|a|)
  {
    var all := a + [c] + b;
    assert all[|a|..|a| + 1] == [c];
    assert Holds(all, [c], |a|);
    forall k | |a| < k < |all|
      ensures !Holds(all, [c], k)
    {
      assert all[k] in b;
      Differs(all, [c], k, 0);
    }
  }

  lemma FirstSpace(tag: string, rest: string)
    requires ' ' !in tag
    ensures Cut(tag + " " + rest, " ") == Some((tag, rest))
  {
    forall i | 0 <= i < |tag|
      ensures !Holds(tag + " ", " ", i)
    {
      assert (tag + " ")[i] in tag;
      Differs(tag + " ", " ", i, 0);
    }
    CutSafe(tag, " ", rest);
  }

  lemma DetourSplits(tag: string, arrow: string, outbound: string, detour: string)
    requires ' ' !in tag && ' ' !in outbound && detour == tag + " " + arrow + " " + outbound
    ensures Cut(detour, " ").Some? && Cut(detour, " ").value.0 == tag
    ensures LastIndex(detour, " ").Some? && detour[LastIndex(detour, " ").value + 1..] == outbound
  {
    assert detour == tag + " " + (arrow + " " + outbound);
    FirstSpace(tag, arrow + " " + outbound);
    LastSingle(tag + " " + arrow, ' ', outbound);
  }

  /** The route comes apart at its last bracket, whatever stands before it. */
  lemma RouteSplitsAt(before: string, detour: string, route: string)
    requires '[' !in detour && route == before + "[" + detour + "]"
    ensures LastIndex(route, "[") == Some(|before|)
    ensures route[|route| - 1] == ']' && route[|before| + 1..|route| - 1] == detour && route[..|before|] == before
  {
    assert route == before + "[" + (detour + "]");
    LastSingle(before, '[', detour + "]");
  }

  lemma RouteSplits(p: Pieces, arrow: string, rest: string)
    requires Named(p, arrow)
    requires rest == p.dest + " [" + p.tag + " " + arrow + " " + p.outbound + "]" + EMAIL + p.email
    ensures SplitRoute(p.stamp, p.source, rest) == Some(p)
  {
    hide IndexFrom, LastIndexTo, Cut, LastIndex, TrimSuffix;
    var detour := p.tag + " " + arrow + " " + p.outbound;
    var before := p.dest + " ";
    var route := before + "[" + detour + "]";
    RouteBefore(p, arrow, rest, route);
    LastEmail(route, p.email);
    EmailBehind(route, p.email);
    RouteSplitsAt(before, detour, route);
    DetourSplits(p.tag, arrow, p.outbound, detour);
    TrimSpace(p.dest);
  }

  lemma RouteBefore(p: Pieces, arrow: string, rest: string, route: string)
    requires rest == p.dest + " [" + p.tag + " " + arrow + " " + p.outbound + "]" + EMAIL + p.email
    requires route == p.dest + " " + "[" + (p.tag + " " + arrow + " " + p.outbound) + "]"
    ensures rest == route + EMAIL + p.email
  {
  }

  lemma EmailBehind(route: string, email: string)
    ensures (route + EMAIL + email)[|route| + |EMAIL|..] == email && (route + EMAIL + email)[..|route|] == route
  {
  }

  lemma TrimSpace(s: string)
    ensures TrimSuffix(s + " ", " ") == s
  {
  }

  /** Whatever the destination says, a rendered line comes apart into exactly what
      it was made of, if and only if neither separator is found before its place. */
  lemma SplitInverts(p: Pieces, arrow: string)
    requires Named(p, arrow)
    ensures Split(Render(p, arrow)) == Some(p) <==> Safe(p.stamp, FROM) && Safe(p.source, ACCEPTED)
  {
    var rest := p.dest + " [" + p.tag + " " + arrow + " " + p.outbound + "]" + EMAIL + p.email;
    var second := p.source + ACCEPTED + rest;
    RenderIs(p, arrow, rest, second);
    CutSafe(p.stamp, FROM, second);
    CutSafe(p.source, ACCEPTED, rest);
    RouteSplits(p, arrow, rest);
    hide Cut, SplitRoute;
    SplitStamp(Render(p, arrow));
  }

  lemma RenderIs(p: Pieces, arrow: string, rest: string, second: string)
    requires rest == p.dest + " [" + p.tag + " " + arrow + " " + p.outbound + "]" + EMAIL + p.email
    requires second == p.source + ACCEPTED + rest
    ensures Render(p, arrow) == p.stamp + FROM + second
  {
  }

  /** What is split off is what the cuts gave. */
  lemma SplitStamp(raw: string)
    ensures Split(raw).Some? ==> Cut(raw, FROM).Some? && Split(raw).value.stamp == Cut(raw, FROM).value.0
    ensures Split(raw).Some? ==> Cut(Cut(raw, FROM).value.1, ACCEPTED).Some?
                                 && Split(raw).value.source == Cut(Cut(raw, FROM).value.1, ACCEPTED).value.0
  {
  }

  /** A line is parsed into what it was rendered from, and the destination text is
      handed on as it was written. */
  lemma ParseInverts(p: Pieces, arrow: string, lib: Library)
    requires Named(p, arrow) && Safe(p.stamp, FROM) && Safe(p.source, ACCEPTED)
    ensures ParseSource(p.source, lib).None? ==> Parse(Render(p, arrow), lib) == None
    ensures ParseSource(p.source, lib).Some? ==>
              Parse(Render(p, arrow), lib)
              == Some(Entry(ParseStamp(p.stamp, lib), p.tag, ParseSource(p.source, lib).value, p.email,
                            ParseDest(p.dest, lib), p.outbound))
  {
    SplitInverts(p, arrow);
  }

  /** Both ways to be unsafe: to hold the separator, or to end with all of it but
      its final space. (Only its two spaces let the separator overlap itself.) */
  lemma SafeMeans(s: string, sep: string)
    requires |sep| >= 2 && sep[0] == ' ' && sep[|sep| - 1] == ' '
    requires forall i :: 0 < i < |sep| - 1 ==> sep[i] != ' '
    ensures Safe(s, sep) <==>
              (forall i :: 0 <= i < |s| ==> !Holds(s, sep, i))
                  && !(|s| >= |sep| - 1 && s[|s| - |sep| + 1..] == sep[..|sep| - 1])
  {
    var all := s + sep;
    var n := |sep|;
    forall i: nat | i < |s|
      ensures Holds(all, sep, i) <==> Holds(s, sep, i) || (i + n == |s| + 1 && s[i..] == sep[..n - 1])
    {
      if i + n <= |s| {
        assert all[i..i + n] == s[i..i + n];
      } else if i + n == |s| + 1 {
        assert all[i..i + n] == s[i..] + " ";
        assert sep == sep[..n - 1] + " ";
      } else {
        assert all[|s|] == ' ';
        Differs(all, sep, i, |s| - i);
      }
    }
  }

  /** The format's own stamps and sources are safe: a stamp has no letters, a
      source no spaces. */
  lemma StampsAndSourcesSafe(stamp: string, source: string)
    requires 'm' !in stamp && ' ' !in source
    ensures Safe(stamp, FROM) && Safe(source, ACCEPTED)
  {
    forall i: nat | i < |stamp|
      ensures !Holds(stamp + FROM, FROM, i)
    {
      if i + 4 < |stamp| {
        assert (stamp + FROM)[i + 4] in stamp;
        Differs(stamp + FROM, FROM, i, 4);
      } else {
        Differs(stamp + FROM, FROM, i, |stamp| - i);
      }
    }
    forall i: nat | i < |source|
      ensures !Holds(source + ACCEPTED, ACCEPTED, i)
    {
      assert (source + ACCEPTED)[i] in source;
      Differs(source + ACCEPTED, ACCEPTED, i, 0);
    }
  }

  /** Holding no separator is not enough: this stamp holds none, and is cut short. */
  lemma StampEndingInFrom(p: Pieces)
    requires p == Pieces("x from", "1.2.3.4:5", "in", "out", "user", "tcp:a:1")
    ensures forall i :: 0 <= i < |p.stamp| ==> !Holds(p.stamp, FROM, i)
    ensures Named(p, ">>") && Split(Render(p, ">>")) != Some(p)
  {
    hide Split, Render, Cut;
    SplitInverts(p, ">>");
    Differs(p.stamp, FROM, 0, 0);
    var all := p.stamp + FROM;
    assert |p.stamp| == 6 && |FROM| == 6;
    assert all[1] == FROM[0] && all[2] == FROM[1] && all[3] == FROM[2] && all[4] == FROM[3] && all[5] == FROM[4];
    assert all[6] == FROM[0] == FROM[5];
    assert all[1..7] == FROM;
    assert Holds(all, FROM, 1);
  }

  /** The other way round: whatever line is accepted is a line of the format, with
      or without the space before the route. */
  lemma AcceptsOnlyTheFormat(raw: string) returns (before: string, detour: string)
    requires Split(raw).Some?
    ensures var p := Split(raw).value;
            && (before == p.dest || before == p.dest + " ")
            && raw == p.stamp + FROM + p.source + ACCEPTED + (before + "[" + detour + "]" + EMAIL + p.email)
            && p.tag + " " <= detour && |p.outbound| < |detour|
                && detour[|detour| - |p.outbound| - 1..] == " " + p.outbound
  {
    hide IndexFrom, LastIndexTo, SplitRoute;
    var p := Split(raw).value;
    CutBack(raw, FROM);
    var first := Cut(raw, FROM).value;
    CutBack(first.1, ACCEPTED);
    var rest := Cut(first.1, ACCEPTED).value.1;
    RouteIsOf(raw);
    hide Cut, Split, LastIndex;
    before, detour := AcceptsOnlyRoutes(first.0, p.source, rest);
  }

  /** What is left of a line after its source is taken apart as a route. */
  lemma RouteIsOf(raw: string)
    requires Split(raw).Some?
    ensures Cut(raw, FROM).Some? && Cut(Cut(raw, FROM).value.1, ACCEPTED).Some?
    ensures var p := Split(raw).value;
            && p.stamp == Cut(raw, FROM).value.0 && p.source == Cut(Cut(raw, FROM).value.1, ACCEPTED).value.0
            && SplitRoute(p.stamp, p.source, Cut(Cut(raw, FROM).value.1, ACCEPTED).value.1) == Some(p)
  {
    hide Cut;
  }

  lemma AcceptsOnlyRoutes(stamp: string, source: string, rest: string) returns (before: string, detour: string)
    requires SplitRoute(stamp, source, rest).Some?
    ensures var p := SplitRoute(stamp, source, rest).value;
            && (before == p.dest || before == p.dest + " ")
            && rest == before + "[" + detour + "]" + EMAIL + p.email
            && p.tag + " " <= detour && |p.outbound| < |detour|
                && detour[|detour| - |p.outbound| - 1..] == " " + p.outbound
  {
    hide IndexFrom, LastIndexTo, Cut;
    var p := SplitRoute(stamp, source, rest).value;
    var at := LastIndex(rest, EMAIL).value;
    LastBack(rest, EMAIL);
    var route := rest[..at];
    var begin := LastIndex(route, "[").value;
    LastBack(route, "[");
    before := route[..begin];
    detour := route[begin + 1..|route| - 1];
    Bracketed(route, begin);
    DetourParts(detour);
    TrimBack(before, " ");
    hide LastIndex, TrimSuffix;
  }

  lemma Bracketed(route: string, begin: nat)
    requires begin < |route| && route[begin] == '[' && route[|route| - 1] == ']'
    ensures begin + 1 < |route| && route == route[..begin] + "[" + route[begin + 1..|route| - 1] + "]"
  {
  }

  lemma TrimBack(s: string, suffix: string)
    ensures s == TrimSuffix(s, suffix) || s == TrimSuffix(s, suffix) + suffix
  {
  }

  /** The tag starts what stands between the brackets, the outbound ends it. */
  lemma DetourParts(detour: string)
    requires Cut(detour, " ").Some?
    ensures LastIndex(detour, " ").Some?
    ensures Cut(detour, " ").value.0 + " " <= detour
    ensures var outbound := detour[LastIndex(detour, " ").value + 1..];
            |outbound| < |detour| && detour[|detour| - |outbound| - 1..] == " " + outbound
  {
    CutBack(detour, " ");
    LastBack(detour, " ");
    hide Cut, LastIndex;
  }

  lemma CutBack(s: string, sep: string)
    requires Cut(s, sep).Some?
    ensures s == Cut(s, sep).value.0 + sep + Cut(s, sep).value.1
  {
  }

  lemma LastBack(s: string, sep: string)
    requires LastIndex(s, sep).Some?
    ensures var at := LastIndex(s, sep).value;
            at + |sep| <= |s| && s == s[..at] + sep + s[at + |sep|..]
  {
  }
}
