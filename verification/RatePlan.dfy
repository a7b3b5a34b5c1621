/** What the limits ask for: which connection follows which group, and the rate
    of each group. Groups and emails stand for texts, of which only the order
    counts; 0 is the empty group, which is never a key. */
module RateLimitPlan {
  import opened Common

  type Group = nat
  type Email = nat
  type Dev = nat
  type Index = nat

  const MAX_FILTERS := 16384

  datatype Address = Address(six: bool, host: nat, port: nat)

  datatype Flow = Flow(proto: string, local: Address, remote: Address)

  /** One connection or flow on one interface. */
  datatype Rule = Rule(dev: Dev, proto: string, local: Address, remote: Address)

  datatype Target = Target(mbps: nat, emails: set<Email>)

  datatype Desired = Desired(rates: map<Group, nat>, rules: map<Rule, Group>)

  datatype Routes = Routes(v4: seq<Dev>, v6: seq<Dev>)

  // ------------------------------------------------------------- who decides

  predicate Names(limits: map<Group, Target>, g: Group, e: Email) {
    g in limits && e in limits[g].emails
  }

  /** A client two groups name follows the lower limit, and the first of equals. */
  ghost predicate Owns(limits: map<Group, Target>, g: Group, e: Email) {
    && Names(limits, g, e)
    && forall h :: Names(limits, h, e) ==>
         limits[g].mbps < limits[h].mbps || (limits[g].mbps == limits[h].mbps && g <= h)
  }

  function DevsOf(f: Flow, routes: Routes): seq<Dev> {
    if f.remote.six then routes.v6 else routes.v4
  }

  function RuleOf(f: Flow, d: Dev): Rule {
    Rule(d, f.proto, f.local, f.remote)
  }

  /** A connection of a client the group owns, on an interface of its family. */
  ghost predicate Due(limits: map<Group, Target>, flows: map<Email, seq<Flow>>, routes: Routes, g: Group, key: Rule) {
    exists e, f, d :: Owns(limits, g, e) && e in flows && f in flows[e] && d in DevsOf(f, routes) && key == RuleOf(f, d)
  }

  /** The whole wish: everything due, each with the last group it is due to. */
  ghost predicate Whole(limits: map<Group, Target>, flows: map<Email, seq<Flow>>, routes: Routes, want: Desired) {
    && want.rates.Keys == limits.Keys
    && forall g, key :: Due(limits, flows, routes, g, key) ==> key in want.rules && g <= want.rules[key]
  }

  /** Nothing that is not due, and no rate but a group's own. */
  ghost predicate Right(limits: map<Group, Target>, flows: map<Email, seq<Flow>>, routes: Routes, want: Desired) {
    && (forall g :: g in want.rates ==> g in limits && want.rates[g] == limits[g].mbps)
    && (forall key :: key in want.rules ==>
          want.rules[key] in want.rates && Due(limits, flows, routes, want.rules[key], key))
    && |want.rules| <= MAX_FILTERS
  }

  // ------------------------------------------------------------------- order

  predicate Least(s: set<nat>, m: nat) {
    m in s && forall x :: x in s ==> m <= x
  }

  method Lowest(s: set<nat>) returns (m: nat)
    requires s != {}
    ensures Least(s, m)
  {
    m :| m in s;
    var left := s - {m};
    while left != {}
      invariant m in s && left <= s
      invariant forall x :: x in s && x !in left ==> m <= x
      decreases left
    {
      var x :| x in left;
      if x < m {
        m := x;
      }
      left := left - {x};
    }
  }

  predicate Ascending(q: seq<nat>) {
    forall i, j :: 0 <= i < j < |q| ==> q[i] < q[j]
  }

  method Ordered(s: set<nat>) returns (q: seq<nat>)
    ensures Ascending(q)
    ensures forall x :: x in q <==> x in s
  {
    q := [];
    var left := s;
    while left != {}
      invariant left <= s && Ascending(q)
      invariant forall x :: x in s <==> x in q || x in left
      invariant forall i, x :: 0 <= i < |q| && x in left ==> q[i] < x
      decreases left
    {
      var m := Lowest(left);
      q := q + [m];
      left := left - {m};
    }
  }

  // ---------------------------------------------------------- implementation

  /** Every client that is named follows its owner. */
  ghost predicate AllOwned(limits: map<Group, Target>, owner: map<Email, Group>) {
    && (forall e :: e in owner ==> Owns(limits, owner[e], e))
    && (forall g, e :: Names(limits, g, e) ==> e in owner)
  }

  method Owners(limits: map<Group, Target>) returns (owner: map<Email, Group>)
    ensures AllOwned(limits, owner)
  {
    owner := map[];
    var groups := Ordered(limits.Keys);
    AllOf(groups, limits.Keys);
    hide FirstOf, OwnedAmong, AllOwned, Ascending;
    OwnedNone(limits);
    for i := 0 to |groups|
      invariant OwnedAmong(limits, FirstOf(groups, i), owner)
    {
      assert groups[i] in groups;
      NextOf(groups, i);
      owner := TakeClients(limits, groups[i], owner, FirstOf(groups, i));
    }
    OwnedByAll(limits, owner);
  }

  ghost predicate OwnsAmong(limits: map<Group, Target>, seen: set<Group>, g: Group, e: Email) {
    && g in seen && Names(limits, g, e)
    && forall h :: h in seen && Names(limits, h, e) ==>
         limits[g].mbps < limits[h].mbps || (limits[g].mbps == limits[h].mbps && g <= h)
  }

  /** Every client that one of these groups names follows its owner among them. */
  ghost predicate OwnedAmong(limits: map<Group, Target>, seen: set<Group>, owner: map<Email, Group>) {
    && (forall e :: e in owner ==> OwnsAmong(limits, seen, owner[e], e))
    && (forall g, e :: g in seen && Names(limits, g, e) ==> e in owner)
  }

  lemma OwnedNone(limits: map<Group, Target>)
    ensures OwnedAmong(limits, {}, map[])
  {
  }

  lemma OwnedByAll(limits: map<Group, Target>, owner: map<Email, Group>)
    requires OwnedAmong(limits, limits.Keys, owner)
    ensures AllOwned(limits, owner)
  {
    forall e | e in owner
      ensures Owns(limits, owner[e], e)
    {
      assert OwnsAmong(limits, limits.Keys, owner[e], e);
    }
  }

  /** What one more group, after all those seen, does to the owner of a client. */
  function Better(limits: map<Group, Target>, g: Group, before: map<Email, Group>, e: Email): Group {
    if e !in before then g
    else if g in limits && before[e] in limits && limits[before[e]].mbps <= limits[g].mbps then before[e]
    else g
  }

  lemma BetterOwns(limits: map<Group, Target>, g: Group, before: map<Email, Group>, seen: set<Group>, e: Email)
    requires g in limits && (forall h :: h in seen ==> h < g) && OwnedAmong(limits, seen, before)
    requires e in limits[g].emails
    ensures e in before ==> before[e] in limits
    ensures OwnsAmong(limits, seen + {g}, Better(limits, g, before, e), e)
  {
    if e in before {
      assert OwnsAmong(limits, seen, before[e], e);
    }
  }

  lemma OthersOwned(limits: map<Group, Target>, g: Group, before: map<Email, Group>, owner: map<Email, Group>,
                    seen: set<Group>)
    requires g in limits && (forall h :: h in seen ==> h < g) && OwnedAmong(limits, seen, before)
    requires owner.Keys == before.Keys + limits[g].emails
    requires forall e :: e in owner ==>
               owner[e] == if e in limits[g].emails then Better(limits, g, before, e) else before[e]
    ensures OwnedAmong(limits, seen + {g}, owner)
  {
    hide Better, OwnsAmong;
    forall e | e in owner
      ensures OwnsAmong(limits, seen + {g}, owner[e], e)
    {
      if e in limits[g].emails {
        BetterOwns(limits, g, before, seen, e);
      } else {
        OwnsStill(limits, seen, g, before[e], e);
      }
    }
  }

  lemma OwnsStill(limits: map<Group, Target>, seen: set<Group>, g: Group, h: Group, e: Email)
    requires OwnsAmong(limits, seen, h, e) && !Names(limits, g, e)
    ensures OwnsAmong(limits, seen + {g}, h, e)
  {
  }

  method TakeClients(limits: map<Group, Target>, g: Group, before: map<Email, Group>, ghost seen: set<Group>)
    returns (owner: map<Email, Group>)
    requires g in limits && (forall h :: h in seen ==> h < g) && OwnedAmong(limits, seen, before)
    ensures OwnedAmong(limits, seen + {g}, owner)
  {
    hide OwnedAmong, OwnsAmong;
    owner := before;
    var left := limits[g].emails;
    while left != {}
      invariant left <= limits[g].emails && owner.Keys == before.Keys + (limits[g].emails - left)
      invariant forall e :: e in owner ==>
                  owner[e] == if e in limits[g].emails && e !in left then Better(limits, g, before, e) else before[e]
      decreases left
    {
      var e :| e in left;
      BetterOwns(limits, g, before, seen, e);
      if e !in owner || limits[g].mbps < limits[owner[e]].mbps {
        owner := owner[e := g];
      }
      left := left - {e};
    }
    OthersOwned(limits, g, before, owner, seen);
  }

  /** What one more group adds: its own rules, until there are too many. */
  ghost predicate Grows(before: map<Rule, Group>, after: map<Rule, Group>, g: Group, due: set<Rule>, full: bool) {
    && before.Keys <= after.Keys && |after| <= MAX_FILTERS
    && (forall key :: key in after ==> (key in due && after[key] == g) || (key in before && after[key] == before[key]))
    && (full ==> |after| == MAX_FILTERS)
    && (!full ==> forall key :: key in due ==> key in after && after[key] == g)
  }

  lemma GrowsOn(a: map<Rule, Group>, b: map<Rule, Group>, c: map<Rule, Group>, g: Group, first: set<Rule>,
                second: set<Rule>, full: bool)
    requires Grows(a, b, g, first, false) && Grows(b, c, g, second, full)
    ensures Grows(a, c, g, first + second, full)
  {
  }

  /** What stopped short of a part stopped short of the whole. */
  lemma GrowsFull(a: map<Rule, Group>, b: map<Rule, Group>, g: Group, part: set<Rule>, all: set<Rule>)
    requires Grows(a, b, g, part, true) && part <= all
    ensures Grows(a, b, g, all, true)
  {
  }

  ghost function FlowDue(f: Flow, devs: seq<Dev>): set<Rule> {
    set d | d in devs :: RuleOf(f, d)
  }

  lemma FlowDueOn(before: map<Rule, Group>, rules: map<Rule, Group>, g: Group, f: Flow, devs: seq<Dev>, n: nat)
    requires n < |devs| && |rules| < MAX_FILTERS && Grows(before, rules, g, FlowDue(f, devs[..n]), false)
    ensures Grows(before, rules[RuleOf(f, devs[n]) := g], g, FlowDue(f, devs[..n + 1]), false)
  {
    assert FlowDue(f, devs[..n + 1]) == FlowDue(f, devs[..n]) + {RuleOf(f, devs[n])};
  }

  method TakeFlow(before: map<Rule, Group>, g: Group, f: Flow, routes: Routes) returns (rules: map<Rule, Group>,
                  full: bool)
    requires |before| <= MAX_FILTERS
    ensures Grows(before, rules, g, FlowDue(f, DevsOf(f, routes)), full)
  {
    rules := before;
    var devs := if f.remote.six then routes.v6 else routes.v4;
    for i := 0 to |devs|
      invariant Grows(before, rules, g, FlowDue(f, devs[..i]), false)
    {
      if |rules| >= MAX_FILTERS {
        return rules, true;
      }
      FlowDueOn(before, rules, g, f, devs, i);
      rules := rules[RuleOf(f, devs[i]) := g];
    }
    assert devs[..|devs|] == devs;
    return rules, false;
  }

  ghost function ClientDue(fs: seq<Flow>, routes: Routes): set<Rule> {
    if fs == [] then {} else ClientDue(fs[..|fs| - 1], routes) + FlowDue(fs[|fs| - 1], DevsOf(fs[|fs| - 1], routes))
  }

  lemma {:induction false} ClientDuePart(fs: seq<Flow>, n: nat, routes: Routes)
    requires n <= |fs|
    ensures ClientDue(fs[..n], routes) <= ClientDue(fs, routes)
    ensures n < |fs| ==>
              ClientDue(fs[..n + 1], routes) == ClientDue(fs[..n], routes) + FlowDue(fs[n], DevsOf(fs[n], routes))
  {
    if n < |fs| {
      assert fs[..n + 1][..n] == fs[..n];
      assert fs[..|fs| - 1][..n] == fs[..n];
      ClientDuePart(fs[..|fs| - 1], n, routes);
    } else {
      assert fs[..n] == fs;
    }
  }

  method TakeClient(before: map<Rule, Group>, g: Group, fs: seq<Flow>,
                    routes: Routes) returns (rules: map<Rule, Group>, full: bool)
    requires |before| <= MAX_FILTERS
    ensures Grows(before, rules, g, ClientDue(fs, routes), full)
  {
    rules := before;
    for i := 0 to |fs|
      invariant Grows(before, rules, g, ClientDue(fs[..i], routes), false)
    {
      var next, stop := TakeFlow(rules, g, fs[i], routes);
      ClientDuePart(fs, i, routes);
      ClientDuePart(fs, i + 1, routes);
      GrowsOn(before, rules, next, g, ClientDue(fs[..i], routes), FlowDue(fs[i], DevsOf(fs[i], routes)), stop);
      rules := next;
      if stop {
        GrowsFull(before, rules, g, ClientDue(fs[..i + 1], routes), ClientDue(fs, routes));
        return rules, true;
      }
    }
    assert fs[..|fs|] == fs;
    return rules, false;
  }

  function FlowsOf(flows: map<Email, seq<Flow>>, e: Email): seq<Flow> {
    if e in flows then flows[e] else []
  }

  ghost function GroupDue(owner: map<Email, Group>, flows: map<Email, seq<Flow>>, routes: Routes, g: Group,
                          emails: seq<Email>): set<Rule> {
    if emails == [] then {}
    else
      var n := |emails| - 1;
      GroupDue(owner, flows, routes, g, emails[..n])
      + (if emails[n] in owner && owner[emails[n]] == g then ClientDue(FlowsOf(flows, emails[n]), routes) else {})
  }

  lemma GroupDuePart(owner: map<Email, Group>, flows: map<Email, seq<Flow>>, routes: Routes, g: Group,
                     emails: seq<Email>, n: nat)
    requires n < |emails|
    ensures GroupDue(owner, flows, routes, g, emails[..n + 1]) ==
            GroupDue(owner, flows, routes, g, emails[..n])
            + (if emails[n] in owner && owner[emails[n]] == g then ClientDue(FlowsOf(flows, emails[n]), routes) else {})
  {
    assert emails[..n + 1][..n] == emails[..n];
  }

  method TakeGroup(before: map<Rule, Group>, owner: map<Email, Group>, flows: map<Email, seq<Flow>>, routes: Routes,
                   g: Group,
                   emails: seq<Email>)
    returns (rules: map<Rule, Group>, full: bool, ghost n: nat)
    requires |before| <= MAX_FILTERS
    requires forall e :: e in emails ==> e in owner
    ensures n <= |emails| && (!full ==> n == |emails|)
    ensures Grows(before, rules, g, GroupDue(owner, flows, routes, g, emails[..n]), full)
  {
    rules := before;
    assert Grows(before, rules, g, GroupDue(owner, flows, routes, g, emails[..0]), false);
    for i := 0 to |emails|
      invariant |rules| <= MAX_FILTERS
      invariant Grows(before, rules, g, GroupDue(owner, flows, routes, g, emails[..i]), false)
    {
      GroupDuePart(owner, flows, routes, g, emails, i);
      hide GroupDue, ClientDue;
      if owner[emails[i]] == g {
        var next, stop := TakeClient(rules, g, FlowsOf(flows, emails[i]), routes);
        GrowsOn(before, rules, next, g, GroupDue(owner, flows, routes, g, emails[..i]),
            ClientDue(FlowsOf(flows, emails[i]), routes), stop);
        rules := next;
        if stop {
          hide Grows;
          return rules, true, i + 1;
        }
      } else {
        assert GroupDue(owner, flows, routes, g, emails[..i + 1]) == GroupDue(owner, flows, routes, g, emails[..i]);
      }
    }
    return rules, false, |emails|;
  }

  // ---------------------------------------------------- what the sets stand for

  lemma {:induction false} ClientDueMeans(fs: seq<Flow>, routes: Routes, key: Rule)
    ensures key in ClientDue(fs, routes) <==> exists f, d :: f in fs && d in DevsOf(f, routes) && key == RuleOf(f, d)
  {
    if fs != [] {
      var n := |fs| - 1;
      ClientDueMeans(fs[..n], routes, key);
      assert fs == fs[..n] + [fs[n]];
    }
  }

  lemma {:induction false} GroupDueMeans(owner: map<Email, Group>, flows: map<Email, seq<Flow>>, routes: Routes,
                                         g: Group, emails: seq<Email>,
                                         key: Rule)
    ensures key in GroupDue(owner, flows, routes, g, emails) <==>
              exists e :: e in emails && e in owner && owner[e] == g && key in ClientDue(FlowsOf(flows, e), routes)
  {
    if emails != [] {
      var n := |emails| - 1;
      GroupDueMeans(owner, flows, routes, g, emails[..n], key);
      assert emails == emails[..n] + [emails[n]];
    }
  }

  lemma OneOwner(limits: map<Group, Target>, g: Group, h: Group, e: Email)
    requires Owns(limits, g, e) && Owns(limits, h, e)
    ensures g == h
  {
  }

  /** The group's set is what is due to it, as far as its clients were looked at. */
  lemma GroupDueIsDue(limits: map<Group, Target>, owner: map<Email, Group>, flows: map<Email, seq<Flow>>,
                      routes: Routes, g: Group,
                      emails: seq<Email>, key: Rule)
    requires g in limits
    requires AllOwned(limits, owner)
    ensures key in GroupDue(owner, flows, routes, g, emails) ==> Due(limits, flows, routes, g, key)
    ensures Due(limits, flows, routes, g, key) && (forall e :: e in emails <==> e in limits[g].emails) ==>
              key in GroupDue(owner, flows, routes, g, emails)
  {
    GroupDueMeans(owner, flows, routes, g, emails, key);
    if key in GroupDue(owner, flows, routes, g, emails) {
      var e :| e in emails && e in owner && owner[e] == g && key in ClientDue(FlowsOf(flows, e), routes);
      ClientDueMeans(FlowsOf(flows, e), routes, key);
      var f, d :| f in FlowsOf(flows, e) && d in DevsOf(f, routes) && key == RuleOf(f, d);
      assert Owns(limits, g, e) && e in flows && f in flows[e];
    }
    if Due(limits, flows, routes, g, key) && (forall e :: e in emails <==> e in limits[g].emails) {
      var e, f, d :| Owns(limits, g, e) && e in flows && f in flows[e] && d in DevsOf(f, routes) && key == RuleOf(f, d);
      assert Names(limits, g, e);
      OneOwner(limits, g, owner[e], e);
      ClientDueMeans(FlowsOf(flows, e), routes, key);
    }
  }

  /** Every group so far is taken in whole. */
  ghost predicate WholeUpTo(limits: map<Group, Target>, flows: map<Email, seq<Flow>>, routes: Routes, want: Desired,
                            seen: set<Group>) {
    && want.rates.Keys == seen
    && forall g, key :: g in seen && Due(limits, flows, routes, g, key) ==> key in want.rules && g <= want.rules[key]
  }

  /** All limits, or as many connections as there may be filters. */
  method Plan(limits: map<Group, Target>, flows: map<Email, seq<Flow>>, routes: Routes) returns (want: Desired)
    ensures Right(limits, flows, routes, want)
    ensures Whole(limits, flows, routes, want) || |want.rules| == MAX_FILTERS
  {
    want := Desired(map[], map[]);
    var owner := Owners(limits);
    var groups := Ordered(limits.Keys);
    AllOf(groups, limits.Keys);
    NothingYet(limits, flows, routes);
    hide Due, AllOwned, Whole, FirstOf, Right, WholeUpTo, Ascending;
    for i := 0 to |groups|
      invariant Right(limits, flows, routes, want) && WholeUpTo(limits, flows, routes, want, FirstOf(groups, i))
    {
      assert groups[i] in groups;
      NextOf(groups, i);
      var full;
      want, full := PlanGroup(limits, owner, flows, routes, groups[i], want, FirstOf(groups, i));
      if full {
        return;
      }
    }
    WholeAtLast(limits, flows, routes, want);
  }

  lemma NothingYet(limits: map<Group, Target>, flows: map<Email, seq<Flow>>, routes: Routes)
    ensures Right(limits, flows, routes, Desired(map[], map[]))
              && WholeUpTo(limits, flows, routes, Desired(map[], map[]), {})
  {
  }

  /** The groups that come before the i-th. */
  ghost function FirstOf(groups: seq<Group>, i: nat): set<Group>
    requires i <= |groups|
  {
    set g | g in groups[..i]
  }

  lemma NextOf(groups: seq<Group>, i: nat)
    requires i < |groups| && Ascending(groups)
    ensures groups[i] !in FirstOf(groups, i) && forall h :: h in FirstOf(groups, i) ==> h < groups[i]
    ensures FirstOf(groups, i + 1) == FirstOf(groups, i) + {groups[i]}
  {
  }

  lemma AllOf(groups: seq<Group>, all: set<Group>)
    requires forall g :: g in groups <==> g in all
    ensures FirstOf(groups, 0) == {} && FirstOf(groups, |groups|) == all
  {
    assert groups[..|groups|] == groups;
  }

  lemma WholeAtLast(limits: map<Group, Target>, flows: map<Email, seq<Flow>>, routes: Routes, want: Desired)
    requires WholeUpTo(limits, flows, routes, want, limits.Keys)
    ensures Whole(limits, flows, routes, want)
  {
    hide Due;
    forall g, key | Due(limits, flows, routes, g, key)
      ensures key in want.rules && g <= want.rules[key]
    {
      DueNames(limits, flows, routes, g, key);
    }
  }

  lemma DueNames(limits: map<Group, Target>, flows: map<Email, seq<Flow>>, routes: Routes, g: Group, key: Rule)
    requires Due(limits, flows, routes, g, key)
    ensures g in limits
  {
  }

  method PlanGroup(limits: map<Group, Target>, owner: map<Email, Group>, flows: map<Email, seq<Flow>>, routes: Routes,
                   g: Group,
                   before: Desired, ghost seen: set<Group>)
    returns (want: Desired, full: bool)
    requires g in limits && g !in seen && forall h :: h in seen ==> h < g
    requires AllOwned(limits, owner)
    requires Right(limits, flows, routes, before) && WholeUpTo(limits, flows, routes, before, seen)
    ensures Right(limits, flows, routes, want)
    ensures full ==> |want.rules| == MAX_FILTERS
    ensures !full ==> WholeUpTo(limits, flows, routes, want, seen + {g})
  {
    var emails := Ordered(limits[g].emails);
    assert forall e :: e in emails ==> Names(limits, g, e);
    ghost var n: nat;
    var rules;
    rules, full, n := TakeGroup(before.rules, owner, flows, routes, g, emails);
    want := Desired(before.rates[g := limits[g].mbps], rules);
    hide *;
    PlanGroupOn(limits, owner, flows, routes, g, emails, n, before, want, seen, full);
  }

  lemma PlanGroupOn(limits: map<Group, Target>, owner: map<Email, Group>, flows: map<Email, seq<Flow>>,
                    routes: Routes, g: Group,
                    emails: seq<Email>, n: nat, before: Desired, want: Desired, seen: set<Group>, full: bool)
    requires g in limits && g !in seen && forall h :: h in seen ==> h < g
    requires AllOwned(limits, owner)
    requires Right(limits, flows, routes, before) && WholeUpTo(limits, flows, routes, before, seen)
    requires forall e :: e in emails <==> e in limits[g].emails
    requires n <= |emails| && (!full ==> n == |emails|)
    requires want.rates == before.rates[g := limits[g].mbps]
    requires Grows(before.rules, want.rules, g, GroupDue(owner, flows, routes, g, emails[..n]), full)
    ensures Right(limits, flows, routes, want)
    ensures !full ==> WholeUpTo(limits, flows, routes, want, seen + {g})
  {
    forall key
      ensures key in GroupDue(owner, flows, routes, g, emails[..n]) ==> Due(limits, flows, routes, g, key)
    {
      GroupDueIsDue(limits, owner, flows, routes, g, emails[..n], key);
    }
    GrowsRight(limits, flows, routes, g, GroupDue(owner, flows, routes, g, emails[..n]), before, want, full);
    if !full {
      assert emails[..n] == emails;
      forall key
        ensures Due(limits, flows, routes, g, key) ==> key in GroupDue(owner, flows, routes, g, emails)
      {
        GroupDueIsDue(limits, owner, flows, routes, g, emails, key);
      }
      GrowsWhole(limits, flows, routes, g, GroupDue(owner, flows, routes, g, emails), before, want, seen);
    }
  }

  lemma GrowsRight(limits: map<Group, Target>, flows: map<Email, seq<Flow>>, routes: Routes, g: Group, due: set<Rule>,
                   before: Desired, want: Desired, full: bool)
    requires g in limits && Right(limits, flows, routes, before)
    requires want.rates == before.rates[g := limits[g].mbps]
    requires Grows(before.rules, want.rules, g, due, full)
    requires forall key :: key in due ==> Due(limits, flows, routes, g, key)
    ensures Right(limits, flows, routes, want)
  {
    hide Due;
  }

  lemma GrowsWhole(limits: map<Group, Target>, flows: map<Email, seq<Flow>>, routes: Routes, g: Group, due: set<Rule>,
                   before: Desired, want: Desired, seen: set<Group>)
    requires g in limits && WholeUpTo(limits, flows, routes, before, seen) && forall h :: h in seen ==> h < g
    requires want.rates == before.rates[g := limits[g].mbps]
    requires Grows(before.rules, want.rules, g, due, false)
    requires forall key :: Due(limits, flows, routes, g, key) ==> key in due
    ensures WholeUpTo(limits, flows, routes, want, seen + {g})
  {
    hide Due;
    forall h, key | h in seen + {g} && Due(limits, flows, routes, h, key)
      ensures key in want.rules && h <= want.rules[key]
    {
      GrowsAt(before.rules, want.rules, g, due, key);
      hide Grows;
    }
    hide Grows;
  }

  lemma GrowsAt(before: map<Rule, Group>, after: map<Rule, Group>, g: Group, due: set<Rule>, key: Rule)
    requires Grows(before, after, g, due, false)
    ensures key in due ==> key in after && after[key] == g
    ensures key in before ==> key in after && (after[key] == g || after[key] == before[key])
  {
  }
}
