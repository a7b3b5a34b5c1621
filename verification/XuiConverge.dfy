/** Planning and writing twice is enough. */
module XuiConverge {
  import opened Common
  import opened XuiPlan
  import opened XuiWrites

  /** No two clients share an email or an identity. */
  ghost predicate Separate(protocol: Protocol, clients: seq<Client>) {
    forall i, j :: 0 <= i < j < |clients| ==>
      clients[i].email != clients[j].email && Identity(protocol, clients[i]) != Identity(protocol, clients[j])
  }

  ghost predicate Under(clients: seq<Client>, m: map<Text, Client>) {
    forall i :: 0 <= i < |clients| ==> clients[i].email in m && m[clients[i].email] == clients[i]
  }

  ghost predicate Over(clients: seq<Client>, m: map<Text, Client>) {
    forall e :: e in m ==> m[e].email == e && m[e] in clients
  }

  /** Which client has an email, when no two share one. */
  ghost predicate Lists(protocol: Protocol, clients: seq<Client>, m: map<Text, Client>) {
    Separate(protocol, clients) && Under(clients, m) && Over(clients, m)
  }

  lemma {:induction false} ListsSize(protocol: Protocol, clients: seq<Client>, m: map<Text, Client>)
    requires Lists(protocol, clients, m)
    ensures |clients| == |m|
  {
    if clients == [] {
      assert m.Keys == {};
    } else {
      var n := |clients| - 1;
      var e := clients[n].email;
      assert e in m;
      ListsLess(protocol, clients, m);
      hide Lists;
      ListsSize(protocol, clients[..n], m - {e});
      assert m.Keys == (m - {e}).Keys + {e};
    }
  }

  lemma ListsLess(protocol: Protocol, clients: seq<Client>, m: map<Text, Client>)
    requires Lists(protocol, clients, m) && clients != []
    ensures Lists(protocol, clients[..|clients| - 1], m - {clients[|clients| - 1].email})
  {
    var n := |clients| - 1;
    OverLess(clients, m, n);
    assert clients[..n] == clients[..n] + clients[n + 1..];
    UnderLess(protocol, clients, m, n);
  }

  /** The clients without the k-th. */
  lemma OverLess(clients: seq<Client>, m: map<Text, Client>, k: nat)
    requires Under(clients, m) && Over(clients, m) && k < |clients|
    ensures Over(clients[..k] + clients[k + 1..], m - {clients[k].email})
  {
    var kept := clients[..k] + clients[k + 1..];
    forall e | e in m - {clients[k].email}
      ensures m[e] in kept
    {
      var i :| 0 <= i < |clients| && clients[i] == m[e];
      assert i != k;
      assert kept[if i < k then i else i - 1] == m[e];
    }
  }

  lemma UnderLess(protocol: Protocol, clients: seq<Client>, m: map<Text, Client>, k: nat)
    requires Separate(protocol, clients) && Under(clients, m) && k < |clients|
    ensures Separate(protocol, clients[..k] + clients[k + 1..])
    ensures Under(clients[..k] + clients[k + 1..], m - {clients[k].email})
  {
    var kept := clients[..k] + clients[k + 1..];
    assert forall i :: 0 <= i < |kept| ==> kept[i] == clients[if i < k then i else i + 1];
  }

  lemma OwnedLast(clients: seq<Client>, m: map<Text, Client>)
    requires forall i :: 0 <= i < |clients| ==> clients[i].email in m && m[clients[i].email] == clients[i]
    ensures forall e :: e in Owned(clients) ==> e in m && Owned(clients)[e] == m[e]
  {
  }

  /** The owned clients are the owned of the list. */
  lemma OwnedOf(protocol: Protocol, clients: seq<Client>, m: map<Text, Client>)
    requires Lists(protocol, clients, m)
    ensures Owned(clients) == map e | e in m && e.ak :: m[e]
  {
    OwnedLast(clients, m);
  }

  // ---------------------------------------------------------------- one write

  lemma {:induction false} NoneMatches(protocol: Protocol, clients: seq<Client>, identity: Text, next: Client)
    requires forall i :: 0 <= i < |clients| ==> Identity(protocol, clients[i]) != identity
    ensures Without(protocol, clients, identity) == clients && Replaced(protocol, clients, identity, next) == clients
  {
    if clients != [] {
      NoneMatches(protocol, clients[..|clients| - 1], identity, next);
    }
  }

  ghost predicate Alone(protocol: Protocol, clients: seq<Client>, k: nat)
    requires k < |clients|
  {
    forall i :: 0 <= i < |clients| && i != k ==> Identity(protocol, clients[i]) != Identity(protocol, clients[k])
  }

  lemma {:induction false} OneGone(protocol: Protocol, clients: seq<Client>, k: nat)
    requires k < |clients| && Alone(protocol, clients, k)
    ensures Without(protocol, clients, Identity(protocol, clients[k])) == clients[..k] + clients[k + 1..]
  {
    var n := |clients| - 1;
    if k == n {
      NoneMatches(protocol, clients[..n], Identity(protocol, clients[k]), clients[k]);
    } else {
      assert clients[..n][k] == clients[k];
      OneGone(protocol, clients[..n], k);
      assert clients[..n][..k] == clients[..k];
      assert clients[..n][k + 1..] + [clients[n]] == clients[k + 1..];
    }
  }

  lemma {:induction false} OneReplaced(protocol: Protocol, clients: seq<Client>, k: nat, next: Client)
    requires k < |clients| && Alone(protocol, clients, k)
    ensures Replaced(protocol, clients, Identity(protocol, clients[k]), next) == clients[k := next]
  {
    var n := |clients| - 1;
    if k == n {
      NoneMatches(protocol, clients[..n], Identity(protocol, clients[k]), next);
    } else {
      assert clients[..n][k] == clients[k];
      OneReplaced(protocol, clients[..n], k, next);
      assert clients[..n][k := next] + [clients[n]] == clients[k := next];
    }
  }

  lemma DeleteLists(protocol: Protocol, clients: seq<Client>, m: map<Text, Client>, e: Text)
    requires Lists(protocol, clients, m) && e in m && |m| > 1
    ensures var next := Written(protocol, clients, Delete(Identity(protocol, m[e])));
            next.Some? && Lists(protocol, next.value, m - {e})
  {
    ListsSize(protocol, clients, m);
    var k :| 0 <= k < |clients| && clients[k] == m[e];
    assert Separate(protocol, clients);
    OneGone(protocol, clients, k);
    OverLess(clients, m, k);
    UnderLess(protocol, clients, m, k);
    assert Matches(protocol, clients, Identity(protocol, m[e]));
    hide Separate, Under, Over, Without, Replaced, Identity;
  }

  lemma UpdateLists(protocol: Protocol, clients: seq<Client>, m: map<Text, Client>, e: Text, next: Client)
    requires Lists(protocol, clients, m) && e in m && next.email == e
    requires forall f :: f in m && f != e ==> Identity(protocol, m[f]) != Identity(protocol, next)
    ensures var after := Written(protocol, clients, Update(Identity(protocol, m[e]), next));
            after.Some? && Lists(protocol, after.value, m[e := next])
  {
    var k :| 0 <= k < |clients| && clients[k] == m[e];
    assert Separate(protocol, clients);
    OneReplaced(protocol, clients, k, next);
    SeparateSet(protocol, clients, m, k, next);
    UnderSet(protocol, clients, m, k, next);
    assert Matches(protocol, clients, Identity(protocol, m[e]));
    hide Separate, Under, Over, Without, Replaced, Identity;
  }

  lemma SeparateSet(protocol: Protocol, clients: seq<Client>, m: map<Text, Client>, k: nat, next: Client)
    requires Separate(protocol, clients) && Under(clients, m) && k < |clients| && next.email == clients[k].email
    requires forall f :: f in m && f != next.email ==> Identity(protocol, m[f]) != Identity(protocol, next)
    ensures Separate(protocol, clients[k := next])
  {
    forall i | 0 <= i < |clients| && i != k
      ensures clients[i].email != next.email && Identity(protocol, clients[i]) != Identity(protocol, next)
    {
      assert clients[i].email in m;
    }
  }

  lemma UnderSet(protocol: Protocol, clients: seq<Client>, m: map<Text, Client>, k: nat, next: Client)
    requires Separate(protocol, clients) && Under(clients, m) && Over(clients, m) && k < |clients|
               && next.email == clients[k].email
    ensures Under(clients[k := next], m[next.email := next])
    ensures Over(clients[k := next], m[next.email := next])
  {
    var after, m' := clients[k := next], m[next.email := next];
    forall f | f in m'
      ensures m'[f].email == f && m'[f] in after
    {
      if f == next.email {
        assert after[k] == next;
      } else {
        var i :| 0 <= i < |clients| && clients[i] == m[f];
        assert after[i] == m[f];
      }
    }
  }

  lemma ListsMore(protocol: Protocol, clients: seq<Client>, m: map<Text, Client>, next: Client)
    requires Lists(protocol, clients, m) && next.email !in m
    requires forall f :: f in m ==> Identity(protocol, m[f]) != Identity(protocol, next)
    ensures Lists(protocol, clients + [next], m[next.email := next])
  {
    var after, m' := clients + [next], m[next.email := next];
    forall f | f in m'
      ensures m'[f].email == f && m'[f] in after
    {
      if f == next.email {
        assert after[|clients|] == next;
      }
    }
    forall i | 0 <= i < |clients|
      ensures clients[i].email != next.email && Identity(protocol, clients[i]) != Identity(protocol, next)
    {
      assert clients[i].email in m;
    }
    hide Identity;
  }

  lemma AddLists(protocol: Protocol, clients: seq<Client>, m: map<Text, Client>, next: Client)
    requires Lists(protocol, clients, m) && next.email !in m
    requires forall f :: f in m ==> Identity(protocol, m[f]) != Identity(protocol, next)
    ensures var after := Written(protocol, clients, Add(next));
            after.Some? && Lists(protocol, after.value, m[next.email := next])
  {
    ListsMore(protocol, clients, m, next);
    forall i | 0 <= i < |clients|
      ensures clients[i].email != next.email
    {
      assert clients[i].email in m;
    }
    hide Lists;
  }

  // ------------------------------------------------------------ runs of writes

  /** The writes are all accepted and lead to these clients. */
  ghost predicate Leads(protocol: Protocol, clients: seq<Client>, actions: seq<Action>, m: map<Text, Client>) {
    Accepted(protocol, clients, actions) && Lists(protocol, After(protocol, clients, actions), m)
  }

  lemma LeadsOn(protocol: Protocol, clients: seq<Client>, actions: seq<Action>, m: map<Text, Client>, a: Action,
                m': map<Text, Client>)
    requires Leads(protocol, clients, actions, m)
    requires var next := Written(protocol, After(protocol, clients, actions), a);
               next.Some? && Lists(protocol, next.value, m')
    ensures Leads(protocol, clients, actions + [a], m')
  {
    assert (actions + [a])[..|actions|] == actions;
  }

  // ----------------------------------------------------------------- removals

  /** The clients once the first n unwanted are dealt with. */
  ghost function Left(m: map<Text, Client>, gone: seq<Text>, n: nat): map<Text, Client>
    requires n <= |gone| <= |m| && forall i :: 0 <= i < |gone| ==> gone[i] in m
  {
    if n < |m| then m - Firsts(gone, n)
    else if n == 0 then m
    else map[gone[n - 1] := Disabled(m[gone[n - 1]])]
  }

  function Firsts(gone: seq<Text>, n: nat): set<Text>
    requires n <= |gone|
  {
    set i | 0 <= i < n :: gone[i]
  }

  lemma {:induction false} FirstsSize(gone: seq<Text>, n: nat)
    requires n <= |gone| && forall i, j :: 0 <= i < j < |gone| ==> gone[i] != gone[j]
    ensures |Firsts(gone, n)| == n
  {
    if n == 0 {
      assert Firsts(gone, 0) == {};
    } else {
      FirstsSize(gone, n - 1);
      assert Firsts(gone, n) == Firsts(gone, n - 1) + {gone[n - 1]};
    }
  }

  lemma Fewer(m: map<Text, Client>, s: set<Text>)
    requires s <= m.Keys
    ensures |m - s| == |m| - |s|
  {
    assert m.Keys == (m - s).Keys + s;
  }

  lemma {:induction false} RemovalsLead(ib: Inbound, m: map<Text, Client>, gone: seq<Text>, n: nat)
    requires Lists(ib.protocol, Clients(ib), m) && n <= |gone| <= |m|
    requires forall i :: 0 <= i < |gone| ==>
               gone[i] in m && gone[i] in Owned(Clients(ib)) && Owned(Clients(ib))[gone[i]] == m[gone[i]]
    requires forall i, j :: 0 <= i < j < |gone| ==> gone[i] != gone[j]
    ensures Leads(ib.protocol, Clients(ib), Removals(ib, Owned(Clients(ib)), gone[..n]), Left(m, gone, n))
  {
    hide Leads, Removals, Left, Owned, Lists;
    if n == 0 {
      NoneLead(ib, m, gone);
    } else {
      RemovalsLead(ib, m, gone, n - 1);
      RemovalLeads(ib, m, gone, n - 1);
    }
  }

  lemma NoneLead(ib: Inbound, m: map<Text, Client>, gone: seq<Text>)
    requires Lists(ib.protocol, Clients(ib), m) && |gone| <= |m|
    requires forall i :: 0 <= i < |gone| ==> gone[i] in m
    ensures Leads(ib.protocol, Clients(ib), Removals(ib, Owned(Clients(ib)), gone[..0]), Left(m, gone, 0))
  {
    assert m - Firsts(gone, 0) == m;
    hide Lists;
  }

  lemma FirstsMore(m: map<Text, Client>, gone: seq<Text>, n: nat)
    requires n < |gone| <= |m| && forall i :: 0 <= i < |gone| ==> gone[i] in m
    requires forall i, j :: 0 <= i < j < |gone| ==> gone[i] != gone[j]
    ensures gone[n] in m - Firsts(gone, n)
    ensures m - Firsts(gone, n) - {gone[n]} == m - Firsts(gone, n + 1)
    ensures |m - Firsts(gone, n)| == |m| - n
  {
    FirstsSize(gone, n);
    FirstsIn(m, gone, n);
    FirstsNext(gone, n);
    hide Firsts;
    Fewer(m, Firsts(gone, n));
    WithoutMore(m, Firsts(gone, n), gone[n]);
  }

  lemma FirstsNext(gone: seq<Text>, n: nat)
    requires n < |gone|
    ensures Firsts(gone, n + 1) == Firsts(gone, n) + {gone[n]}
  {
  }

  lemma WithoutMore(m: map<Text, Client>, s: set<Text>, e: Text)
    ensures m - s - {e} == m - (s + {e})
  {
  }

  lemma FirstsIn(m: map<Text, Client>, gone: seq<Text>, n: nat)
    requires n < |gone| && forall i :: 0 <= i < |gone| ==> gone[i] in m
    requires forall i, j :: 0 <= i < j < |gone| ==> gone[i] != gone[j]
    ensures Firsts(gone, n) <= m.Keys && gone[n] !in Firsts(gone, n)
  {
  }

  lemma OnlyOne(m: map<Text, Client>, e: Text)
    requires e in m && |m| == 1
    ensures m == map[e := m[e]]
  {
    assert |m.Keys - {e}| == 0;
    assert m.Keys == {e} + (m.Keys - {e});
  }

  lemma RemovalsMore(ib: Inbound, m: map<Text, Client>, gone: seq<Text>, n: nat)
    requires n < |gone| && forall i :: 0 <= i < |gone| ==> gone[i] in m
    ensures Removals(ib, m, gone[..n + 1]) == Removals(ib, m, gone[..n])
            + (if |Clients(ib)| - n > 1 then [Delete(Identity(ib.protocol, m[gone[n]]))]
               else if m[gone[n]].enable != Some(false)
                   then [Update(Identity(ib.protocol, m[gone[n]]), Disabled(m[gone[n]]))]
               else [])
  {
    assert gone[..n + 1][..n] == gone[..n];
  }

  lemma RemovalLeads(ib: Inbound, m: map<Text, Client>, gone: seq<Text>, n: nat)
    requires Lists(ib.protocol, Clients(ib), m) && n < |gone| <= |m|
    requires forall i :: 0 <= i < |gone| ==>
               gone[i] in m && gone[i] in Owned(Clients(ib)) && Owned(Clients(ib))[gone[i]] == m[gone[i]]
    requires forall i, j :: 0 <= i < j < |gone| ==> gone[i] != gone[j]
    requires Leads(ib.protocol, Clients(ib), Removals(ib, Owned(Clients(ib)), gone[..n]), Left(m, gone, n))
    ensures Leads(ib.protocol, Clients(ib), Removals(ib, Owned(Clients(ib)), gone[..n + 1]), Left(m, gone, n + 1))
  {
    ListsSize(ib.protocol, Clients(ib), m);
    RemovalsMore(ib, Owned(Clients(ib)), gone, n);
    var before := Removals(ib, Owned(Clients(ib)), gone[..n]);
    var c := m[gone[n]];
    hide Removals, Owned, Lists;
    if |m| - n > 1 {
      DeleteLeads(ib.protocol, Clients(ib), m, gone, n, before);
    } else if c.enable != Some(false) {
      DisableLeads(ib.protocol, Clients(ib), m, gone, n, before);
    } else {
      DisableLeads(ib.protocol, Clients(ib), m, gone, n, before);
      assert before + [] == before;
    }
  }

  lemma DeleteLeads(protocol: Protocol, clients: seq<Client>, m: map<Text, Client>, gone: seq<Text>, n: nat,
                    before: seq<Action>)
    requires n < |gone| <= |m| && |m| - n > 1
    requires forall i :: 0 <= i < |gone| ==> gone[i] in m
    requires forall i, j :: 0 <= i < j < |gone| ==> gone[i] != gone[j]
    requires Leads(protocol, clients, before, Left(m, gone, n))
    ensures Leads(protocol, clients, before + [Delete(Identity(protocol, m[gone[n]]))], Left(m, gone, n + 1))
  {
    FirstsMore(m, gone, n);
    hide Firsts, Lists, Written;
    DeleteLists(protocol, After(protocol, clients, before), Left(m, gone, n), gone[n]);
    LeadsOn(protocol, clients, before, Left(m, gone, n), Delete(Identity(protocol, m[gone[n]])), Left(m, gone, n + 1));
  }

  /** The last of all clients is disabled, unless it already is. */
  lemma DisableLeads(protocol: Protocol, clients: seq<Client>, m: map<Text, Client>, gone: seq<Text>, n: nat,
                     before: seq<Action>)
    requires n < |gone| <= |m| && |m| - n <= 1
    requires forall i :: 0 <= i < |gone| ==> gone[i] in m && m[gone[i]].email == gone[i]
    requires forall i, j :: 0 <= i < j < |gone| ==> gone[i] != gone[j]
    requires Leads(protocol, clients, before, Left(m, gone, n))
    ensures Leads(protocol, clients, before + [Update(Identity(protocol, m[gone[n]]), Disabled(m[gone[n]]))],
              Left(m, gone, n + 1))
    ensures m[gone[n]].enable == Some(false) ==> Leads(protocol, clients, before, Left(m, gone, n + 1))
  {
    FirstsMore(m, gone, n);
    var now := Left(m, gone, n);
    var c := m[gone[n]];
    assert now[gone[n]] == c && |now| == 1;
    OnlyOne(now, gone[n]);
    assert Left(m, gone, n + 1) == now[gone[n] := Disabled(c)];
    hide Firsts, Lists, Written, Left;
    UpdateLists(protocol, After(protocol, clients, before), now, gone[n], Disabled(c));
    LeadsOn(protocol, clients, before, now, Update(Identity(protocol, c), Disabled(c)), now[gone[n] := Disabled(c)]);
    if c.enable == Some(false) {
      assert now[gone[n] := Disabled(c)] == now;
    }
  }

  // ------------------------------------------------------------------- writes

  /** The identity a client will have once it is as wanted. */
  function NewIdentity(protocol: Protocol, w: Wanted): Text {
    if protocol == Shadowsocks then w.email else w.credential
  }

  function NewOf(ib: Inbound, m: map<Text, Client>, w: Wanted): Client {
    if w.email in m then Changed(ib, w, m[w.email]) else Created(ib, w)
  }

  /** The clients of base once those wanted are as wanted, from what they were in m. */
  function Put(ib: Inbound, m: map<Text, Client>, base: map<Text, Client>, target: seq<Wanted>): map<Text, Client> {
    if target == [] then base
    else
      var w := target[|target| - 1];
      Put(ib, m, base, target[..|target| - 1])[w.email := NewOf(ib, m, w)]
  }

  lemma {:induction false} PutAt(ib: Inbound, m: map<Text, Client>, base: map<Text, Client>, target: seq<Wanted>)
    requires forall i, j :: 0 <= i < j < |target| ==> target[i].email != target[j].email
    ensures forall i :: 0 <= i < |target| ==> target[i].email in Put(ib, m, base, target)
                                              && Put(ib, m, base, target)[target[i].email] == NewOf(ib, m, target[i])
    ensures forall e :: !Names(target, e) ==> (e in Put(ib, m, base, target) <==> e in base)
    ensures forall e :: e in base && !Names(target, e) ==> Put(ib, m, base, target)[e] == base[e]
  {
    if target != [] {
      var n := |target| - 1;
      PutAt(ib, m, base, target[..n]);
      PutStep(ib, m, base, target, n);
      assert target[..n + 1] == target;
      var before, after := Put(ib, m, base, target[..n]), Put(ib, m, base, target);
      hide Put, NewOf, Names;
      forall i | 0 <= i < |target|
        ensures target[i].email in after && after[target[i].email] == NewOf(ib, m, target[i])
      {
        if i < n {
          assert target[..n][i] == target[i];
        }
      }
    }
  }

  lemma PutStep(ib: Inbound, m: map<Text, Client>, base: map<Text, Client>, target: seq<Wanted>, n: nat)
    requires n < |target|
    ensures Put(ib, m, base, target[..n + 1])
              == Put(ib, m, base, target[..n])[target[n].email := NewOf(ib, m, target[n])]
    ensures forall e :: !Names(target[..n + 1], e) ==> !Names(target[..n], e) && e != target[n].email
  {
    assert target[..n + 1][..n] == target[..n];
    forall e | !Names(target[..n + 1], e)
      ensures !Names(target[..n], e) && e != target[n].email
    {
      assert target[..n + 1][n] == target[n];
      assert forall i :: 0 <= i < n ==> target[..n + 1][i] == target[..n][i];
    }
  }

  /** What the writes rely on: base holds the wanted clients as they were, and nobody
      else has an identity that is to be given. */
  ghost predicate Ready(ib: Inbound, m: map<Text, Client>, base: map<Text, Client>, target: seq<Wanted>) {
    && GoodTarget(target)
    && (forall i :: 0 <= i < |target| ==> (target[i].email in m <==> target[i].email in base)
                                          && (target[i].email in m ==> base[target[i].email] == m[target[i].email]))
    && (forall i, e :: 0 <= i < |target| && e in base && e != target[i].email ==>
          Identity(ib.protocol, base[e]) != NewIdentity(ib.protocol, target[i]))
  }

  lemma WriteFree(ib: Inbound, m: map<Text, Client>, base: map<Text, Client>, target: seq<Wanted>, n: nat)
    requires Ready(ib, m, base, target) && n < |target|
    requires forall e :: e in m ==> m[e].email == e
    ensures var now := Put(ib, m, base, target[..n]); var w := target[n];
            && (w.email in now <==> w.email in m) && (w.email in m ==> now[w.email] == m[w.email])
            && forall f :: f in now && f != w.email ==>
                Identity(ib.protocol, now[f]) != Identity(ib.protocol, NewOf(ib, m, w))
  {
    var now, w := Put(ib, m, base, target[..n]), target[n];
    PutAt(ib, m, base, target[..n]);
    assert !Names(target[..n], w.email);
    hide Put;
    forall f | f in now && f != w.email
      ensures Identity(ib.protocol, now[f]) != NewIdentity(ib.protocol, w)
    {
      if Names(target[..n], f) {
        var i :| 0 <= i < n && target[..n][i].email == f;
        assert now[f] == NewOf(ib, m, target[i]);
      }
    }
  }

  lemma {:induction false} WritesLead(ib: Inbound, clients: seq<Client>, m: map<Text, Client>,
                                      owned: map<Text, Client>, actions: seq<Action>,
                                      base: map<Text, Client>, target: seq<Wanted>, n: nat)
    requires Ready(ib, m, base, target) && n <= |target| && Leads(ib.protocol, clients, actions, base)
    requires owned == map e | e in m && e.ak :: m[e]
    requires forall e :: e in m ==> m[e].email == e
    ensures Leads(ib.protocol, clients, actions + WritesOf(ib, owned, target[..n]), Put(ib, m, base, target[..n]))
  {
    if n == 0 {
      assert actions + WritesOf(ib, owned, target[..n]) == actions;
    } else {
      WritesLead(ib, clients, m, owned, actions, base, target, n - 1);
      WriteLeads(ib, clients, m, owned, actions, base, target, n - 1);
    }
  }

  lemma WriteLeads(ib: Inbound, clients: seq<Client>, m: map<Text, Client>, owned: map<Text, Client>,
                   actions: seq<Action>,
                   base: map<Text, Client>, target: seq<Wanted>, n: nat)
    requires Ready(ib, m, base, target) && n < |target|
    requires owned == map e | e in m && e.ak :: m[e]
    requires forall e :: e in m ==> m[e].email == e
    requires Leads(ib.protocol, clients, actions + WritesOf(ib, owned, target[..n]), Put(ib, m, base, target[..n]))
    ensures Leads(ib.protocol, clients, actions + WritesOf(ib, owned, target[..n + 1]),
              Put(ib, m, base, target[..n + 1]))
  {
    var w, now := target[n], Put(ib, m, base, target[..n]);
    var before := actions + WritesOf(ib, owned, target[..n]);
    var mid := After(ib.protocol, clients, before);
    WriteFree(ib, m, base, target, n);
    PutStep(ib, m, base, target, n);
    assert target[..n + 1][..n] == target[..n];
    assert actions + WritesOf(ib, owned, target[..n + 1]) == before + WriteOf(ib, owned, w);
    assert w.email in owned <==> w.email in m;
    hide Ready, Put, Names, WritesOf;
    if w.email !in m {
      AddLists(ib.protocol, mid, now, Created(ib, w));
      LeadsOn(ib.protocol, clients, before, now, Add(Created(ib, w)), now[w.email := Created(ib, w)]);
    } else if Changed(ib, w, m[w.email]) != m[w.email] {
      UpdateLists(ib.protocol, mid, now, w.email, Changed(ib, w, m[w.email]));
      LeadsOn(ib.protocol, clients, before, now, Update(Identity(ib.protocol, m[w.email]), Changed(ib, w, m[w.email])),
              now[w.email := Changed(ib, w, m[w.email])]);
    } else {
      assert now[w.email := NewOf(ib, m, w)] == now;
      assert before + WriteOf(ib, owned, w) == before;
    }
  }
}
