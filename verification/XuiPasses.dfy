/** Two passes bring an inbound to its target, and a third finds nothing to do. */
module XuiPasses {
  import opened Common
  import opened XuiPlan
  import opened XuiWrites
  import opened XuiConverge

  /** No two clients share an email or an identity, the inbound takes the target, and
      no identity to be given is another client's or reaches a foreign one. */
  ghost predicate Clear(ib: Inbound, target: seq<Wanted>) {
    && GoodTarget(target) && Refuses(ib, target).None? && Separate(ib.protocol, Clients(ib))
    && (forall i :: 0 <= i < |target| ==> NewIdentity(ib.protocol, target[i]) !in Foreign(ib.protocol, Clients(ib)))
    && (forall i, k :: 0 <= i < |target| && 0 <= k < |Clients(ib)| && Clients(ib)[k].email != target[i].email ==>
          Identity(ib.protocol, Clients(ib)[k]) != NewIdentity(ib.protocol, target[i]))
  }

  function Index(clients: seq<Client>): map<Text, Client> {
    if clients == [] then map[]
    else Index(clients[..|clients| - 1])[clients[|clients| - 1].email := clients[|clients| - 1]]
  }

  lemma {:induction false} IndexLists(protocol: Protocol, clients: seq<Client>)
    requires Separate(protocol, clients)
    ensures Lists(protocol, clients, Index(clients))
  {
    if clients == [] {
      assert Index(clients) == map[];
    } else {
      var n := |clients| - 1;
      assert Separate(protocol, clients[..n]);
      IndexLists(protocol, clients[..n]);
      IndexNew(protocol, clients);
      hide Lists, Separate, Identity;
      ListsMore(protocol, clients[..n], Index(clients[..n]), clients[n]);
      assert clients == clients[..n] + [clients[n]];
    }
  }

  lemma IndexNew(protocol: Protocol, clients: seq<Client>)
    requires clients != [] && Separate(protocol, clients)
    requires Lists(protocol, clients[..|clients| - 1], Index(clients[..|clients| - 1]))
    ensures var before, c := Index(clients[..|clients| - 1]), clients[|clients| - 1];
            c.email !in before && forall f :: f in before ==> Identity(protocol, before[f]) != Identity(protocol, c)
  {
    hide Index;
    var n := |clients| - 1;
    var before := Index(clients[..n]);
    forall f | f in before
      ensures f != clients[n].email && Identity(protocol, before[f]) != Identity(protocol, clients[n])
    {
      var i :| 0 <= i < n && clients[..n][i] == before[f];
    }
  }

  predicate Settled(ib: Inbound, target: seq<Wanted>, m: map<Text, Client>) {
    forall i :: 0 <= i < |target| ==>
        target[i].email in m && Changed(ib, target[i], m[target[i].email]) == m[target[i].email]
  }

  /** Besides wanted clients, at most one of ours is left, disabled and alone. */
  ghost predicate Near(ib: Inbound, target: seq<Wanted>, m: map<Text, Client>) {
    && Settled(ib, target, m)
    && forall e :: e in m && e.ak && !Names(target, e) ==>
         m[e].enable == Some(false) && forall f :: f in m && f != e ==> Names(target, f)
  }

  /** Besides wanted clients, none of ours is left but a disabled last client of all. */
  ghost predicate Reached(ib: Inbound, target: seq<Wanted>, m: map<Text, Client>) {
    && Settled(ib, target, m)
    && forall e :: e in m && e.ak && !Names(target, e) ==> target == [] && m == map[e := Disabled(m[e])]
  }

  /** No client that is not ours is new, and none of ours can be mistaken for one. */
  ghost predicate Safe(ib: Inbound, m: map<Text, Client>) {
    && (forall e :: e in m && !e.ak ==> m[e] in Clients(ib))
    && (forall e :: e in m && e.ak ==> Identity(ib.protocol, m[e]) !in Foreign(ib.protocol, Clients(ib)))
  }

  function Now(ib: Inbound, clients: seq<Client>): Inbound {
    ib.(clients := Some(clients))
  }

  lemma StillTaken(ib: Inbound, target: seq<Wanted>, clients: seq<Client>, m: map<Text, Client>)
    requires Lists(ib.protocol, clients, m) && Safe(ib, m) && Refuses(ib, target).None?
    ensures Refuses(Now(ib, clients), target).None?
  {
    OwnedOf(ib.protocol, clients, m);
    ForeignFewer(ib, clients, m);
    hide Lists, Foreign, Identity;
  }

  lemma ForeignFewer(ib: Inbound, clients: seq<Client>, m: map<Text, Client>)
    requires Lists(ib.protocol, clients, m) && Safe(ib, m)
    ensures Foreign(ib.protocol, clients) <= Foreign(ib.protocol, Clients(ib))
  {
    forall i | 0 <= i < |clients| && !clients[i].email.ak
      ensures exists k :: 0 <= k < |Clients(ib)| && Clients(ib)[k] == clients[i]
    {
      assert clients[i].email in m;
    }
  }

  // ---------------------------------------------------------------- first pass

  lemma GoneListed(ib: Inbound, target: seq<Wanted>, m: map<Text, Client>, gone: seq<Text>)
    requires Lists(ib.protocol, Clients(ib), m) && Unwanted(Owned(Clients(ib)), target, gone)
    ensures |gone| <= |m|
    ensures forall i :: 0 <= i < |gone| ==>
              gone[i] in m && gone[i] in Owned(Clients(ib)) && Owned(Clients(ib))[gone[i]] == m[gone[i]]
    ensures forall i :: 0 <= i < |target| ==> target[i].email !in gone
    ensures forall i, j :: 0 <= i < j < |gone| ==> gone[i] != gone[j]
  {
    OwnedOf(ib.protocol, Clients(ib), m);
    hide Owned, Lists;
    forall i | 0 <= i < |gone|
      ensures gone[i] in m && gone[i] in Owned(Clients(ib))
    {
      assert gone[i] in gone;
    }
    FewGone(m, gone);
    forall i | 0 <= i < |target|
      ensures target[i].email !in gone
    {
      assert Names(target, target[i].email);
    }
  }

  /** What the removals leave for the writes. */
  lemma LeftReady(ib: Inbound, target: seq<Wanted>, m: map<Text, Client>, gone: seq<Text>)
    requires Clear(ib, target) && Lists(ib.protocol, Clients(ib), m) && Unwanted(Owned(Clients(ib)), target, gone)
               && |gone| <= |m|
    requires forall i :: 0 <= i < |gone| ==> gone[i] in m
    ensures Ready(ib, m, Left(m, gone, |gone|), target)
  {
    GoneListed(ib, target, m, gone);
    LeftWanted(m, gone, target);
    LeftUnlike(ib, target, m, gone);
    ClearTarget(ib, target);
    hide Clear, Lists, Left, Unwanted, Identity, NewIdentity, GoodTarget, Owned;
  }

  lemma ClearTarget(ib: Inbound, target: seq<Wanted>)
    requires Clear(ib, target)
    ensures GoodTarget(target)
  {
  }

  lemma LeftWanted(m: map<Text, Client>, gone: seq<Text>, target: seq<Wanted>)
    requires |gone| <= |m| && forall i :: 0 <= i < |gone| ==> gone[i] in m
    requires forall i, j :: 0 <= i < j < |gone| ==> gone[i] != gone[j]
    requires forall i :: 0 <= i < |target| ==> target[i].email !in gone
    ensures forall i :: 0 <= i < |target| ==>
              && (target[i].email in m <==> target[i].email in Left(m, gone, |gone|))
              && (target[i].email in m ==> Left(m, gone, |gone|)[target[i].email] == m[target[i].email])
  {
    hide Left;
    forall i | 0 <= i < |target|
      ensures target[i].email in m <==> target[i].email in Left(m, gone, |gone|)
      ensures target[i].email in m ==> Left(m, gone, |gone|)[target[i].email] == m[target[i].email]
    {
      LeftNamed(m, gone, target[i].email);
    }
  }

  lemma LeftUnlike(ib: Inbound, target: seq<Wanted>, m: map<Text, Client>, gone: seq<Text>)
    requires Clear(ib, target) && Lists(ib.protocol, Clients(ib), m) && |gone| <= |m|
    requires forall i :: 0 <= i < |gone| ==> gone[i] in m
    ensures forall i, e :: 0 <= i < |target| && e in Left(m, gone, |gone|) && e != target[i].email ==>
              Identity(ib.protocol, Left(m, gone, |gone|)[e]) != NewIdentity(ib.protocol, target[i])
  {
    hide Clear, Lists, Left, Identity, NewIdentity;
    forall i, e | 0 <= i < |target| && e in Left(m, gone, |gone|) && e != target[i].email
      ensures Identity(ib.protocol, Left(m, gone, |gone|)[e]) != NewIdentity(ib.protocol, target[i])
    {
      LeftApart(ib, target, m, gone, i, e);
    }
  }

  lemma LeftApart(ib: Inbound, target: seq<Wanted>, m: map<Text, Client>, gone: seq<Text>, i: nat, e: Text)
    requires Clear(ib, target) && Lists(ib.protocol, Clients(ib), m) && |gone| <= |m|
    requires forall i :: 0 <= i < |gone| ==> gone[i] in m
    requires i < |target| && e in Left(m, gone, |gone|) && e != target[i].email
    ensures Identity(ib.protocol, Left(m, gone, |gone|)[e]) != NewIdentity(ib.protocol, target[i])
  {
    LeftSame(m, gone, e);
    hide Left;
    var k :| 0 <= k < |Clients(ib)| && Clients(ib)[k] == m[e];
  }

  lemma FewGone(m: map<Text, Client>, gone: seq<Text>)
    requires forall i :: 0 <= i < |gone| ==> gone[i] in m
    requires forall i, j :: 0 <= i < j < |gone| ==> gone[i] != gone[j]
    ensures |gone| <= |m|
    ensures |gone| == |m| ==> forall e :: e in m ==> e in gone
  {
    FirstsSize(gone, |gone|);
    var s := Firsts(gone, |gone|);
    assert s <= m.Keys;
    Fewer(m, s);
    if |gone| == |m| {
      assert (m - s).Keys == {};
      assert forall e :: e in m && e !in s ==> e in (m - s).Keys;
    }
  }

  lemma LeftNamed(m: map<Text, Client>, gone: seq<Text>, e: Text)
    requires forall i :: 0 <= i < |gone| ==> gone[i] in m
    requires forall i, j :: 0 <= i < j < |gone| ==> gone[i] != gone[j]
    requires e !in gone && |gone| <= |m|
    ensures e in m <==> e in Left(m, gone, |gone|)
    ensures e in m ==> Left(m, gone, |gone|)[e] == m[e]
  {
    FewGone(m, gone);
  }

  /** What is left has the identity it had. */
  lemma LeftSame(m: map<Text, Client>, gone: seq<Text>, e: Text)
    requires |gone| <= |m| && forall i :: 0 <= i < |gone| ==> gone[i] in m
    requires e in Left(m, gone, |gone|)
    ensures e in m && (Left(m, gone, |gone|)[e] == m[e] || Left(m, gone, |gone|)[e] == Disabled(m[e]))
  {
  }

  lemma LeftNear(m: map<Text, Client>, gone: seq<Text>, e: Text)
    requires |gone| <= |m| && forall i :: 0 <= i < |gone| ==> gone[i] in m
    requires e in Left(m, gone, |gone|) && e in gone
    ensures Left(m, gone, |gone|) == map[e := Disabled(m[e])]
  {
    var i :| 0 <= i < |gone| && gone[i] == e;
    assert gone[i] in Firsts(gone, |gone|);
  }

  lemma NewSettled(ib: Inbound, m: map<Text, Client>, w: Wanted)
    ensures Changed(ib, w, NewOf(ib, m, w)) == NewOf(ib, m, w)
  {
  }

  /** What the writes leave of a client that is not wanted. */
  lemma PutUnnamed(ib: Inbound, target: seq<Wanted>, m: map<Text, Client>, gone: seq<Text>, e: Text)
    requires Lists(ib.protocol, Clients(ib), m) && GoodTarget(target) && Unwanted(Owned(Clients(ib)), target, gone)
    requires |gone| <= |m| && forall i :: 0 <= i < |gone| ==> gone[i] in m
    requires e in Put(ib, m, Left(m, gone, |gone|), target) && !Names(target, e)
    ensures e in Left(m, gone, |gone|) && Put(ib, m, Left(m, gone, |gone|), target)[e] == Left(m, gone, |gone|)[e]
    ensures e in m && Left(m, gone, |gone|)[e] == if e.ak then Disabled(m[e]) else m[e]
    ensures e.ak ==> Left(m, gone, |gone|) == map[e := Disabled(m[e])]
  {
    PutAt(ib, m, Left(m, gone, |gone|), target);
    hide Put;
    LeftSame(m, gone, e);
    OwnedOf(ib.protocol, Clients(ib), m);
    if e.ak {
      assert e in gone;
      hide Left;
      LeftNear(m, gone, e);
    } else {
      assert e !in gone;
      hide Left;
      LeftNamed(m, gone, e);
    }
  }

  lemma PutNear(ib: Inbound, target: seq<Wanted>, m: map<Text, Client>, gone: seq<Text>)
    requires Clear(ib, target) && Lists(ib.protocol, Clients(ib), m) && Unwanted(Owned(Clients(ib)), target, gone)
               && |gone| <= |m|
    requires forall i :: 0 <= i < |gone| ==> gone[i] in m
    ensures Near(ib, target, Put(ib, m, Left(m, gone, |gone|), target))
              && Safe(ib, Put(ib, m, Left(m, gone, |gone|), target))
  {
    var left := Left(m, gone, |gone|);
    var put := Put(ib, m, left, target);
    PutAt(ib, m, left, target);
    assert GoodTarget(target);
    hide Put, Left, Lists, Unwanted, NewOf, Changed, Clear, GoodTarget;
    forall i | 0 <= i < |target|
      ensures Changed(ib, target[i], put[target[i].email]) == put[target[i].email]
    {
      NewSettled(ib, m, target[i]);
    }
    forall e | e in put && !Names(target, e)
      ensures e in left && put[e] == left[e] && e in m && left[e] == (if e.ak then Disabled(m[e]) else m[e])
      ensures e.ak ==> left == map[e := Disabled(m[e])]
    {
      PutUnnamed(ib, target, m, gone, e);
    }
    PutSafe(ib, target, m, put);
    NearFrom(ib, target, m, put, left);
  }

  lemma NearFrom(ib: Inbound, target: seq<Wanted>, m: map<Text, Client>, put: map<Text, Client>,
                 left: map<Text, Client>)
    requires Settled(ib, target, put)
    requires forall e :: e in put && !Names(target, e) ==> e in left && put[e] == left[e]
    requires forall e :: e in put && !Names(target, e) && e.ak ==> e in m && left == map[e := Disabled(m[e])]
    ensures Near(ib, target, put)
  {
  }

  lemma PutSafe(ib: Inbound, target: seq<Wanted>, m: map<Text, Client>, put: map<Text, Client>)
    requires Clear(ib, target) && Lists(ib.protocol, Clients(ib), m)
    requires forall i :: 0 <= i < |target| ==> target[i].email in put && put[target[i].email] == NewOf(ib, m, target[i])
    requires forall e :: e in put && !Names(target, e) ==> e in m && put[e] == if e.ak then Disabled(m[e]) else m[e]
    ensures Safe(ib, put)
  {
    forall e | e in put && e.ak
      ensures Identity(ib.protocol, put[e]) !in Foreign(ib.protocol, Clients(ib))
    {
      PutUnlike(ib, target, m, put, e);
    }
    hide Clear;
    forall e | e in put && !e.ak
      ensures put[e] in Clients(ib)
    {
      assert !Names(target, e);
    }
  }

  /** None of ours that is there afterwards can be mistaken for a foreign client. */
  lemma PutUnlike(ib: Inbound, target: seq<Wanted>, m: map<Text, Client>, put: map<Text, Client>, e: Text)
    requires Clear(ib, target) && Lists(ib.protocol, Clients(ib), m) && e in put && e.ak
    requires forall i :: 0 <= i < |target| ==> target[i].email in put && put[target[i].email] == NewOf(ib, m, target[i])
    requires !Names(target, e) ==> e in m && put[e] == Disabled(m[e])
    ensures Identity(ib.protocol, put[e]) !in Foreign(ib.protocol, Clients(ib))
  {
    OwnedOf(ib.protocol, Clients(ib), m);
    hide Foreign, Owned;
    if Names(target, e) {
      var i :| 0 <= i < |target| && target[i].email == e;
      assert Identity(ib.protocol, put[e]) == NewIdentity(ib.protocol, target[i]);
    } else {
      assert e in Owned(Clients(ib));
      assert Identity(ib.protocol, put[e]) == Identity(ib.protocol, m[e]);
    }
  }

  /** The first pass is accepted, and nearly there. */
  lemma FirstPass(ib: Inbound, target: seq<Wanted>, planned: Planned)
    requires Clear(ib, target) && IsPlan(ib, target, planned)
    ensures planned.Actions?
    ensures exists m :: Leads(ib.protocol, Clients(ib), planned.actions, m) && Near(ib, target, m) && Safe(ib, m)
  {
    var owned, m := Owned(Clients(ib)), Index(Clients(ib));
    assert Refuses(ib, target).None? && Separate(ib.protocol, Clients(ib));
    IndexLists(ib.protocol, Clients(ib));
    OwnedOf(ib.protocol, Clients(ib), m);
    assert forall e :: e in m ==> m[e].email == e;
    hide Clear, Lists, Leads, Index, Near, Safe, WritesOf, Removals, Owned, Refuses, Unwanted;
    var gone :| Unwanted(owned, target, gone)
        && planned.actions == Removals(ib, owned, gone) + WritesOf(ib, owned, target);
    WrittenTo(ib, target, m, gone);
  }

  /** The removals, then the writes. */
  lemma WrittenTo(ib: Inbound, target: seq<Wanted>, m: map<Text, Client>, gone: seq<Text>)
    requires Clear(ib, target) && Lists(ib.protocol, Clients(ib), m) && Unwanted(Owned(Clients(ib)), target, gone)
    requires forall e :: e in m ==> m[e].email == e
    ensures var actions := Removals(ib, Owned(Clients(ib)), gone) + WritesOf(ib, Owned(Clients(ib)), target);
            exists n :: Leads(ib.protocol, Clients(ib), actions, n) && Near(ib, target, n) && Safe(ib, n)
  {
    hide Clear, Left, Put, Lists, Leads, Near, Safe, Ready, WritesOf, Removals, Owned, Unwanted;
    GoneListed(ib, target, m, gone);
    AllRemovalsLead(ib, m, gone);
    LeftReady(ib, target, m, gone);
    OwnedOf(ib.protocol, Clients(ib), m);
    WritesLead(ib, Clients(ib), m, Owned(Clients(ib)), Removals(ib, Owned(Clients(ib)), gone), Left(m, gone, |gone|),
        target, |target|);
    assert target[..|target|] == target;
    PutNear(ib, target, m, gone);
  }

  lemma AllRemovalsLead(ib: Inbound, m: map<Text, Client>, gone: seq<Text>)
    requires Lists(ib.protocol, Clients(ib), m) && |gone| <= |m|
    requires forall i :: 0 <= i < |gone| ==>
               gone[i] in m && gone[i] in Owned(Clients(ib)) && Owned(Clients(ib))[gone[i]] == m[gone[i]]
    requires forall i, j :: 0 <= i < j < |gone| ==> gone[i] != gone[j]
    ensures Leads(ib.protocol, Clients(ib), Removals(ib, Owned(Clients(ib)), gone), Left(m, gone, |gone|))
  {
    hide Lists, Leads, Removals, Left, Owned;
    RemovalsLead(ib, m, gone, |gone|);
    assert gone[..|gone|] == gone;
  }

  // --------------------------------------------------------------- second pass

  lemma {:induction false} NoWrites(ib: Inbound, target: seq<Wanted>, owned: map<Text, Client>, n: nat)
    requires n <= |target| && forall i :: 0 <= i < n ==>
               target[i].email in owned && Changed(ib, target[i], owned[target[i].email]) == owned[target[i].email]
    ensures WritesOf(ib, owned, target[..n]) == []
  {
    if n > 0 {
      assert target[..n][..n - 1] == target[..n - 1];
      NoWrites(ib, target, owned, n - 1);
    }
  }

  /** Once wanted clients are as wanted, a plan only removes. */
  lemma OnlyRemovals(ib: Inbound, target: seq<Wanted>, planned: Planned, clients: seq<Client>, m: map<Text, Client>)
    requires Lists(ib.protocol, clients, m) && Settled(ib, target, m) && Safe(ib, m) && Refuses(ib, target).None?
               && GoodTarget(target)
    requires IsPlan(Now(ib, clients), target, planned)
    ensures planned.Actions?
    ensures exists gone :: Unwanted(Owned(clients), target, gone)
              && planned.actions == Removals(Now(ib, clients), Owned(clients), gone)
  {
    StillTaken(ib, target, clients, m);
    OwnedOf(ib.protocol, clients, m);
    var now := Now(ib, clients);
    assert Clients(now) == clients;
    SettledNow(ib, target, m, clients, Owned(clients));
    NoWrites(now, target, Owned(clients), |target|);
    assert target[..|target|] == target;
    assert Refuses(now, target).None? && IsPlan(now, target, planned);
    hide Refuses, Owned, WritesOf, Lists, Safe, Settled, GoodTarget, Removals, Unwanted, Changed, Now, Clients;
    var gone :| Unwanted(Owned(clients), target, gone)
      && planned.actions == Removals(now, Owned(clients), gone) + WritesOf(now, Owned(clients), target);
    assert planned.actions == Removals(now, Owned(clients), gone);
  }

  lemma SettledNow(ib: Inbound, target: seq<Wanted>, m: map<Text, Client>, clients: seq<Client>,
                   owned: map<Text, Client>)
    requires Settled(ib, target, m) && GoodTarget(target) && owned == map e | e in m && e.ak :: m[e]
    ensures forall i :: 0 <= i < |target| ==>
              target[i].email in owned && Changed(Now(ib, clients), target[i], owned[target[i].email])
                  == owned[target[i].email]
  {
  }

  function EmailAt(emails: seq<Text>, i: nat): Text {
    if i < |emails| then emails[i] else NO_TEXT
  }

  lemma GoneInMap(owned: map<Text, Client>, target: seq<Wanted>, gone: seq<Text>)
    requires Unwanted(owned, target, gone)
    ensures forall i :: 0 <= i < |gone| ==> gone[i] in owned && !Names(target, gone[i])
  {
    forall i | 0 <= i < |gone|
      ensures gone[i] in gone
    {
    }
  }

  lemma FirstNamed(target: seq<Wanted>)
    ensures target != [] ==> Names(target, target[0].email)
  {
  }

  lemma AtMostOneGone(target: seq<Wanted>, owned: map<Text, Client>, m: map<Text, Client>, gone: seq<Text>, ib: Inbound)
    requires Near(ib, target, m) && Unwanted(owned, target, gone) && owned == map e | e in m && e.ak :: m[e]
    ensures |gone| <= 1
    ensures |gone| == 1 ==> gone[0] in m && gone[0].ak && !Names(target, gone[0]) && m[gone[0]].enable == Some(false)
                            && forall f :: f in m && f != gone[0] ==> Names(target, f)
  {
    forall i | 0 <= i < |gone|
      ensures gone[i] in m && gone[i].ak && !Names(target, gone[i])
    {
      assert gone[i] in gone;
    }
    assert |gone| <= 1 by {
      var first, second := EmailAt(gone, 0), EmailAt(gone, 1);
      assert |gone| > 1 ==> first in m && second in m && first != second && !Names(target, second);
    }
  }

  /** The one that was left is removed, or it is the last client of all and disabled. */
  lemma LeftReached(ib: Inbound, target: seq<Wanted>, m: map<Text, Client>, gone: seq<Text>)
    requires Near(ib, target, m) && Safe(ib, m) && |gone| <= |m|
    requires Unwanted(map e | e in m && e.ak :: m[e], target, gone) && forall i :: 0 <= i < |gone| ==> gone[i] in m
    ensures Reached(ib, target, Left(m, gone, |gone|)) && Safe(ib, Left(m, gone, |gone|))
  {
    AtMostOneGone(target, map e | e in m && e.ak :: m[e], m, gone, ib);
    if |gone| == 0 {
      NoneReached(ib, target, m, gone);
    } else {
      OneReached(ib, target, m, gone);
    }
  }

  lemma NoneReached(ib: Inbound, target: seq<Wanted>, m: map<Text, Client>, gone: seq<Text>)
    requires Near(ib, target, m) && Safe(ib, m) && gone == []
    requires Unwanted(map e | e in m && e.ak :: m[e], target, gone)
    ensures Reached(ib, target, Left(m, gone, 0)) && Safe(ib, Left(m, gone, 0))
  {
    hide Changed, Foreign;
    assert Firsts(gone, 0) == {};
    assert m - Firsts(gone, 0) == m;
    assert forall e :: e in m && e.ak && !Names(target, e) ==> e in gone;
  }

  lemma OneReached(ib: Inbound, target: seq<Wanted>, m: map<Text, Client>, gone: seq<Text>)
    requires Near(ib, target, m) && Safe(ib, m) && |gone| == 1 && gone[0] in m && !Names(target, gone[0])
    requires m[gone[0]].enable == Some(false) && forall f :: f in m && f != gone[0] ==> Names(target, f)
    ensures Reached(ib, target, Left(m, gone, 1)) && Safe(ib, Left(m, gone, 1))
  {
    LeftOne(m, gone);
    hide Left, Changed, Foreign;
    if |m| == 1 {
      LastReached(ib, target, m, gone[0]);
    } else {
      LessReached(ib, target, m, gone[0]);
    }
  }

  lemma LeftOne(m: map<Text, Client>, gone: seq<Text>)
    requires |gone| == 1 && gone[0] in m
    ensures |m| >= 1 && Left(m, gone, 1) == if |m| == 1 then map[gone[0] := Disabled(m[gone[0]])] else m - {gone[0]}
  {
    LessSize(m, gone[0]);
    assert Firsts(gone, 1) == {gone[0]};
  }

  lemma LastReached(ib: Inbound, target: seq<Wanted>, m: map<Text, Client>, e: Text)
    requires Settled(ib, target, m) && Safe(ib, m) && e in m && |m| == 1 && !Names(target, e)
    requires m[e].enable == Some(false)
    ensures Reached(ib, target, map[e := Disabled(m[e])]) && Safe(ib, map[e := Disabled(m[e])])
  {
    hide Changed, Foreign;
    OnlyOne(m, e);
    assert Disabled(m[e]) == m[e];
    FirstNamed(target);
  }

  lemma LessSize(m: map<Text, Client>, e: Text)
    requires e in m
    ensures |m| >= 1
  {
    assert m.Keys == {e} + (m.Keys - {e});
  }

  lemma LessReached(ib: Inbound, target: seq<Wanted>, m: map<Text, Client>, e: Text)
    requires Settled(ib, target, m) && Safe(ib, m) && !Names(target, e)
    requires forall f :: f in m && f != e ==> Names(target, f)
    ensures Reached(ib, target, m - {e}) && Safe(ib, m - {e})
  {
    hide Changed, Foreign;
    forall i | 0 <= i < |target|
      ensures target[i].email != e
    {
      assert Names(target, target[i].email);
    }
  }

  lemma SecondPass(ib: Inbound, target: seq<Wanted>, planned: Planned, clients: seq<Client>, m: map<Text, Client>)
    requires Lists(ib.protocol, clients, m) && Near(ib, target, m) && Safe(ib, m) && Refuses(ib, target).None?
               && GoodTarget(target)
    requires IsPlan(Now(ib, clients), target, planned)
    ensures planned.Actions?
    ensures exists m2 :: Leads(ib.protocol, clients, planned.actions, m2) && Reached(ib, target, m2) && Safe(ib, m2)
  {
    OnlyRemovals(ib, target, planned, clients, m);
    OwnedOf(ib.protocol, clients, m);
    var now := Now(ib, clients);
    assert Clients(now) == clients;
    hide Refuses, Settled, Safe, Near, IsPlan, Owned, Removals, Reached, Leads, Unwanted;
    var gone :| Unwanted(Owned(clients), target, gone) && planned.actions == Removals(now, Owned(clients), gone);
    RemovedTo(ib, target, clients, m, gone);
  }

  lemma RemovedTo(ib: Inbound, target: seq<Wanted>, clients: seq<Client>, m: map<Text, Client>, gone: seq<Text>)
    requires Lists(ib.protocol, clients, m) && Near(ib, target, m) && Safe(ib, m)
               && Unwanted(Owned(clients), target, gone)
    ensures exists n :: Leads(ib.protocol, clients, Removals(Now(ib, clients), Owned(clients), gone), n)
              && Reached(ib, target, n) && Safe(ib, n)
  {
    var now := Now(ib, clients);
    assert Clients(now) == clients;
    hide Lists, Safe, Near, Owned, Removals, Reached, Leads, Left, Unwanted;
    GoneListed(now, target, m, gone);
    AllRemovalsLead(now, m, gone);
    OwnedOf(ib.protocol, clients, m);
    LeftReached(ib, target, m, gone);
  }

  lemma NothingLeft(ib: Inbound, target: seq<Wanted>, planned: Planned, clients: seq<Client>, m: map<Text, Client>)
    requires Lists(ib.protocol, clients, m) && Reached(ib, target, m) && Safe(ib, m) && Refuses(ib, target).None?
               && GoodTarget(target)
    requires IsPlan(Now(ib, clients), target, planned)
    ensures planned == Actions([])
  {
    OnlyRemovals(ib, target, planned, clients, m);
    OwnedOf(ib.protocol, clients, m);
    ListsSize(ib.protocol, clients, m);
    var now := Now(ib, clients);
    assert Clients(now) == clients;
    hide Refuses, Settled, Safe, IsPlan, Lists, Owned, Removals, Unwanted, GoodTarget, Now, Clients, Reached;
    var gone :| Unwanted(Owned(clients), target, gone) && planned.actions == Removals(now, Owned(clients), gone);
    NoRemoval(ib, target, now, m, gone, Owned(clients));
  }

  /** A disabled last client is left alone. */
  lemma NoRemoval(ib: Inbound, target: seq<Wanted>, now: Inbound, m: map<Text, Client>, gone: seq<Text>,
                  owned: map<Text, Client>)
    requires Reached(ib, target, m) && |Clients(now)| == |m|
    requires owned == map e | e in m && e.ak :: m[e]
    requires Unwanted(owned, target, gone)
    ensures (forall i :: 0 <= i < |gone| ==> gone[i] in owned) && Removals(now, owned, gone) == []
  {
    GoneInMap(owned, target, gone);
    hide Settled;
    if gone != [] {
      var e := gone[0];
      assert m == map[e := Disabled(m[e])];
      assert m[e].enable == Some(false);
      assert |gone| <= 1 by {
        var second := EmailAt(gone, 1);
      }
      assert gone == [e] && gone[..0] == [];
    }
  }

  /** A client is as wanted. */
  predicate Holds(ib: Inbound, w: Wanted, c: Client) {
    && c.email == w.email && c.secret == w.credential && c.enable == Some(Enabled(ib, w)) && c.total == Some(w.total)
    && c.expiry == Some(0) && (ib.protocol == Vless ==> c.flow == Some(w.flow)) && CommentOf(c) == w.comment
  }

  lemma SettledHolds(ib: Inbound, w: Wanted, c: Client)
    requires Changed(ib, w, c) == c && c.email == w.email
    ensures Holds(ib, w, c)
  {
    assert Changed(ib, w, c).comment == c.comment;
    assert Changed(ib, w, c).secret == w.credential && Changed(ib, w, c).flow == c.flow;
    assert Changed(ib, w, c).enable == Some(Enabled(ib, w)) && Changed(ib, w, c).total == Some(w.total);
    assert Changed(ib, w, c).expiry == Some(0);
  }

  ghost predicate Present(ib: Inbound, w: Wanted, clients: seq<Client>) {
    exists c :: c in clients && Holds(ib, w, c)
  }

  /** Our clients are exactly those wanted, or a single disabled one. */
  ghost predicate AsWanted(ib: Inbound, target: seq<Wanted>, clients: seq<Client>) {
    && (forall i :: 0 <= i < |target| ==> Present(ib, target[i], clients))
    && (forall c :: c in clients && c.email.ak && !Names(target, c.email) ==>
        target == [] && |clients| == 1 && c.enable == Some(false))
  }

  lemma ReachedAsWanted(ib: Inbound, target: seq<Wanted>, clients: seq<Client>, m: map<Text, Client>)
    requires Lists(ib.protocol, clients, m) && Reached(ib, target, m)
    ensures AsWanted(ib, target, clients)
  {
    ListsSize(ib.protocol, clients, m);
    forall i | 0 <= i < |target|
      ensures Present(ib, target[i], clients)
    {
      var c := m[target[i].email];
      SettledHolds(ib, target[i], c);
      assert c in clients && Holds(ib, target[i], c);
    }
    forall c | c in clients && c.email.ak && !Names(target, c.email)
      ensures target == [] && |clients| == 1 && c.enable == Some(false)
    {
      assert m[c.email] == c;
    }
  }

  /** Planning and writing twice, every write is accepted, our clients are then as
      wanted, and a third plan has nothing to write. */
  lemma TwoPasses(ib: Inbound, target: seq<Wanted>, first: Planned, second: Planned, third: Planned)
    requires Clear(ib, target) && IsPlan(ib, target, first)
    ensures first.Actions? && Accepted(ib.protocol, Clients(ib), first.actions)
    ensures var once := After(ib.protocol, Clients(ib), first.actions);
            IsPlan(Now(ib, once), target, second) ==>
              && second.Actions? && Accepted(ib.protocol, once, second.actions)
              && var twice := After(ib.protocol, once, second.actions);
                 AsWanted(ib, target, twice) && (IsPlan(Now(ib, twice), target, third) ==> third == Actions([]))
  {
    assert Refuses(ib, target).None? && GoodTarget(target);
    hide Clear, Refuses, GoodTarget, IsPlan, Near, Safe, Reached, AsWanted, Lists;
    FirstPass(ib, target, first);
    var m :| Leads(ib.protocol, Clients(ib), first.actions, m) && Near(ib, target, m) && Safe(ib, m);
    var once := After(ib.protocol, Clients(ib), first.actions);
    if IsPlan(Now(ib, once), target, second) {
      SecondPass(ib, target, second, once, m);
      var n :| Leads(ib.protocol, once, second.actions, n) && Reached(ib, target, n) && Safe(ib, n);
      var twice := After(ib.protocol, once, second.actions);
      ReachedAsWanted(ib, target, twice, n);
      if IsPlan(Now(ib, twice), target, third) {
        NothingLeft(ib, target, third, twice, n);
      }
    }
  }

  // ------------------------------------------------------ nothing left to write

  /** The client needs no write. */
  ghost predicate NeedsNone(ib: Inbound, owned: map<Text, Client>, w: Wanted) {
    w.email in owned && Changed(ib, w, owned[w.email]) == owned[w.email]
  }

  lemma {:induction false} NoWritesMeans(ib: Inbound, owned: map<Text, Client>, target: seq<Wanted>)
    requires WritesOf(ib, owned, target) == []
    ensures forall i :: 0 <= i < |target| ==> NeedsNone(ib, owned, target[i])
  {
    hide Changed, NeedsNone;
    if target != [] {
      var n := |target| - 1;
      NoWritesMeans(ib, owned, target[..n]);
      NoWriteMeans(ib, owned, target[n]);
      forall i | 0 <= i < n
        ensures NeedsNone(ib, owned, target[i])
      {
        assert target[..n][i] == target[i];
      }
    }
  }

  lemma NoWriteMeans(ib: Inbound, owned: map<Text, Client>, w: Wanted)
    requires WriteOf(ib, owned, w) == []
    ensures NeedsNone(ib, owned, w)
  {
    hide Changed, Created;
  }

  /** Where no removal is needed, nothing is unwanted but a single, disabled client. */
  lemma {:induction false} NoRemovalsMeans(ib: Inbound, owned: map<Text, Client>, gone: seq<Text>)
    requires forall i :: 0 <= i < |gone| ==> gone[i] in owned
    requires gone != [] && Removals(ib, owned, gone) == []
    ensures |Clients(ib)| <= 1 && owned[gone[0]].enable == Some(false)
  {
    var n := |gone| - 1;
    if n > 0 {
      NoRemovalsMeans(ib, owned, gone[..n]);
    }
  }

  lemma OneOwned(clients: seq<Client>, e: Text, f: Text)
    requires |clients| == 1 && e in Owned(clients) && f in Owned(clients)
    ensures e == f
  {
    var c :| c in clients && c.email == e;
    var d :| d in clients && d.email == f;
  }

  /** An inbound for which there is nothing to write has our clients as wanted. */
  lemma QuietAsWanted(ib: Inbound, target: seq<Wanted>)
    requires IsPlan(ib, target, Actions([]))
    ensures AsWanted(ib, target, Clients(ib))
  {
    hide Refuses, Owned, Removals, WritesOf, Clients, Present;
    var owned := Owned(Clients(ib));
    var gone :| Unwanted(owned, target, gone) && [] == Removals(ib, owned, gone) + WritesOf(ib, owned, target);
    NoWritesMeans(ib, owned, target);
    hide IsPlan, Unwanted;
    AllPresent(ib, target, owned);
    forall c | c in Clients(ib) && c.email.ak && !Names(target, c.email)
      ensures target == [] && |Clients(ib)| == 1 && c.enable == Some(false)
    {
      UnwantedAlone(ib, target, gone, c);
    }
    hide Changed;
  }

  lemma AllPresent(ib: Inbound, target: seq<Wanted>, owned: map<Text, Client>)
    requires owned == Owned(Clients(ib)) && forall i :: 0 <= i < |target| ==> NeedsNone(ib, owned, target[i])
    ensures forall i :: 0 <= i < |target| ==> Present(ib, target[i], Clients(ib))
  {
    forall i | 0 <= i < |target|
      ensures Present(ib, target[i], Clients(ib))
    {
      assert NeedsNone(ib, owned, target[i]);
      SettledHolds(ib, target[i], owned[target[i].email]);
    }
    hide Changed, Holds;
  }

  lemma UnwantedAlone(ib: Inbound, target: seq<Wanted>, gone: seq<Text>, c: Client)
    requires Unwanted(Owned(Clients(ib)), target, gone) && Removals(ib, Owned(Clients(ib)), gone) == []
    requires forall i :: 0 <= i < |target| ==> target[i].email in Owned(Clients(ib))
    requires c in Clients(ib) && c.email.ak && !Names(target, c.email)
    ensures target == [] && |Clients(ib)| == 1 && c.enable == Some(false)
  {
    var owned := Owned(Clients(ib));
    assert c.email in gone;
    assert forall i :: 0 <= i < |gone| ==> gone[i] in gone;
    NoRemovalsMeans(ib, owned, gone);
    OneOwned(Clients(ib), c.email, gone[0]);
    assert owned[c.email] == c;
    if target != [] {
      OneOwned(Clients(ib), c.email, target[0].email);
      FirstNamed(target);
    }
    hide Owned, Removals, Clients;
  }
}
