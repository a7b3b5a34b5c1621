/** What the panel does with writes: each reaches every client its identity matches. */
module XuiWrites {
  import opened Common
  import opened XuiPlan

  predicate Matches(protocol: Protocol, clients: seq<Client>, identity: Text) {
    exists i :: 0 <= i < |clients| && Identity(protocol, clients[i]) == identity
  }

  function Without(protocol: Protocol, clients: seq<Client>, identity: Text): seq<Client> {
    if clients == [] then []
    else
      var n := |clients| - 1;
      Without(protocol, clients[..n], identity) + if Identity(protocol, clients[n]) == identity then []
          else [clients[n]]
  }

  function Replaced(protocol: Protocol, clients: seq<Client>, identity: Text, next: Client): seq<Client> {
    if clients == [] then []
    else
      var n := |clients| - 1;
      Replaced(protocol, clients[..n], identity, next)
          + [if Identity(protocol, clients[n]) == identity then next else clients[n]]
  }

  /** The panel refuses a second client of one email, an identity nobody has, and to
      delete the last client of an inbound. */
  function Written(protocol: Protocol, clients: seq<Client>, a: Action): Option<seq<Client>> {
    match a
    case Add(c) => if exists i :: 0 <= i < |clients| && clients[i].email == c.email then None else Some(clients + [c])
    case Update(identity, c) => if Matches(protocol, clients, identity)
        then Some(Replaced(protocol, clients, identity, c)) else None
    case Delete(identity) =>
      var kept := Without(protocol, clients, identity);
      if Matches(protocol, clients, identity) && kept != [] then Some(kept) else None
  }

  /** Every write is accepted in turn. */
  predicate Accepted(protocol: Protocol, clients: seq<Client>, actions: seq<Action>)
    decreases |actions|, 0
  {
    actions == [] ||
    (Accepted(protocol, clients, actions[..|actions| - 1])
     && Written(protocol, After(protocol, clients, actions[..|actions| - 1]), actions[|actions| - 1]).Some?)
  }

  /** A refused write changes nothing. */
  function After(protocol: Protocol, clients: seq<Client>, actions: seq<Action>): seq<Client>
    decreases |actions|, 1
  {
    if actions == [] then clients
    else
      var before := After(protocol, clients, actions[..|actions| - 1]);
      var next := Written(protocol, before, actions[|actions| - 1]);
      if next.Some? then next.value else before
  }

  // --------------------------------------------------------- foreign clients

  /** The clients that are not ours, in the panel's order. */
  function Foreigners(clients: seq<Client>): seq<Client> {
    if clients == [] then []
    else
      var n := |clients| - 1;
      Foreigners(clients[..n]) + if clients[n].email.ak then [] else [clients[n]]
  }

  predicate Far(protocol: Protocol, clients: seq<Client>, identity: Text) {
    forall c :: c in Foreigners(clients) ==> Identity(protocol, c) != identity
  }

  /** A write that reaches and makes only clients of ours. */
  predicate Harmless(protocol: Protocol, clients: seq<Client>, a: Action) {
    match a
    case Add(c) => c.email.ak
    case Update(identity, c) => c.email.ak && Far(protocol, clients, identity)
    case Delete(identity) => Far(protocol, clients, identity)
  }

  lemma ForeignersMore(clients: seq<Client>, c: Client)
    ensures Foreigners(clients + [c]) == Foreigners(clients) + if c.email.ak then [] else [c]
  {
    assert (clients + [c])[..|clients|] == clients;
  }

  lemma FarPart(protocol: Protocol, clients: seq<Client>, identity: Text)
    requires clients != [] && Far(protocol, clients, identity)
    ensures Far(protocol, clients[..|clients| - 1], identity)
    ensures !clients[|clients| - 1].email.ak ==> Identity(protocol, clients[|clients| - 1]) != identity
  {
    var n := |clients| - 1;
    forall c | c in Foreigners(clients[..n])
      ensures Identity(protocol, c) != identity
    {
      assert c in Foreigners(clients);
    }
    if !clients[n].email.ak {
      assert clients[n] in Foreigners(clients);
    }
  }

  lemma {:induction false} WithoutSpares(protocol: Protocol, clients: seq<Client>, identity: Text)
    requires Far(protocol, clients, identity)
    ensures Foreigners(Without(protocol, clients, identity)) == Foreigners(clients)
  {
    if clients != [] {
      var n := |clients| - 1;
      FarPart(protocol, clients, identity);
      WithoutSpares(protocol, clients[..n], identity);
      if Identity(protocol, clients[n]) != identity {
        ForeignersMore(Without(protocol, clients[..n], identity), clients[n]);
      } else {
        assert Without(protocol, clients, identity) == Without(protocol, clients[..n], identity);
      }
    }
  }

  lemma {:induction false} ReplacedSpares(protocol: Protocol, clients: seq<Client>, identity: Text, next: Client)
    requires Far(protocol, clients, identity) && next.email.ak
    ensures Foreigners(Replaced(protocol, clients, identity, next)) == Foreigners(clients)
  {
    if clients != [] {
      var n := |clients| - 1;
      FarPart(protocol, clients, identity);
      ReplacedSpares(protocol, clients[..n], identity, next);
      ForeignersMore(Replaced(protocol, clients[..n], identity, next),
          if Identity(protocol, clients[n]) == identity then next else clients[n]);
    }
  }

  lemma HarmlessSpares(protocol: Protocol, clients: seq<Client>, a: Action)
    requires Harmless(protocol, clients, a) && Written(protocol, clients, a).Some?
    ensures Foreigners(Written(protocol, clients, a).value) == Foreigners(clients)
  {
    match a
    case Add(c) => ForeignersMore(clients, c);
    case Update(identity, c) => ReplacedSpares(protocol, clients, identity, c);
    case Delete(identity) => WithoutSpares(protocol, clients, identity);
  }

  lemma {:induction false} AllHarmless(protocol: Protocol, clients: seq<Client>, actions: seq<Action>)
    requires forall i :: 0 <= i < |actions| ==> Harmless(protocol, clients, actions[i])
    ensures Foreigners(After(protocol, clients, actions)) == Foreigners(clients)
  {
    if actions != [] {
      var n := |actions| - 1;
      AllHarmless(protocol, clients, actions[..n]);
      var before := After(protocol, clients, actions[..n]);
      assert Harmless(protocol, before, actions[n]);
      if Written(protocol, before, actions[n]).Some? {
        HarmlessSpares(protocol, before, actions[n]);
      }
    }
  }

  lemma {:induction false} ForeignersIn(clients: seq<Client>, c: Client)
    requires c in Foreigners(clients)
    ensures c in clients && !c.email.ak
  {
    var n := |clients| - 1;
    if c in Foreigners(clients[..n]) {
      ForeignersIn(clients[..n], c);
    }
  }

  lemma OutsideIsFar(protocol: Protocol, clients: seq<Client>, identity: Text)
    requires identity !in Foreign(protocol, clients)
    ensures Far(protocol, clients, identity)
  {
    forall c | c in Foreigners(clients)
      ensures Identity(protocol, c) != identity
    {
      ForeignersIn(clients, c);
      var i :| 0 <= i < |clients| && clients[i] == c;
    }
  }

  lemma {:induction false} RemovalsHarmless(ib: Inbound, owned: map<Text, Client>, gone: seq<Text>)
    requires forall i :: 0 <= i < |gone| ==> gone[i] in owned
    requires forall e :: e in owned ==>
               owned[e].email.ak && Far(ib.protocol, Clients(ib), Identity(ib.protocol, owned[e]))
    ensures forall i :: 0 <= i < |Removals(ib, owned, gone)| ==>
              Harmless(ib.protocol, Clients(ib), Removals(ib, owned, gone)[i])
  {
    if gone != [] {
      RemovalsHarmless(ib, owned, gone[..|gone| - 1]);
    }
  }

  lemma {:induction false} WritesHarmless(ib: Inbound, owned: map<Text, Client>, target: seq<Wanted>)
    requires forall i :: 0 <= i < |target| ==> target[i].email.ak
    requires forall e :: e in owned ==>
               owned[e].email.ak && Far(ib.protocol, Clients(ib), Identity(ib.protocol, owned[e]))
    ensures forall i :: 0 <= i < |WritesOf(ib, owned, target)| ==>
              Harmless(ib.protocol, Clients(ib), WritesOf(ib, owned, target)[i])
  {
    if target != [] {
      WritesHarmless(ib, owned, target[..|target| - 1]);
    }
  }

  /** Whatever part of a plan is written, accepted or refused, every client that is not
      ours is as it was, and in its place among the others. */
  lemma ForeignUntouched(ib: Inbound, target: seq<Wanted>, planned: Planned, n: nat)
    requires GoodTarget(target) && IsPlan(ib, target, planned) && planned.Actions? && n <= |planned.actions|
    ensures Foreigners(After(ib.protocol, Clients(ib), planned.actions[..n])) == Foreigners(Clients(ib))
  {
    var owned := Owned(Clients(ib));
    forall e | e in owned
      ensures Far(ib.protocol, Clients(ib), Identity(ib.protocol, owned[e]))
    {
      OutsideIsFar(ib.protocol, Clients(ib), Identity(ib.protocol, owned[e]));
    }
    var gone :| Unwanted(owned, target, gone)
        && planned.actions == Removals(ib, owned, gone) + WritesOf(ib, owned, target);
    RemovalsHarmless(ib, owned, gone);
    WritesHarmless(ib, owned, target);
    AllHarmless(ib.protocol, Clients(ib), planned.actions[..n]);
  }
}
