/** What the module writes to one inbound of the panel, and what the panel makes
    of it. */
module XuiPlan {
  import opened Common

  /** A text, as far as it matters: whether it begins with ak-, whether it is a UUID,
      how many bytes it is the Base64 of, and which one it is. */
  datatype Text = Text(ak: bool, uuid: bool, bytes: nat, which: nat)

  const NO_TEXT := Text(false, false, 0, 0)

  datatype Protocol = Vless | Shadowsocks | Hysteria | Another

  datatype Cipher = Plain | Short2022 | Long2022

  /** A client in the panel: the fields the module manages, and all others. A number
      is absent when the field holds none. */
  datatype Client = Client(email: Text, secret: Text, enable: Option<bool>, total: Option<nat>, expiry: Option<nat>,
                           flow: Option<Text>, comment: Option<Text>, others: nat)

  /** What Cloud wants of a client. */
  datatype Wanted = Wanted(email: Text, credential: Text, flow: Text, enable: bool, total: nat, reset: nat,
      comment: Text)

  /** An inbound: its clients unless its settings list none, and the traffic used. */
  datatype Inbound = Inbound(protocol: Protocol, cipher: Cipher, readable: bool, clients: Option<seq<Client>>,
      used: map<Text, nat>)

  datatype Action = Add(client: Client) | Update(identity: Text, client: Client) | Delete(identity: Text)

  datatype Refusal = InboundInvalid | InboundChanged | ClientConflict

  datatype Planned = Actions(actions: seq<Action>) | Refused(why: Refusal)

  // ------------------------------------------------------------------ targets

  /** What a decoded target holds. */
  predicate GoodTarget(target: seq<Wanted>) {
    && (forall i :: 0 <= i < |target| ==> target[i].email.ak && target[i].credential != NO_TEXT)
    && (forall i, j :: 0 <= i < j < |target| ==>
        target[i].email != target[j].email && target[i].credential != target[j].credential)
  }

  predicate Names(target: seq<Wanted>, email: Text) {
    exists i :: 0 <= i < |target| && target[i].email == email
  }

  predicate Uses2022(ib: Inbound) {
    ib.protocol == Shadowsocks && ib.cipher != Plain
  }

  /** The inbound can use a client's credential and flow. */
  predicate Fits(ib: Inbound, w: Wanted) {
    && (w.flow != NO_TEXT ==> ib.protocol == Vless)
    && (match ib.protocol
        case Vless => w.credential.uuid
        case Shadowsocks => ib.cipher != Plain && w.credential.bytes == (if ib.cipher == Short2022 then 16 else 32)
        case Hysteria => true
        case Another => false)
  }

  predicate Compatible(ib: Inbound, target: seq<Wanted>) {
    forall i :: 0 <= i < |target| ==> Fits(ib, target[i])
  }

  // ------------------------------------------------------------------ clients

  function Clients(ib: Inbound): seq<Client> {
    if ib.clients.Some? then ib.clients.value else []
  }

  function Identity(protocol: Protocol, c: Client): Text {
    if protocol == Shadowsocks then c.email else c.secret
  }

  /** The texts by which the panel could reach a client of somebody else's. */
  function Foreign(protocol: Protocol, clients: seq<Client>): set<Text> {
    (set i | 0 <= i < |clients| && !clients[i].email.ak :: Identity(protocol, clients[i]))
    + (set i | 0 <= i < |clients| && !clients[i].email.ak && clients[i].secret != NO_TEXT :: clients[i].secret)
  }

  /** The owned clients by email; of two with one email, the last. */
  function Owned(clients: seq<Client>): (owned: map<Text, Client>)
    ensures forall e :: e in owned ==> e.ak && owned[e].email == e && owned[e] in clients
    ensures forall c :: c in clients && c.email.ak ==> c.email in owned
  {
    if clients == [] then map[]
    else
      var c := clients[|clients| - 1];
      var before := Owned(clients[..|clients| - 1]);
      if c.email.ak then before[c.email := c] else before
  }

  predicate Conflict(ib: Inbound, target: seq<Wanted>) {
    var foreign := Foreign(ib.protocol, Clients(ib));
    var owned := Owned(Clients(ib));
    || (exists e :: e in owned && Identity(ib.protocol, owned[e]) in foreign)
    || (exists i :: 0 <= i < |target| && target[i].credential in foreign)
  }

  function Refuses(ib: Inbound, target: seq<Wanted>): Option<Refusal> {
    if !ib.readable || (ib.clients.None? && target != []) then Some(InboundInvalid)
    else if !Compatible(ib, target) then Some(InboundChanged)
    else if Conflict(ib, target) then Some(ClientConflict)
    else None
  }

  // ---------------------------------------------------------------- the writes

  function CommentOf(c: Client): Text {
    if c.comment.Some? then c.comment.value else NO_TEXT
  }

  /** Enabled as wanted, but not once the traffic has reached the limit. */
  function Enabled(ib: Inbound, w: Wanted): bool {
    w.enable && (w.total == 0 || (if w.email in ib.used then ib.used[w.email] else 0) < w.total)
  }

  /** A client with the wanted fields, its others kept. */
  function Changed(ib: Inbound, w: Wanted, c: Client): Client {
    c.(secret := w.credential, enable := Some(Enabled(ib, w)), total := Some(w.total), expiry := Some(0),
       flow := if ib.protocol == Vless then Some(w.flow) else c.flow,
       comment := if CommentOf(c) != w.comment then Some(w.comment) else c.comment)
  }

  function Created(ib: Inbound, w: Wanted): Client {
    Client(w.email, w.credential, Some(Enabled(ib, w)), Some(w.total), Some(0),
           if ib.protocol == Vless then Some(w.flow) else None, Some(w.comment), 0)
  }

  function Disabled(c: Client): Client {
    c.(enable := Some(false))
  }

  /** The write for one wanted client, if it needs one. */
  function WriteOf(ib: Inbound, owned: map<Text, Client>, w: Wanted): seq<Action> {
    if w.email !in owned then [Add(Created(ib, w))]
    else if Changed(ib, w, owned[w.email]) != owned[w.email]
    then [Update(Identity(ib.protocol, owned[w.email]), Changed(ib, w, owned[w.email]))]
    else []
  }

  function WritesOf(ib: Inbound, owned: map<Text, Client>, target: seq<Wanted>): seq<Action> {
    if target == [] then []
    else WritesOf(ib, owned, target[..|target| - 1]) + WriteOf(ib, owned, target[|target| - 1])
  }

  /** The removals of unwanted clients in turn; the last client of all is disabled. */
  function Removals(ib: Inbound, owned: map<Text, Client>, gone: seq<Text>): seq<Action>
    requires forall i :: 0 <= i < |gone| ==> gone[i] in owned
  {
    if gone == [] then []
    else
      var n := |gone| - 1;
      var c := owned[gone[n]];
      Removals(ib, owned, gone[..n])
      + (if |Clients(ib)| - n > 1 then [Delete(Identity(ib.protocol, c))]
         else if c.enable != Some(false) then [Update(Identity(ib.protocol, c), Disabled(c))]
         else [])
  }

  /** The unwanted clients, each once. */
  ghost predicate Unwanted(owned: map<Text, Client>, target: seq<Wanted>, gone: seq<Text>) {
    && (forall e :: e in gone <==> e in owned && !Names(target, e))
    && (forall i, j :: 0 <= i < j < |gone| ==> gone[i] != gone[j])
  }

  /** The writes planned: removals first, then one write for each wanted client. */
  ghost predicate IsPlan(ib: Inbound, target: seq<Wanted>, planned: Planned) {
    match Refuses(ib, target)
    case Some(why) => planned == Refused(why)
    case None =>
      var owned := Owned(Clients(ib));
      && planned.Actions?
      && exists gone ::
           Unwanted(owned, target, gone) && planned.actions == Removals(ib, owned, gone) + WritesOf(ib, owned, target)
  }

  // ---------------------------------------------------------- implementation

  method Split(protocol: Protocol, clients: seq<Client>) returns (owned: map<Text, Client>, foreign: set<Text>)
    ensures owned == Owned(clients) && foreign == Foreign(protocol, clients)
  {
    owned, foreign := map[], {};
    for i := 0 to |clients|
      invariant owned == Owned(clients[..i])
      invariant foreign == Foreign(protocol, clients[..i])
    {
      SplitMore(protocol, clients, i);
      hide Owned, Foreign;
      if clients[i].email.ak {
        owned := owned[clients[i].email := clients[i]];
      } else {
        foreign := foreign + {Identity(protocol, clients[i])};
        if clients[i].secret != NO_TEXT {
          foreign := foreign + {clients[i].secret};
        }
      }
    }
    assert clients[..|clients|] == clients;
  }

  lemma SplitMore(protocol: Protocol, clients: seq<Client>, i: nat)
    requires i < |clients|
    ensures Owned(clients[..i + 1]) ==
            if clients[i].email.ak then Owned(clients[..i])[clients[i].email := clients[i]] else Owned(clients[..i])
    ensures Foreign(protocol, clients[..i + 1]) == Foreign(protocol, clients[..i]) +
            if clients[i].email.ak then {}
            else {Identity(protocol, clients[i])} + if clients[i].secret != NO_TEXT then {clients[i].secret} else {}
  {
    assert clients[..i + 1][..i] == clients[..i];
    assert clients[..i + 1] == clients[..i] + [clients[i]];
    hide Foreign;
    ForeignMore(protocol, clients[..i], clients[i]);
  }

  lemma ForeignMore(protocol: Protocol, clients: seq<Client>, c: Client)
    ensures Foreign(protocol, clients + [c]) == Foreign(protocol, clients) +
            if c.email.ak then {} else {Identity(protocol, c)} + if c.secret != NO_TEXT then {c.secret} else {}
  {
    var all := clients + [c];
    assert all[|clients|] == c;
    forall t
      ensures t in Foreign(protocol, clients) ==> t in Foreign(protocol, all)
    {
      if t in Foreign(protocol, clients) {
        var i :| 0 <= i < |clients| && !clients[i].email.ak
          && (Identity(protocol, clients[i]) == t || (clients[i].secret != NO_TEXT && clients[i].secret == t));
        assert all[i] == clients[i];
      }
    }
  }

  method Clashes(ib: Inbound, target: seq<Wanted>, owned: map<Text, Client>, foreign: set<Text>) returns (clash: bool)
    requires owned == Owned(Clients(ib)) && foreign == Foreign(ib.protocol, Clients(ib))
    ensures clash == Conflict(ib, target)
  {
    var left := owned.Keys;
    while left != {}
      invariant left <= owned.Keys
      invariant forall e :: e in owned && e !in left ==> Identity(ib.protocol, owned[e]) !in foreign
      decreases left
    {
      var e :| e in left;
      if Identity(ib.protocol, owned[e]) in foreign {
        return true;
      }
      left := left - {e};
    }
    for i := 0 to |target|
      invariant forall k :: 0 <= k < i ==> target[k].credential !in foreign
    {
      if target[i].credential in foreign {
        return true;
      }
    }
    return false;
  }

  method ListUnwanted(owned: map<Text, Client>, target: seq<Wanted>) returns (gone: seq<Text>)
    ensures Unwanted(owned, target, gone)
  {
    gone := [];
    var left := owned.Keys;
    while left != {}
      invariant left <= owned.Keys
      invariant forall e :: e in gone <==> e in owned && e !in left && !Names(target, e)
      invariant forall i, j :: 0 <= i < j < |gone| ==> gone[i] != gone[j]
      decreases left
    {
      var e :| e in left;
      if !Names(target, e) {
        gone := gone + [e];
      }
      left := left - {e};
    }
  }

  method Remove(ib: Inbound, owned: map<Text, Client>, gone: seq<Text>) returns (actions: seq<Action>)
    requires |gone| <= |Clients(ib)|
    requires forall i :: 0 <= i < |gone| ==> gone[i] in owned
    ensures actions == Removals(ib, owned, gone)
  {
    actions := [];
    var remaining := |Clients(ib)|;
    for i := 0 to |gone|
      invariant actions == Removals(ib, owned, gone[..i])
      invariant if remaining > 1 then remaining == |Clients(ib)| - i else |Clients(ib)| - i <= 1
    {
      assert gone[..i + 1][..i] == gone[..i];
      var c := owned[gone[i]];
      if remaining > 1 {
        actions := actions + [Delete(Identity(ib.protocol, c))];
        remaining := remaining - 1;
      } else if c.enable != Some(false) {
        actions := actions + [Update(Identity(ib.protocol, c), c.(enable := Some(false)))];
      }
    }
    assert gone[..|gone|] == gone;
  }

  /** Plans what to write to the inbound, or refuses. */
  method Plan(ib: Inbound, target: seq<Wanted>) returns (planned: Planned)
    ensures IsPlan(ib, target, planned)
  {
    if !ib.readable || (ib.clients.None? && target != []) {
      return Refused(InboundInvalid);
    }
    if !Compatible(ib, target) {
      return Refused(InboundChanged);
    }
    var owned, foreign := Split(ib.protocol, Clients(ib));
    var clash := Clashes(ib, target, owned, foreign);
    if clash {
      return Refused(ClientConflict);
    }
    var gone := ListUnwanted(owned, target);
    OwnedFewer(Clients(ib), gone);
    var removals := Remove(ib, owned, gone);
    var writes := [];
    for i := 0 to |target|
      invariant writes == WritesOf(ib, owned, target[..i])
    {
      assert target[..i + 1][..i] == target[..i];
      var w := target[i];
      if w.email !in owned {
        writes := writes + [Add(Created(ib, w))];
      } else {
        var updated := Changed(ib, w, owned[w.email]);
        if updated != owned[w.email] {
          writes := writes + [Update(Identity(ib.protocol, owned[w.email]), updated)];
        }
      }
    }
    assert target[..|target|] == target;
    return Actions(removals + writes);
  }

  /** There are no more owned emails than clients. */
  lemma OwnedFewer(clients: seq<Client>, gone: seq<Text>)
    requires forall e :: e in gone ==> e in Owned(clients)
    requires forall i, j :: 0 <= i < j < |gone| ==> gone[i] != gone[j]
    ensures |gone| <= |clients|
  {
    OwnedSize(clients);
    forall i | 0 <= i < |gone|
      ensures gone[i] in Owned(clients).Keys
    {
      assert gone[i] in gone;
    }
    DistinctIn(gone, Owned(clients).Keys);
  }

  lemma {:induction false} OwnedSize(clients: seq<Client>)
    ensures |Owned(clients).Keys| <= |clients|
  {
    if clients != [] {
      var n := |clients| - 1;
      OwnedSize(clients[..n]);
      assert Owned(clients).Keys <= Owned(clients[..n]).Keys + {clients[n].email};
      SubsetSize(Owned(clients).Keys, Owned(clients[..n]).Keys + {clients[n].email});
    }
  }
}
