/** The WebSocket hub (websocket/hub.go, websocket/client.go): the set of connected clients, its index by
    tenant, and the bounded send buffer of each client. The hub's lock makes each operation one step. */
module WebSocketHub {
  datatype Delivery = Delivery(id: string, title: string, body: string)

  const SEND_BUFFER := 64

  /** What one turn of a client's write pump did. */
  datatype Turn = Wrote(delivery: Delivery) | ConnectionLost | Closing | Waiting

  class Client {
    const tenant: string
    const externalUser: string
    // The channel `send`: its contents, and whether it has been closed.
    var send: seq<Delivery>
    var closed: bool
    // Everything ever put into the channel, everything taken out, and how often it was closed.
    ghost var accepted: seq<Delivery>
    ghost var taken: seq<Delivery>
    ghost var closes: nat

    ghost predicate Valid()
      reads this
    {
      && |send| <= SEND_BUFFER
      && accepted == taken + send
      && closes == (if closed then 1 else 0)
    }

    constructor (tenant: string, externalUser: string)
      ensures this.tenant == tenant && this.externalUser == externalUser
      ensures Valid() && !closed && accepted == []
    {
      this.tenant, this.externalUser := tenant, externalUser;
      send, closed, accepted, taken, closes := [], false, [], [], 0;
    }

    /** Sending on a closed channel panics even in a select with a default, hence the requires. */
    method SendDelivery(d: Delivery) returns (enqueued: bool)
      requires Valid() && !closed
      modifies this`send, this`accepted
      ensures Valid()
      ensures enqueued <==> |old(send)| < SEND_BUFFER
      ensures send == old(send) + (if enqueued then [d] else [])
      ensures accepted == old(accepted) + (if enqueued then [d] else [])
    {
      enqueued := |send| < SEND_BUFFER;
      if enqueued {
        send := send + [d];
        accepted := accepted + [d];
      }
    }

    /** One turn of `WritePump`. */
    method Pump(connected: bool) returns (turn: Turn)
      requires Valid()
      modifies this`send, this`taken
      ensures Valid()
      ensures old(send) == [] ==> send == [] && turn == (if closed then Closing else Waiting)
      ensures old(send) != [] ==> [old(send)[0]] + send == old(send)
      ensures old(send) != [] ==> turn == (if connected then Wrote(old(send)[0]) else ConnectionLost)
    {
      if send == [] {
        turn := if closed then Closing else Waiting;
      } else {
        turn := if connected then Wrote(send[0]) else ConnectionLost;
        taken := taken + [send[0]];
        send := send[1..];
      }
    }

    /** `WritePump` on a closed channel: what is still buffered is written in order before the close
        frame, so in the end everything the channel accepted has gone through it, in order. */
    method DrainClosed() returns (written: seq<Delivery>)
      requires Valid() && closed
      modifies this`send, this`taken
      ensures Valid() && written == old(send) && taken == accepted
    {
      written := [];
      var turn := Pump(true);
      while turn.Wrote?
        invariant Valid() && !turn.Waiting? && !turn.ConnectionLost?
        invariant written + (if turn.Wrote? then [turn.delivery] else []) + send == old(send)
        invariant turn.Closing? ==> send == []
        decreases |send| + (if turn.Wrote? then 1 else 0)
      {
        written := written + [turn.delivery];
        turn := Pump(true);
      }
    }

    method Close()
      requires Valid() && !closed
      modifies this`closed, this`closes
      ensures Valid() && closed
    {
      closed := true;
      closes := closes + 1;
    }
  }

  type Index = map<string, set<Client>>

  /** The index holds exactly the clients, each under its own tenant, and no empty entry. */
  ghost predicate Agrees(index: Index, clients: set<Client>) {
    && (forall c <- clients :: c.tenant in index && c in index[c.tenant])
    && (forall t <- index, c <- index[t] :: c in clients && c.tenant == t)
    && (forall t <- index :: index[t] != {})
  }

  function Under(index: Index, tenant: string): set<Client> { if tenant in index then index[tenant] else {} }

  function Joined(index: Index, c: Client): Index { index[c.tenant := Under(index, c.tenant) + {c}] }

  function Parted(index: Index, c: Client): Index {
    if Under(index, c.tenant) - {c} == {} then index - {c.tenant} else index[c.tenant := index[c.tenant] - {c}]
  }

  lemma JoinAgrees(index: Index, clients: set<Client>, c: Client)
    requires Agrees(index, clients)
    ensures Agrees(Joined(index, c), clients + {c})
  {
    var index' := Joined(index, c);
    assert forall t :: t in index' <==> t in index || t == c.tenant;
    assert forall t <- index' :: index'[t] == if t == c.tenant then Under(index, t) + {c} else index[t];
  }

  lemma PartAgrees(index: Index, clients: set<Client>, c: Client)
    requires Agrees(index, clients) && c in clients
    ensures c.tenant in index
    ensures Agrees(Parted(index, c), clients - {c})
  {
    var index' := Parted(index, c);
    assert forall t <- index' :: t in index && index'[t] == if t == c.tenant then index[t] - {c} else index[t];
  }

  ghost function TotalSize(index: Index): nat
    decreases |index|
  {
    if index == map[] then 0
    else
      var t :| t in index;
      |index[t]| + TotalSize(index - {t})
  }

  lemma WithoutEntry(index: Index, clients: set<Client>, t: string)
    requires Agrees(index, clients) && t in index
    ensures Agrees(index - {t}, clients - index[t])
    ensures |clients| == |clients - index[t]| + |index[t]|
    ensures index - {t} != index && |index - {t}| < |index|
  {
    var rest := index - {t};
    assert forall u <- rest :: rest[u] == index[u];
    assert index[t] <= clients;
    assert clients == (clients - index[t]) + index[t];
    assert rest.Keys == index.Keys - {t};
  }

  /** The entries' sizes sum to the number of connections, whatever the order of summation. */
  lemma {:induction false} SizesSumToConnections(index: Index, clients: set<Client>)
    requires Agrees(index, clients)
    ensures TotalSize(index) == |clients|
    decreases |index|
  {
    if index == map[] {
      assert clients == {};
    } else {
      var t :| t in index && TotalSize(index) == |index[t]| + TotalSize(index - {t});
      hide Agrees;
      WithoutEntry(index, clients, t);
      SizesSumToConnections(index - {t}, clients - index[t]);
    }
  }

  /** The entry of a tenant is the set of that tenant's clients, so looking it up reaches all of them. */
  lemma EntryIsTenantsClients(index: Index, clients: set<Client>, tenant: string)
    requires Agrees(index, clients)
    ensures Under(index, tenant) == set c <- clients | c.tenant == tenant
  {
  }

  /** A client that joins and leaves again leaves no trace in the index. */
  lemma JoinThenPartIsIdentity(index: Index, clients: set<Client>, c: Client)
    requires Agrees(index, clients) && c !in clients
    ensures Parted(Joined(index, c), c) == index
  {
    assert Under(index, c.tenant) + {c} - {c} == Under(index, c.tenant);
  }

  datatype Event =
    | Register(client: Client)
    | Unregister(client: Client)
    | ToTenant(tenant: string, delivery: Delivery)
    | ToUser(tenant: string, externalUser: string, delivery: Delivery)
    | PumpTurn(client: Client, connected: bool)
  {
    function Mentioned(): set<Client> { if ToTenant? || ToUser? then {} else {client} }
  }

  function AllMentioned(events: seq<Event>): set<Client> { set i | 0 <= i < |events|, c <- events[i].Mentioned() :: c }

  function MembersAfter(clients: set<Client>, e: Event): set<Client> {
    if e.Register? then clients + {e.client} else if e.Unregister? then clients - {e.client} else clients
  }

  function Members(clients: set<Client>, events: seq<Event>): set<Client>
    decreases |events|
  {
    if events == [] then clients else Members(MembersAfter(clients, events[0]), events[1..])
  }

  /** `ServeWS` registers a new client once, before the read pump that will unregister it is started. */
  ghost predicate RegistersFirst(events: seq<Event>) {
    forall i, j :: 0 <= i < j < |events| && events[j].Register? ==> events[i] != Unregister(events[j].client)
  }

  lemma AtTurn(events: seq<Event>, i: nat)
    requires i < |events|
    ensures events[i].Mentioned() <= AllMentioned(events)
    ensures RegistersFirst(events) && events[i].Register? ==> Unregister(events[i].client) !in events[..i]
    ensures events[..i + 1] == events[..i] + [events[i]] && events[i..] == [events[i]] + events[i + 1..]
  {
  }

  /** Who is connected after any interleaving: exactly those who joined and have not left. */
  lemma {:induction false} ConnectedIff(clients: set<Client>, events: seq<Event>, c: Client)
    requires RegistersFirst(events)
    ensures c in Members(clients, events) <==> (c in clients || Register(c) in events) && Unregister(c) !in events
    decreases |events|
  {
    if events != [] {
      var e, rest := events[0], events[1..];
      assert events == [e] + rest;
      ConnectedIff(MembersAfter(clients, e), rest, c);
      assert e == Unregister(c) ==> forall j :: 0 < j < |events| && events[j].Register? ==> events[j] != Register(c);
    }
  }

  // One client's part in the events.

  /** A client as the hub sees it: whether it is connected, its buffer, and all that ever went into it. */
  datatype View = View(connected: bool, send: seq<Delivery>, accepted: seq<Delivery>)

  /** Broadcasts to the client's tenant, and to its user within the tenant, are for the client. */
  predicate IsFor(c: Client, e: Event) {
    (e.ToTenant? && e.tenant == c.tenant) || (e.ToUser? && e.tenant == c.tenant && e.externalUser == c.externalUser)
  }

  function ViewAfter(c: Client, v: View, e: Event): View {
    if e == Register(c) then v.(connected := true)
    else if e == Unregister(c) then v.(connected := false)
    else if e.PumpTurn? && e.client == c && v.send != [] then v.(send := v.send[1..])
    else if v.connected && IsFor(c, e) && |v.send| < 64 then v.(send := v.send + [e.delivery], accepted := v.accepted + [e.delivery])
    else v
  }

  /** A pump turn takes the oldest delivery of the client's own buffer. */
  lemma PumpedView(e: Event)
    requires e.PumpTurn?
    ensures forall c: Client, v: View :: c != e.client || v.send == [] ==> ViewAfter(c, v, e) == v
    ensures forall c: Client, v: View :: c == e.client && v.send != [] ==> ViewAfter(c, v, e) == v.(send := v.send[1..])
  {
  }

  function Viewed(c: Client, v: View, events: seq<Event>): View
    decreases |events|
  {
    if events == [] then v else Viewed(c, ViewAfter(c, v, events[0]), events[1..])
  }

  lemma ViewedFirst(events: seq<Event>, i: nat)
    requires i < |events|
    ensures forall c, v :: Viewed(c, v, events[i..]) == Viewed(c, ViewAfter(c, v, events[i]), events[i + 1..])
    ensures forall clients :: Members(clients, events[i..]) == Members(MembersAfter(clients, events[i]), events[i + 1..])
  {
    hide ViewAfter;
    assert events[i..][1..] == events[i + 1..];
  }

  /** The deliveries broadcast to a client, in order. */
  function Addressed(c: Client, events: seq<Event>): seq<Delivery> {
    if events == [] then [] else (if IsFor(c, events[0]) then [events[0].delivery] else []) + Addressed(c, events[1..])
  }

  /** A connected client whose buffer has room for them gets exactly the deliveries broadcast to it, in order. */
  lemma {:induction false} ConnectedGetsAll(c: Client, v: View, events: seq<Event>)
    requires v.connected && Unregister(c) !in events && |v.send| + |Addressed(c, events)| <= 64
    ensures Viewed(c, v, events).accepted == v.accepted + Addressed(c, events)
    decreases |events|
  {
    if events != [] {
      assert events == [events[0]] + events[1..];
      ConnectedGetsAll(c, ViewAfter(c, v, events[0]), events[1..]);
    }
  }

  /** Deliveries `got` are some of those broadcast to the client, in their order. */
  ghost predicate IsSelection(got: seq<Delivery>, from: seq<Delivery>)
    decreases |from|
  {
    if from == [] then got == []
    else IsSelection(got, from[1..]) || (got != [] && got[0] == from[0] && IsSelection(got[1..], from[1..]))
  }

  lemma {:induction false} NothingIsSelected(from: seq<Delivery>)
    ensures IsSelection([], from)
  {
    if from != [] {
      NothingIsSelected(from[1..]);
    }
  }

  /** No client ever gets a delivery for another tenant or user, or one delivery twice for one broadcast, and
      one that is not connected gets none. */
  lemma {:induction false} NobodyGetsOthers(c: Client, v: View, events: seq<Event>) returns (got: seq<Delivery>)
    ensures Viewed(c, v, events).accepted == v.accepted + got && IsSelection(got, Addressed(c, events))
    ensures !v.connected && Register(c) !in events ==> got == []
    decreases |events|
  {
    if events == [] {
      got := [];
    } else {
      var e, v' := events[0], ViewAfter(c, v, events[0]);
      assert events == [e] + events[1..];
      var rest := NobodyGetsOthers(c, v', events[1..]);
      got := v'.accepted[|v.accepted|..] + rest;
      assert IsFor(c, e) ==> Addressed(c, events)[1..] == Addressed(c, events[1..]);
      assert !IsFor(c, e) ==> Addressed(c, events) == Addressed(c, events[1..]) && got == rest;
      assert got != rest ==> got[1..] == rest;
    }
  }

  /** What a broadcast does to a client with that buffer and history: the delivery goes to the end of the
      buffer, if there is room. */
  ghost predicate Took(c: Client, send: seq<Delivery>, accepted: seq<Delivery>, d: Delivery)
    reads c
  {
    var got := if |send| < SEND_BUFFER then [d] else [];
    c.send == send + got && c.accepted == accepted + got
  }

  class Hub {
    var clients: set<Client>
    var byTenant: Index
    var sent: nat
    var disconnects: nat
    // The clients that have left, and how many broadcast deliveries were buffered or dropped.
    ghost var gone: set<Client>
    ghost var enqueued: nat
    ghost var dropped: nat

    ghost predicate Valid()
      reads this, clients, gone
    {
      && Agrees(byTenant, clients)
      && clients !! gone
      && (forall c <- clients :: c.Valid() && !c.closed)
      && (forall c <- gone :: c.Valid() && c.closed)
      && disconnects == |gone|
      && sent == enqueued + dropped
    }

    constructor ()
      ensures Valid() && clients == {} && gone == {}
    {
      clients, byTenant, sent, disconnects := {}, map[], 0, 0;
      gone, enqueued, dropped := {}, 0, 0;
    }

    method AddToIndex(c: Client)
      modifies this`byTenant
      ensures byTenant == Joined(old(byTenant), c)
    {
      if c.tenant !in byTenant {
        byTenant := byTenant[c.tenant := {}];
      }
      byTenant := byTenant[c.tenant := byTenant[c.tenant] + {c}];
    }

    /** The `register` case of `Run`. */
    method Join(c: Client)
      requires Valid() && c.Valid() && !c.closed
      modifies this`clients, this`byTenant
      ensures Valid() && clients == old(clients) + {c}
    {
      hide Agrees, Joined, Client.Valid;
      JoinAgrees(byTenant, clients, c);
      clients := clients + {c};
      AddToIndex(c);
    }

    method RemoveFromIndex(c: Client)
      modifies this`byTenant
      ensures byTenant == if c.tenant in old(byTenant) then Parted(old(byTenant), c) else old(byTenant)
    {
      if c.tenant in byTenant {
        var entry := byTenant[c.tenant] - {c};
        byTenant := if entry == {} then byTenant - {c.tenant} else byTenant[c.tenant := entry];
      }
    }

    /** The `Unregister` case of `Run`: a client that is not connected is ignored, so a second unregister
        never closes its channel again. */
    method Leave(c: Client)
      requires Valid() && c.Valid()
      modifies this`clients, this`byTenant, this`gone, this`disconnects, c`closed, c`closes
      ensures Valid() && c.Valid() && clients == old(clients) - {c}
      ensures c !in old(clients) ==> unchanged(this) && unchanged(c)
      ensures c in old(clients) ==> c.closed && gone == old(gone) + {c} && disconnects == old(disconnects) + 1
    {
      hide Agrees, Parted, Client.Valid;
      if c in clients {
        PartAgrees(byTenant, clients, c);
        clients := clients - {c};
        RemoveFromIndex(c);
        c.Close();
        gone := gone + {c};
        disconnects := disconnects + 1;
      }
    }

    method Offer(c: Client, d: Delivery)
      requires c.Valid() && !c.closed && sent == enqueued + dropped
      modifies this`sent, this`enqueued, this`dropped, c`send, c`accepted
      ensures c.Valid() && Took(c, old(c.send), old(c.accepted), d)
      ensures sent == old(sent) + 1 && sent == enqueued + dropped
      ensures dropped == old(dropped) + (if |old(c.send)| == SEND_BUFFER then 1 else 0)
    {
      var ok := c.SendDelivery(d);
      sent := sent + 1;
      enqueued, dropped := enqueued + (if ok then 1 else 0), dropped + (if ok then 0 else 1);
    }

    /** The loop of both broadcasts. */
    method OfferAll(targets: set<Client>, d: Delivery)
      requires (forall c <- targets :: c.Valid() && !c.closed) && sent == enqueued + dropped
      modifies this`sent, this`enqueued, this`dropped, targets`send, targets`accepted
      ensures (forall c <- targets :: c.Valid()) && sent == enqueued + dropped
      ensures forall c <- targets :: Took(c, old(c.send), old(c.accepted), d)
      ensures sent == old(sent) + |targets|
      ensures dropped == old(dropped) + |set c <- targets | |old(c.send)| == SEND_BUFFER|
    {
      hide Took, Client.Valid;
      var rest := targets;
      ghost var full := set c <- targets | |c.send| == SEND_BUFFER;
      assert full * rest == full;
      while rest != {}
        invariant rest <= targets
        invariant forall c <- targets :: c.Valid()
        invariant forall c <- targets | c !in rest :: Took(c, old(c.send), old(c.accepted), d)
        invariant forall c <- rest :: unchanged(c)
        invariant sent == old(sent) + |targets| - |rest| && sent == enqueued + dropped
        invariant dropped == old(dropped) + |full| - |full * rest|
      {
        var c :| c in rest;
        Offer(c, d);
        assert full * (rest - {c}) == full * rest - {c};
        rest := rest - {c};
      }
      assert full * rest == {};
    }

    method BroadcastToTenant(tenant: string, d: Delivery)
      requires Valid()
      modifies this`sent, this`enqueued, this`dropped,
               (set c <- clients | c.tenant == tenant)`send, (set c <- clients | c.tenant == tenant)`accepted
      ensures Valid()
      ensures forall c <- clients | c.tenant == tenant :: Took(c, old(c.send), old(c.accepted), d)
      ensures sent == old(sent) + |set c <- clients | c.tenant == tenant|
      ensures dropped == old(dropped) + |set c <- clients | c.tenant == tenant && |old(c.send)| == SEND_BUFFER|
    {
      hide Took, Client.Valid;
      EntryIsTenantsClients(byTenant, clients, tenant);
      ghost var targets := Under(byTenant, tenant);
      if tenant in byTenant {
        OfferAll(byTenant[tenant], d);
      }
      assert forall c <- clients | c.tenant == tenant :: c in targets;
      assert (set c <- clients | c.tenant == tenant && |old(c.send)| == SEND_BUFFER) == set c <- targets | |old(c.send)| == SEND_BUFFER;
    }

    method BroadcastToUser(tenant: string, externalUser: string, d: Delivery)
      requires Valid()
      modifies this`sent, this`enqueued, this`dropped,
               (set c <- clients | c.tenant == tenant && c.externalUser == externalUser)`send,
               (set c <- clients | c.tenant == tenant && c.externalUser == externalUser)`accepted
      ensures Valid()
      ensures forall c <- clients | c.tenant == tenant && c.externalUser == externalUser :: Took(c, old(c.send), old(c.accepted), d)
      ensures sent == old(sent) + |set c <- clients | c.tenant == tenant && c.externalUser == externalUser|
      ensures dropped == old(dropped) +
                |set c <- clients | c.tenant == tenant && c.externalUser == externalUser && |old(c.send)| == SEND_BUFFER|
    {
      hide Took, Client.Valid;
      EntryIsTenantsClients(byTenant, clients, tenant);
      ghost var all := set c <- clients | c.tenant == tenant && c.externalUser == externalUser;
      ghost var full := set c <- clients | c.tenant == tenant && c.externalUser == externalUser && |c.send| == SEND_BUFFER;
      if tenant in byTenant {
        var targets := set c <- byTenant[tenant] | c.externalUser == externalUser;
        assert targets == all;
        OfferAll(targets, d);
        assert full == set c <- targets | |old(c.send)| == SEND_BUFFER;
        assert forall c <- clients | c.tenant == tenant && c.externalUser == externalUser :: c in targets;
      } else {
        assert all == {} && full == {};
      }
      assert full == set c <- clients | c.tenant == tenant && c.externalUser == externalUser && |old(c.send)| == SEND_BUFFER;
    }

    method ActiveConnections() returns (n: nat)
      requires Valid()
      ensures n == |clients| == TotalSize(byTenant)
    {
      SizesSumToConnections(byTenant, clients);
      n := |clients|;
    }

    method ActiveByTenant(tenant: string) returns (n: nat)
      requires Valid()
      ensures n == |set c <- clients | c.tenant == tenant|
    {
      EntryIsTenantsClients(byTenant, clients, tenant);
      n := if tenant in byTenant then |byTenant[tenant]| else 0;
    }

    /** A broadcast or a pump turn: the membership and every channel's open state stay as they are. */
    method Traffic(e: Event)
      requires Valid() && !e.Register? && !e.Unregister? && forall c <- e.Mentioned() :: c.Valid()
      modifies this`sent, this`enqueued, this`dropped, clients`send, clients`accepted, e.Mentioned()`send, e.Mentioned()`taken
      ensures Valid() && forall c <- clients + e.Mentioned() :: c.Valid()
      ensures forall c <- clients + e.Mentioned() ::
                View(c in clients, c.send, c.accepted) == ViewAfter(c, old(View(c in clients, c.send, c.accepted)), e)
    {
      hide Client.Valid, Agrees, ViewAfter;
      match e
      case ToTenant(t, d) => TellTenant(t, d);
      case ToUser(t, u, d) => TellUser(t, u, d);
      case PumpTurn(c, connected) =>
        var _ := c.Pump(connected);
        PumpedView(e);
    }

    method TellTenant(tenant: string, d: Delivery)
      requires Valid()
      modifies this`sent, this`enqueued, this`dropped, clients`send, clients`accepted
      ensures Valid()
      ensures forall c <- clients ::
                View(true, c.send, c.accepted) == ViewAfter(c, old(View(true, c.send, c.accepted)), ToTenant(tenant, d))
    {
      hide Client.Valid, Valid;
      BroadcastToTenant(tenant, d);
    }

    method TellUser(tenant: string, externalUser: string, d: Delivery)
      requires Valid()
      modifies this`sent, this`enqueued, this`dropped, clients`send, clients`accepted
      ensures Valid()
      ensures forall c <- clients ::
                View(true, c.send, c.accepted) == ViewAfter(c, old(View(true, c.send, c.accepted)), ToUser(tenant, externalUser, d))
    {
      hide Client.Valid, Valid;
      BroadcastToUser(tenant, externalUser, d);
    }

    /** Known clients are sound, and closed only by having left. */
    ghost predicate Tracked(known: set<Client>)
      reads this, known
    {
      forall c <- known :: c.Valid() && (c.closed ==> c in gone)
    }

    /** One event, whatever the goroutine it comes from. */
    method Serve(e: Event, ghost known: set<Client>)
      requires Valid() && Tracked(known) && e.Mentioned() <= known
      requires e.Register? ==> e.client !in gone
      modifies this, clients, e.Mentioned()
      ensures Valid() && Tracked(known)
      ensures clients == MembersAfter(old(clients), e)
      ensures gone == old(gone) + if e.Unregister? then old(clients) * {e.client} else {}
      ensures forall c <- old(clients) + known ::
                View(c in clients, c.send, c.accepted) == ViewAfter(c, old(View(c in clients, c.send, c.accepted)), e)
    {
      hide Valid, Client.Valid;
      match e
      case Register(c) => Join(c);
      case Unregister(c) => Leave(c);
      case _ => Traffic(e);
    }

    /** Any interleaving of joins, leaves, broadcasts and pump turns: the hub stays valid throughout,
        `Members` are connected, and whoever was ever connected and no longer is has a channel closed
        exactly once. No step sends on or closes a closed channel: `SendDelivery` and `Close` require it. */
    method Run(events: seq<Event>)
      requires Valid() && RegistersFirst(events) && Tracked(AllMentioned(events))
      requires forall c <- gone :: Register(c) !in events
      modifies this, clients, AllMentioned(events)
      ensures Valid()
      ensures clients == Members(old(clients), events)
      ensures forall c :: c in old(clients) || Register(c) in events ==> c in clients || (c in gone && c.closes == 1)
      ensures forall c <- old(clients) + AllMentioned(events) ::
                View(c in clients, c.send, c.accepted) == Viewed(c, old(View(c in clients, c.send, c.accepted)), events)
    {
      hide Valid, Tracked, Agrees, Took, ViewAfter, Client.Valid;
      var i := 0;
      while i < |events|
        invariant 0 <= i <= |events|
        invariant Valid() && Tracked(AllMentioned(events)) && clients <= old(clients) + AllMentioned(events)
        invariant old(clients) <= clients + AllMentioned(events)
        invariant Members(clients, events[i..]) == Members(old(clients), events)
        invariant forall c <- gone :: c in old(gone) || Unregister(c) in events[..i]
        invariant forall c :: c in old(clients) || Register(c) in events[..i] ==> c in clients || c in gone
        invariant forall c <- old(clients) + AllMentioned(events) ::
                    Viewed(c, View(c in clients, c.send, c.accepted), events[i..]) ==
                    Viewed(c, old(View(c in clients, c.send, c.accepted)), events)
      {
        AtTurn(events, i);
        ViewedFirst(events, i);
        Serve(events[i], AllMentioned(events));
        i := i + 1;
      }
      assert events[..i] == events;
      GoneClosedOnce();
    }

    lemma GoneClosedOnce()
      requires Valid()
      ensures forall c <- gone :: c.closed && c.closes == 1
    {
    }
  }
}
