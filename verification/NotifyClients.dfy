/** Connections coming, asking and going keep the edit notifier's state safe. */
module NotifyClients {
  import opened Wrappers
  import opened Sets
  import opened EditLog
  import opened RecordMessages
  import opened NotifyProtocol
  import opened NotifySafety

  /** All that is safe apart from the clients. */
  ghost predicate RestOk<C>(cfg: Config, s: State<C>) {
    && LogOk(s) && FlagsOk(s) && TaskOk(cfg, s) && CallsOk(s) && AreasOk(cfg, s.clients) && AddressesOk(cfg, s)
  }

  // ----- One client changes -----

  lemma SameAddresses<C>(cfg: Config, s: State<C>, c: C, client: Client)
    requires AddressesOk(cfg, s) && c in s.clients && client.address == s.clients[c].address
    ensures AddressesOk(cfg, Set(s, c, client))
  {
    var t := Set(s, c, client);
    forall a
      ensures From(t.clients, a) == From(s.clients, a)
    {
    }
    assert t.clients.Keys == s.clients.Keys;
    assert |t.clients| == |t.clients.Keys| && |s.clients| == |s.clients.Keys|;
  }

  ghost function AreasOf(client: Client): set<Area> {
    (if client.edits.Some? && client.edits.value.place.Some? then {client.edits.value.place.value} else {}) +
    (if client.records.Some? && client.records.value.key.0.Some? then {client.records.value.key.0.value} else {})
  }

  lemma AreasAre<C>(clients: map<C, Client>, a: Area)
    ensures a in Areas(clients) <==> exists c :: c in clients && a in AreasOf(clients[c])
  {
    if a in Areas(clients) {
      if a in set p | p in EditPlaces(clients) && p.Some? :: p.value {
        assert Some(a) in EditPlaces(clients);
        var c :| c in clients && clients[c].edits.Some? && clients[c].edits.value.place == Some(a);
        assert a in AreasOf(clients[c]);
      } else {
        var k :| k in RecordKeys(clients) && k.0 == Some(a);
        var c :| c in clients && clients[c].records.Some? && clients[c].records.value.key == k;
        assert a in AreasOf(clients[c]);
      }
    }
    if c :| c in clients && a in AreasOf(clients[c]) {
      if clients[c].edits.Some? && clients[c].edits.value.place == Some(a) {
        assert clients[c].edits.value.place in EditPlaces(clients);
      } else {
        assert clients[c].records.value.key in RecordKeys(clients);
      }
    }
  }

  ghost function AreaOf(place: Place): set<Area> {
    if place.Some? then {place.value} else {}
  }

  lemma AreasWithin<C>(clients: map<C, Client>, c: C, client: Client, more: set<Area>)
    requires AreasOf(client) <= (if c in clients then AreasOf(clients[c]) else {}) + more
    ensures Areas(clients[c := client]) <= Areas(clients) + more
  {
    hide Areas, AreasOf;
    var now := clients[c := client];
    forall a | a in Areas(now)
      ensures a in Areas(clients) + more
    {
      AreasAre(now, a);
      AreasAre(clients, a);
      var d :| d in now && a in AreasOf(now[d]);
      if d == c && a !in more {
        assert c in clients && a in AreasOf(clients[c]);
      }
    }
  }

  /** A client that follows no more areas, or one more that is allowed. */
  lemma AreasWith<C>(cfg: Config, clients: map<C, Client>, c: C, client: Client, place: Place)
    requires AreasOk(cfg, clients) && AreaAllowed(cfg, clients, place)
    requires AreasOf(client) <= (if c in clients then AreasOf(clients[c]) else {}) + AreaOf(place)
    ensures AreasOk(cfg, clients[c := client])
  {
    hide Areas, AreasOf;
    AreasWithin(clients, c, client, AreaOf(place));
    var most := Areas(clients) + AreaOf(place);
    SubsetSize(Areas(clients[c := client]), most);
    if place.None? || place.value in Areas(clients) {
      assert most == Areas(clients);
    } else {
      assert |most| == |Areas(clients)| + 1;
    }
  }

  lemma AreasWithout<C>(cfg: Config, clients: map<C, Client>, c: C)
    requires AreasOk(cfg, clients)
    ensures AreasOk(cfg, clients - {c})
  {
    forall a | a in Areas(clients - {c})
      ensures a in Areas(clients)
    {
      AreasAre(clients - {c}, a);
      AreasAre(clients, a);
    }
    hide Areas;
    SubsetSize(Areas(clients - {c}), Areas(clients));
  }

  lemma SetKeepsRest<C>(cfg: Config, s: State<C>, c: C, client: Client, place: Place)
    requires RestOk(cfg, s) && c in s.clients && client.address == s.clients[c].address
    requires AreaAllowed(cfg, s.clients, place)
    requires AreasOf(client) <= AreasOf(s.clients[c]) + AreaOf(place)
    ensures RestOk(cfg, Set(s, c, client))
  {
    hide AreasOk, AreaAllowed, AddressesOk, AreasOf, IsBatch, Select, CheckOk, CallOk;
    SameAddresses(cfg, s, c, client);
    AreasWith(cfg, s.clients, c, client, place);
  }

  lemma SetKeepsSafe<C>(cfg: Config, s: State<C>, c: C, client: Client, place: Place)
    requires Safe(cfg, s) && c in s.clients && client.address == s.clients[c].address
    requires AreaAllowed(cfg, s.clients, place)
    requires AreasOf(client) <= AreasOf(s.clients[c]) + AreaOf(place)
    requires ClientOk(cfg, s.log, s.latest, |s.calls|, client)
    ensures Safe(cfg, Set(s, c, client))
  {
    hide LogOk, FlagsOk, TaskOk, CallsOk, AreasOk, AddressesOk, ClientOk, AreasOf, AreaAllowed;
    SetKeepsRest(cfg, s, c, client, place);
  }

  lemma ClosingKeepsSafe<C>(cfg: Config, s: State<C>, c: C)
    requires Safe(cfg, s) && c in s.clients
    ensures Safe(cfg, Set(s, c, s.clients[c].(closing := true)))
  {
    hide LogOk, FlagsOk, TaskOk, CallsOk, AreasOk, AddressesOk, Select, Content, InOrder;
    SetKeepsSafe(cfg, s, c, s.clients[c].(closing := true), None);
  }

  lemma HelloKeepsSafe<C>(cfg: Config, s: State<C>, c: C)
    requires Safe(cfg, s) && Ready(s, c)
    ensures Safe(cfg, Set(s, c, Hello(s.clients[c])))
  {
    hide LogOk, FlagsOk, TaskOk, CallsOk, AreasOk, AddressesOk, StreamOk, WatchOk;
    SetKeepsSafe(cfg, s, c, Hello(s.clients[c]), None);
  }

  lemma UnsubscribeKeepsSafe<C>(cfg: Config, s: State<C>, c: C, kind: Kind)
    requires Safe(cfg, s) && Ready(s, c)
    ensures Safe(cfg, Set(s, c, Unsubscribe(s.clients[c], kind)))
  {
    hide LogOk, FlagsOk, TaskOk, CallsOk, AreasOk, AddressesOk, StreamOk, WatchOk;
    SetKeepsSafe(cfg, s, c, Unsubscribe(s.clients[c], kind), None);
  }

  /** A subscription begins at the notifier's latest ID, with nothing sent yet. */
  lemma SubscribeIsOk(cfg: Config, log: seq<Record>, latest: int, calls: nat, client: Client, kind: Kind, key: Key)
    requires ClientOk(cfg, log, latest, calls, client) && client.work.Refreshing? && !client.closing
    ensures ClientOk(cfg, log, latest, calls, Subscribe(client, kind, key, latest))
  {
    hide StreamOk, WatchOk;
    NewStreamIsOk(cfg, log, latest, key);
    NewWatchIsOk(cfg, log, latest, key.0);
  }

  lemma NewStreamIsOk(cfg: Config, log: seq<Record>, latest: int, key: Key)
    ensures StreamOk(cfg, log, latest, false, Stream(key, latest, latest, []))
  {
    SelectEmptyRange(log, latest + 1, latest, cfg.concerns(key.0));
  }

  lemma NewWatchIsOk(cfg: Config, log: seq<Record>, latest: int, place: Place)
    ensures WatchOk(cfg, log, latest, false, Watch(place, latest, []))
  {
  }

  lemma RefreshedKeepsSafe<C>(cfg: Config, s: State<C>, c: C)
    requires Safe(cfg, s) && c in s.clients && s.clients[c].work.Refreshing?
    ensures Safe(cfg, Refreshed(cfg, s, c))
  {
    hide LogOk, FlagsOk, TaskOk, CallsOk, AreasOk, AddressesOk, StreamOk, WatchOk, AreaAllowed;
    var client := s.clients[c];
    if client.closing || !AreaAllowed(cfg, s.clients, client.work.key.0) {
      AlwaysAllowed(cfg, s.clients);
      SetKeepsSafe(cfg, s, c, client.(work := Free), None);
    } else {
      SubscribeIsOk(cfg, s.log, s.latest, |s.calls|, client, client.work.kind, client.work.key);
      SetKeepsSafe(cfg, s, c, Subscribe(client, client.work.kind, client.work.key, s.latest), client.work.key.0);
    }
  }

  lemma AlwaysAllowed<C>(cfg: Config, clients: map<C, Client>)
    ensures AreaAllowed(cfg, clients, None)
  {
  }

  // ----- Coming and going -----

  lemma FromWith<C>(clients: map<C, Client>, c: C, client: Client, a: string)
    requires c !in clients
    ensures From(clients[c := client], a) == From(clients, a) + (if a == client.address then {c} else {})
    ensures |From(clients[c := client], a)| == |From(clients, a)| + (if a == client.address then 1 else 0)
  {
  }

  lemma CountWith(perAddress: map<string, int>, b: string, a: string)
    ensures CountOf(perAddress[b := CountOf(perAddress, b) + 1], a) == CountOf(perAddress, a) + (if a == b then 1 else 0)
  {
  }

  lemma OneMoreClient<C>(clients: map<C, Client>, c: C, client: Client)
    requires c !in clients
    ensures |clients[c := client]| == |clients| + 1
  {
    assert clients[c := client].Keys == clients.Keys + {c};
    assert |clients[c := client]| == |clients[c := client].Keys| && |clients| == |clients.Keys|;
  }

  lemma ConnectKeepsAddresses<C>(cfg: Config, s: State<C>, c: C, client: Client)
    requires AddressesOk(cfg, s) && c !in s.clients
    requires |s.clients| < cfg.limits.maxConnections && CountOf(s.perAddress, client.address) < cfg.limits.maxPerAddress
    ensures AddressesOk(cfg, Admitted(s, c, client))
  {
    hide From, CountOf;
    var t := Admitted(s, c, client);
    forall a
      ensures |From(t.clients, a)| == |From(s.clients, a)| + (if a == client.address then 1 else 0)
      ensures CountOf(t.perAddress, a) == CountOf(s.perAddress, a) + (if a == client.address then 1 else 0)
    {
      FromWith(s.clients, c, client, a);
      CountWith(s.perAddress, client.address, a);
    }
    OneMoreClient(s.clients, c, client);
  }

  lemma NewClientOk(cfg: Config, log: seq<Record>, latest: int, calls: nat, address: string)
    ensures ClientOk(cfg, log, latest, calls, NewClient(address))
    ensures AreasOf(NewClient(address)) == {}
  {
  }

  lemma ConnectKeepsSafe<C>(cfg: Config, s: State<C>, c: C, address: string)
    requires Safe(cfg, s) && c !in s.clients
    ensures Safe(cfg, Connect(cfg, s, c, address))
  {
    hide LogOk, FlagsOk, CallOk, AreasOk, AddressesOk, ClientOk, CountOf, TaskOk, AreasOf, AreaAllowed, NewClient;
    if Connect(cfg, s, c, address) != s {
      NewClientOk(cfg, s.log, s.latest, |s.calls|, address);
      NewClientIs(address);
      ConnectKeepsAddresses(cfg, s, c, NewClient(address));
      AlwaysAllowed(cfg, s.clients);
      AreasWith(cfg, s.clients, c, NewClient(address), None);
      TheRestIsSame(cfg, s, Connect(cfg, s, c, address));
    }
  }

  lemma NewClientIs(address: string)
    ensures NewClient(address).address == address
  {
  }

  /** What does not depend on the clients stays safe when only they change. */
  lemma TheRestIsSame<C>(cfg: Config, s: State<C>, t: State<C>)
    requires t == s.(clients := t.clients, perAddress := t.perAddress)
    ensures (LogOk(s) ==> LogOk(t)) && (FlagsOk(s) ==> FlagsOk(t)) && (CallsOk(s) ==> CallsOk(t))
    ensures TaskOk(cfg, s) ==> TaskOk(cfg, t)
  {
    hide CallOk, CheckOk, IsBatch, Select;
  }

  lemma LoseKeepsAddresses<C>(cfg: Config, s: State<C>, c: C)
    requires AddressesOk(cfg, s) && c in s.clients
    ensures AddressesOk(cfg, Lose(s, c))
  {
    var t, address := Lose(s, c), s.clients[c].address;
    forall a
      ensures From(t.clients, a) == From(s.clients, a) - if a == address then {c} else {}
    {
    }
    assert c in From(s.clients, address);
    assert CountOf(s.perAddress, address) == |From(s.clients, address)|;
    assert |From(s.clients, address) - {c}| == |From(s.clients, address)| - 1;
    assert t.clients.Keys == s.clients.Keys - {c};
    assert |t.clients| == |t.clients.Keys| && |s.clients| == |s.clients.Keys|;
    assert forall a :: CountOf(t.perAddress, a) == CountOf(s.perAddress, a) - if a == address then 1 else 0;
  }

  lemma LoseKeepsSafe<C>(cfg: Config, s: State<C>, c: C)
    requires Safe(cfg, s) && c in s.clients
    ensures Safe(cfg, Lose(s, c))
  {
    hide LogOk, FlagsOk, CallOk, AreasOk, AddressesOk, ClientOk, CountOf, TaskOk;
    LoseKeepsAddresses(cfg, s, c);
    AreasWithout(cfg, s.clients, c);
    TheRestIsSame(cfg, s, Lose(s, c));
  }

  // ----- Asking for a check -----

  lemma ChangedKeepsRest<C>(cfg: Config, s: State<C>)
    requires RestOk(cfg, s)
    ensures RestOk(cfg, EditsChanged(s))
  {
    hide AreasOk, CheckOk, From, IsBatch, Select;
  }

  lemma LaterCall(cfg: Config, log: seq<Record>, latest: int, calls: nat, client: Client)
    requires ClientOk(cfg, log, latest, calls, client)
    ensures ClientOk(cfg, log, latest, calls + 1, client)
  {
  }

  lemma ChangedKeepsSafe<C>(cfg: Config, s: State<C>)
    requires Safe(cfg, s)
    ensures Safe(cfg, EditsChanged(s))
  {
    ChangedKeepsRest(cfg, s);
    hide AreasOk, AddressesOk, ClientOk, LogOk, FlagsOk, TaskOk, CallsOk;
    forall c | c in s.clients
      ensures ClientOk(cfg, s.log, s.latest, |s.calls| + 1, s.clients[c])
    {
      LaterCall(cfg, s.log, s.latest, |s.calls|, s.clients[c]);
    }
  }

  lemma RefreshKeepsSafe<C>(cfg: Config, s: State<C>, c: C, kind: Kind, key: Key)
    requires Safe(cfg, s) && c in s.clients && s.clients[c].greeted && !Subscribed(s.clients[c], kind)
    ensures Safe(cfg, Refresh(s, c, kind, key))
  {
    hide AreasOk, AddressesOk, LogOk, FlagsOk, TaskOk, CallsOk, StreamOk, WatchOk, AreaAllowed;
    var waiting := s.clients[c].(work := Refreshing(kind, key, |s.calls|));
    AlwaysAllowed(cfg, s.clients);
    SetKeepsRest(cfg, s, c, waiting, None);
    ChangedKeepsRest(cfg, Set(s, c, waiting));
    forall d | d in s.clients
      ensures ClientOk(cfg, s.log, s.latest, |s.calls| + 1, if d == c then waiting else s.clients[d])
    {
      LaterCall(cfg, s.log, s.latest, |s.calls|, s.clients[d]);
    }
  }

  lemma RequestKeepsSafe<C>(cfg: Config, s: State<C>, c: C, kind: Kind, key: Key)
    requires Safe(cfg, s) && Ready(s, c) && s.clients[c].greeted
    ensures Safe(cfg, RequestSubscribe(cfg, s, c, kind, key))
  {
    hide AreasOk, AddressesOk, LogOk, FlagsOk, TaskOk, CallsOk, StreamOk, WatchOk, AreaAllowed, Refresh;
    if !Subscribed(s.clients[c], kind) && AreaAllowed(cfg, s.clients, key.0) {
      if key.0.Some? && key.0.value.Wkt? {
        AlwaysAllowed(cfg, s.clients);
        SetKeepsSafe(cfg, s, c, s.clients[c].(work := CheckingArea(kind, key)), None);
      } else {
        RefreshKeepsSafe(cfg, s, c, kind, key);
      }
    }
  }

  lemma AreaCheckedKeepsSafe<C>(cfg: Config, s: State<C>, c: C, tidied: Option<Area>)
    requires Safe(cfg, s) && c in s.clients && s.clients[c].work.CheckingArea?
    ensures Safe(cfg, AreaChecked(s, c, tidied))
  {
    hide AreasOk, AddressesOk, LogOk, FlagsOk, TaskOk, CallsOk, StreamOk, WatchOk, AreaAllowed, Refresh;
    AlwaysAllowed(cfg, s.clients);
    if tidied.None? {
      SetKeepsSafe(cfg, s, c, s.clients[c].(work := Free), None);
    } else {
      var work := s.clients[c].work;
      assert ClientOk(cfg, s.log, s.latest, |s.calls|, s.clients[c]);
      RefreshKeepsSafe(cfg, s, c, work.kind, (tidied, work.key.1));
    }
  }
}
