/** What clients get for their requests, over every run: whom the notifier admits,
    which subscriptions begin and to what, what ends them, and when the notifier has
    caught up. All of it is said of events and clients alone. */
module NotifyRequests {
  import opened Wrappers
  import opened EditLog
  import opened NotifyProtocol
  import opened NotifySafety
  import opened NotifyClients
  import opened NotifyChecks

  // ----- Connections -----

  /** A connection is admitted exactly while there are fewer than allowed, in all and
      from its address. It then has a deadline, and nothing else yet. */
  lemma AdmittedExactlyWhen<C>(cfg: Config, s: State<C>, c: C, address: string)
    requires Safe(cfg, s) && Enabled(cfg, s, Connecting(c, address))
    ensures
      var t := Step(cfg, s, Connecting(c, address));
      && (c in t.clients <==> |s.clients| < cfg.limits.maxConnections && |From(s.clients, address)| < cfg.limits.maxPerAddress)
      && (c in t.clients ==>
            var n := t.clients[c];
            && n.address == address && n.deadline && !n.greeted && !n.closing && n.edits == None && n.records == None
            && n.work == Free)
      && forall d :: d != c ==> (d in t.clients <==> d in s.clients) && (d in t.clients ==> t.clients[d] == s.clients[d])
  {
    assert CountOf(s.perAddress, address) == |From(s.clients, address)|;
    hide ClientsOk, TaskOk, CallsOk, AreasOk, LogOk, FlagsOk, From, CountOf;
  }

  /** An event is of one client's making, or about its request. */
  ghost predicate IsAbout<C>(e: Event<C>, c: C) {
    match e
    case Connecting(d, _) => d == c
    case Losing(d) => d == c
    case Closing(d) => d == c
    case SayingHello(d) => d == c
    case Subscribing(d, _, _) => d == c
    case CheckedArea(d, _) => d == c
    case Resuming(d) => d == c
    case Unsubscribing(d, _) => d == c
    case _ => false
  }

  /** What an event about another client, or none, leaves of a client: what it waits
      for, and what it has been subscribed to. */
  predicate StaysWaiting(before: Client, after: Client) {
    && after.work == before.work && after.greeted == before.greeted && after.address == before.address
    && after.deadline == before.deadline
    && (after.edits.Some? <==> before.edits.Some?)
    && (after.edits.Some? ==>
          after.edits.value.place == before.edits.value.place && after.edits.value.start == before.edits.value.start)
    && (after.records.Some? <==> before.records.Some?)
    && (after.records.Some? ==>
          after.records.value.key == before.records.value.key && after.records.value.start == before.records.value.start)
  }

  ghost predicate Stays<C>(s: State<C>, t: State<C>, c: C) {
    c in s.clients ==> c in t.clients && StaysWaiting(s.clients[c], t.clients[c])
  }

  lemma SameStays<C>(s: State<C>, t: State<C>, c: C)
    requires c in s.clients ==> c in t.clients && t.clients[c] == s.clients[c]
    ensures Stays(s, t, c)
  {
  }

  lemma DeliveredStays(client: Client, first: int, check: Check)
    ensures StaysWaiting(client, DeliverTo(client, first, check))
  {
  }

  lemma ContinueStays<C>(s: State<C>, check: Check, next: Ask, c: C)
    ensures Stays(s, Continue(s, check, next), c)
  {
    hide DeliverTo, NextRound, StaysWaiting;
    if c in s.clients {
      DeliveredStays(s.clients[c], s.latest + 1, NextRound(s, check));
      SameWaits(s.clients[c]);
    }
  }

  lemma SameWaits(client: Client)
    ensures StaysWaiting(client, client)
  {
  }

  lemma LatestReadStays<C>(s: State<C>, next: Ask, c: C)
    requires s.task.HasRead?
    ensures Stays(s, LatestRead(s, next), c)
  {
    hide Continue, Stays;
    if s.task.latest.Some? && s.task.latest.value > s.latest {
      ContinueStays(s, NewCheck(s.task.latest.value), next, c);
    } else {
      SameStays(s, LatestRead(s, next), c);
    }
  }

  lemma OtherStays<C>(cfg: Config, s: State<C>, e: Event<C>, c: C)
    requires Enabled(cfg, s, e) && !IsAbout(e, c)
    ensures Stays(s, Step(cfg, s, e), c)
  {
    hide Stays, StaysWaiting, Honest, NextIsAsked, Continue, LatestRead, AreaAllowed, Unsubscribe, Hello, Subscribe, HasRoom, Ready;
    match e
    case CheckHasLatest(next) => LatestReadStays(s, next, c);
    case CheckHasAnswer(next) => ContinueStays(s, Heard(s.task.check, s.task.ask, s.task.reply.value), next, c);
    case _ => SameStays(s, Step(cfg, s, e), c);
  }

  ghost predicate NoneAbout<C>(events: seq<Event<C>>, c: C) {
    forall i :: 0 <= i < |events| ==> !IsAbout(events[i], c)
  }

  lemma StaysOn<C>(s: State<C>, t: State<C>, u: State<C>, c: C)
    requires Stays(s, t, c) && Stays(t, u, c)
    ensures Stays(s, u, c)
  {
  }

  /** Over any events about others, a client goes on waiting for the same. */
  lemma {:induction false} RunStays<C>(cfg: Config, s: State<C>, events: seq<Event<C>>, end: State<C>, c: C)
    requires IsRun(cfg, s, events, end) && NoneAbout(events, c)
    ensures Stays(s, end, c)
    decreases |events|
  {
    hide Stays, Enabled, Step, IsAbout;
    if |events| == 0 {
      SameStays(s, end, c);
    } else {
      var t := Step(cfg, s, events[0]);
      OtherStays(cfg, s, events[0], c);
      RunStays(cfg, t, events[1..], end, c);
      StaysOn(s, t, end, c);
    }
  }

  // ----- Subscriptions -----

  /** Somebody follows an area. */
  ghost predicate IsFollowed<C>(clients: map<C, Client>, a: Area) {
    exists c :: c in clients && FollowsArea(clients[c], a)
  }

  predicate FollowsArea(client: Client, a: Area) {
    || (client.edits.Some? && client.edits.value.place == Some(a))
    || (client.records.Some? && client.records.value.key.0 == Some(a))
  }

  lemma FollowedAre<C>(clients: map<C, Client>, a: Area)
    ensures a in Areas(clients) <==> IsFollowed(clients, a)
  {
    AreasAre(clients, a);
    hide Areas;
    assert forall c :: c in clients ==> (a in AreasOf(clients[c]) <==> FollowsArea(clients[c], a));
  }

  /** There is room for a place: everywhere, and an area already followed, always
      have room, and others while fewer are followed than may be. */
  ghost predicate RoomFor<C>(cfg: Config, clients: map<C, Client>, place: Place) {
    place.Some? && cfg.limits.maxAreas > 0 && !IsFollowed(clients, place.value) ==>
      forall followed :: AreFollowed(clients, followed) ==> |followed| < cfg.limits.maxAreas
  }

  ghost predicate AreFollowed<C>(clients: map<C, Client>, followed: set<Area>) {
    forall a :: a in followed <==> IsFollowed(clients, a)
  }

  lemma RoomIs<C>(cfg: Config, clients: map<C, Client>, place: Place)
    ensures AreaAllowed(cfg, clients, place) <==> RoomFor(cfg, clients, place)
  {
    forall a
      ensures a in Areas(clients) <==> IsFollowed(clients, a)
    {
      FollowedAre(clients, a);
    }
    hide Areas, IsFollowed;
    assert AreFollowed(clients, Areas(clients));
    forall followed | AreFollowed(clients, followed)
      ensures followed == Areas(clients)
    {
    }
  }

  /** A client has a subscription of a kind. */
  predicate Has(client: Client, kind: Kind) {
    match kind
    case Edits => client.edits.Some?
    case Records => client.records.Some?
  }

  /** A request to subscribe is refused, and nothing changes, exactly if there is
      such a subscription already or no room for the place. Otherwise the client
      waits, with its subscriptions as they were: for a shape to be checked, or for
      the notifier to have settled a call made now. */
  lemma RequestIs<C>(cfg: Config, s: State<C>, c: C, kind: Kind, key: Key)
    requires Enabled(cfg, s, Subscribing(c, kind, key))
    ensures
      var t := Step(cfg, s, Subscribing(c, kind, key));
      && t.clients.Keys == s.clients.Keys && (forall d :: d in s.clients && d != c ==> t.clients[d] == s.clients[d])
      && t.log == s.log && t.latest == s.latest
      && t.clients[c].edits == s.clients[c].edits && t.clients[c].records == s.clients[c].records
      && t.clients[c].closing == s.clients[c].closing
      && (Has(s.clients[c], kind) || !RoomFor(cfg, s.clients, key.0) ==> t == s)
      && (!Has(s.clients[c], kind) && RoomFor(cfg, s.clients, key.0) ==>
            if key.0.Some? && key.0.value.Wkt? then t.clients[c].work == CheckingArea(kind, key) && t.calls == s.calls
            else Waits(s, t, c, kind, key))
  {
    RoomIs(cfg, s.clients, key.0);
    hide AreaAllowed, RoomFor, Refresh, Waits;
    RefreshWaits(s, c, kind, key);
    SubscribedHas(s.clients[c], kind);
  }

  lemma SubscribedHas(client: Client, kind: Kind)
    ensures Subscribed(client, kind) <==> Has(client, kind)
  {
  }

  lemma RefreshWaits<C>(s: State<C>, c: C, kind: Kind, key: Key)
    requires c in s.clients
    ensures
      var t := Refresh(s, c, kind, key);
      && t.clients.Keys == s.clients.Keys && (forall d :: d in s.clients && d != c ==> t.clients[d] == s.clients[d])
      && t.log == s.log && t.latest == s.latest
      && t.clients[c].edits == s.clients[c].edits && t.clients[c].records == s.clients[c].records
      && t.clients[c].closing == s.clients[c].closing
      && Waits(s, t, c, kind, key)
  {
  }

  /** The client waits, and a call has been made that knows of all edits so far. */
  predicate Waits<C>(s: State<C>, t: State<C>, c: C, kind: Kind, key: Key) {
    && c in t.clients && t.clients[c].work == Refreshing(kind, key, |s.calls|)
    && |t.calls| == |s.calls| + 1 && t.calls[..|s.calls|] == s.calls
    && t.calls[|s.calls|] == Call(if |s.log| == 0 then 0 else s.log[|s.log| - 1].id, false, false, false)
    && t.checking
  }

  /** A shape was refused, and the request with it; or the client waits for the shape
      as it was tidied. */
  lemma CheckedIs<C>(cfg: Config, s: State<C>, c: C, tidied: Option<Area>)
    requires Enabled(cfg, s, CheckedArea(c, tidied))
    ensures
      var t := Step(cfg, s, CheckedArea(c, tidied));
      var work := s.clients[c].work;
      && t.clients.Keys == s.clients.Keys && (forall d :: d in s.clients && d != c ==> t.clients[d] == s.clients[d])
      && t.clients[c].edits == s.clients[c].edits && t.clients[c].records == s.clients[c].records
      && t.clients[c].closing == s.clients[c].closing
      && (tidied.None? ==> t.clients[c].work == Free)
      && (tidied.Some? ==> Waits(s, t, c, work.kind, (tidied, work.key.1)))
  {
  }

  /** Nothing has been sent for a subscription of a kind that begins at an ID. */
  predicate BeginsAt(client: Client, kind: Kind, place: Place, format: Format, latest: int) {
    match kind
    case Edits => client.edits == Some(Watch(place, latest, []))
    case Records => client.records == Some(Stream((place, format), latest, latest, []))
  }

  /** When a client goes on, its subscription begins exactly if it is still open and
      there is room for the place: at the latest ID, to the place and format that it
      has waited with. Otherwise its subscriptions are as they were. */
  lemma ResumedIs<C>(cfg: Config, s: State<C>, c: C)
    requires Enabled(cfg, s, Resuming(c))
    ensures
      var t := Step(cfg, s, Resuming(c));
      var work := s.clients[c].work;
      && t.clients.Keys == s.clients.Keys && (forall d :: d in s.clients && d != c ==> t.clients[d] == s.clients[d])
      && t.clients[c].work == Free && t.clients[c].closing == s.clients[c].closing && t.latest == s.latest
      && (if !s.clients[c].closing && RoomFor(cfg, s.clients, work.key.0) then
            && BeginsAt(t.clients[c], work.kind, work.key.0, work.key.1, s.latest) && !t.clients[c].deadline
            && (work.kind == Edits ==> t.clients[c].records == s.clients[c].records)
            && (work.kind == Records ==> t.clients[c].edits == s.clients[c].edits)
          else t.clients[c].edits == s.clients[c].edits && t.clients[c].records == s.clients[c].records)
  {
    RoomIs(cfg, s.clients, s.clients[c].work.key.0);
    hide AreaAllowed, RoomFor;
  }

  /** An event, and then others that are not about a client, lead from one state to another. */
  ghost predicate Leads<C>(cfg: Config, s: State<C>, e: Event<C>, others: seq<Event<C>>, u: State<C>, c: C) {
    Enabled(cfg, s, e) && NoneAbout(others, c) && IsRun(cfg, Step(cfg, s, e), others, u)
  }

  lemma LeadsStays<C>(cfg: Config, s: State<C>, e: Event<C>, others: seq<Event<C>>, u: State<C>, c: C)
    requires Leads(cfg, s, e, others, u, c)
    ensures Enabled(cfg, s, e) && Stays(Step(cfg, s, e), u, c)
  {
    RunStays(cfg, Step(cfg, s, e), others, u, c);
    hide IsRun, Enabled, Step, NoneAbout, Stays;
  }

  /** A client subscribes and, after events about others, goes on: its subscription
      begins, if it does, at the latest ID, to the place and format it asked for. */
  lemma SubscribesToWhatItAskedFor<C>(cfg: Config, s: State<C>, c: C, kind: Kind, key: Key, others: seq<Event<C>>, u: State<C>)
    requires Leads(cfg, s, Subscribing(c, kind, key), others, u, c) && Enabled(cfg, u, Resuming(c))
    ensures
      var t := Step(cfg, u, Resuming(c));
      && c in s.clients && c in t.clients && !Has(s.clients[c], kind) && !Has(u.clients[c], kind)
      && (key.0.Some? ==> key.0.value.Bbox?)
      && (Has(t.clients[c], kind) <==> !u.clients[c].closing && RoomFor(cfg, u.clients, key.0))
      && (Has(t.clients[c], kind) ==> BeginsAt(t.clients[c], kind, key.0, key.1, u.latest))
  {
    LeadsStays(cfg, s, Subscribing(c, kind, key), others, u, c);
    RequestIs(cfg, s, c, kind, key);
    ResumedIs(cfg, u, c);
    assert s.clients[c].work == Free;
    hide Leads, RoomFor, AreaAllowed, Step;
  }

  /** The same of a shape: the subscription is to it as it was tidied. */
  lemma SubscribesToTheTidiedShape<C>(cfg: Config, s: State<C>, c: C, kind: Kind, key: Key, others: seq<Event<C>>, u: State<C>,
                                      tidied: Area, later: seq<Event<C>>, v: State<C>)
    requires Leads(cfg, s, Subscribing(c, kind, key), others, u, c)
    requires Leads(cfg, u, CheckedArea(c, Some(tidied)), later, v, c) && Enabled(cfg, v, Resuming(c))
    ensures
      var t := Step(cfg, v, Resuming(c));
      && c in s.clients && c in t.clients && !Has(s.clients[c], kind) && !Has(v.clients[c], kind)
      && key.0.Some? && key.0.value.Wkt?
      && (Has(t.clients[c], kind) <==> !v.clients[c].closing && RoomFor(cfg, v.clients, Some(tidied)))
      && (Has(t.clients[c], kind) ==> BeginsAt(t.clients[c], kind, Some(tidied), key.1, v.latest))
  {
    LeadsStays(cfg, s, Subscribing(c, kind, key), others, u, c);
    LeadsStays(cfg, u, CheckedArea(c, Some(tidied)), later, v, c);
    RequestIs(cfg, s, c, kind, key);
    CheckedIs(cfg, u, c, Some(tidied));
    ResumedIs(cfg, v, c);
    assert s.clients[c].work == Free;
    hide Leads, RoomFor, AreaAllowed, Step;
  }

  // ----- Leaving -----

  /** A client that says hello is greeted, and has a deadline; a second hello changes nothing. */
  lemma HelloIs<C>(cfg: Config, s: State<C>, c: C)
    requires Enabled(cfg, s, SayingHello(c))
    ensures
      var t := Step(cfg, s, SayingHello(c));
      && t.clients == s.clients[c := t.clients[c]]
      && (s.clients[c].greeted ==> t == s)
      && (!s.clients[c].greeted ==> t.clients[c] == s.clients[c].(greeted := true, deadline := true))
  {
  }

  /** A client that unsubscribes loses the one subscription, and keeps the other; if
      that was the last, it has a deadline. */
  lemma UnsubscribedIs<C>(cfg: Config, s: State<C>, c: C, kind: Kind)
    requires Enabled(cfg, s, Unsubscribing(c, kind))
    ensures
      var t := Step(cfg, s, Unsubscribing(c, kind));
      var before, after := s.clients[c], t.clients[c];
      && t.clients == s.clients[c := after]
      && !Has(after, kind) && after.closing == before.closing && after.greeted == before.greeted && after.work == before.work
      && (kind == Edits ==> after.records == before.records) && (kind == Records ==> after.edits == before.edits)
      && (Has(before, kind) ==> (after.deadline <==> before.deadline || (after.edits == None && after.records == None)))
      && (!Has(before, kind) ==> after == before)
  {
  }

  /** A lost connection is forgotten, and its subscriptions with it; no other is. */
  lemma LostIs<C>(cfg: Config, s: State<C>, c: C)
    requires Enabled(cfg, s, Losing(c))
    ensures
      var t := Step(cfg, s, Losing(c));
      && c !in t.clients
      && forall d :: d != c ==> (d in t.clients <==> d in s.clients) && (d in t.clients ==> t.clients[d] == s.clients[d])
  {
  }

  // ----- Closing -----

  /** The records that a client subscribes to could not be read for a check. */
  predicate CouldNotRead(client: Client, check: Check, ask: Ask, reply: Reply) {
    client.records.Some? &&
    (client.records.value.key in check.failed || (ask == AskKey(client.records.value.key) && !reply.Sends?))
  }

  /** A connection is closed only when that happens of itself, or when a check ends
      that could not read its records. */
  ghost predicate MayClose<C>(s: State<C>, e: Event<C>, c: C)
    requires c in s.clients
  {
    || e == Closing(c)
    || (e.CheckHasAnswer? && s.task.Asking? && s.task.reply.Some?
        && CouldNotRead(s.clients[c], s.task.check, s.task.ask, s.task.reply.value))
  }

  lemma ContinueCloses<C>(s: State<C>, check: Check, next: Ask, c: C)
    requires c in s.clients
    ensures
      var t := Continue(s, check, next);
      c in t.clients && (t.clients[c].closing ==>
        s.clients[c].closing || (s.clients[c].records.Some? && s.clients[c].records.value.key in check.failed))
  {
    var round := NextRound(s, check);
    assert round.failed == check.failed;
    hide NextRound, Tell, Send;
  }

  lemma ClosedOnlyFor<C>(cfg: Config, s: State<C>, e: Event<C>, c: C)
    requires Enabled(cfg, s, e) && c in s.clients && c in Step(cfg, s, e).clients
    ensures Step(cfg, s, e).clients[c].closing ==> s.clients[c].closing || MayClose(s, e, c)
  {
    match e
    case CheckHasLatest(next) => LatestReadCloses(s, next, c);
    case CheckHasAnswer(next) => ContinueCloses(s, Heard(s.task.check, s.task.ask, s.task.reply.value), next, c);
    case Subscribing(d, kind, key) => RequestIs(cfg, s, d, kind, key);
    case CheckedArea(d, tidied) => CheckedIs(cfg, s, d, tidied);
    case Resuming(d) => ResumedIs(cfg, s, d);
    case Unsubscribing(d, kind) => UnsubscribedIs(cfg, s, d, kind);
    case SayingHello(d) => HelloIs(cfg, s, d);
    case Losing(d) => LostIs(cfg, s, d);
    case _ => OtherCloses(cfg, s, e, c);
    hide Honest, NextIsAsked, Continue, LatestRead, AreaAllowed, HasRoom, Ready, Waits, RoomFor, RequestSubscribe, AreaChecked,
         Refreshed, Unsubscribe, Hello, Lose, Heard, Has, BeginsAt;
  }

  lemma LatestReadCloses<C>(s: State<C>, next: Ask, c: C)
    requires s.task.HasRead? && c in s.clients
    ensures c in LatestRead(s, next).clients && (LatestRead(s, next).clients[c].closing ==> s.clients[c].closing)
  {
    hide Continue;
    if s.task.latest.Some? && s.task.latest.value > s.latest {
      ContinueCloses(s, NewCheck(s.task.latest.value), next, c);
    }
  }

  lemma OtherCloses<C>(cfg: Config, s: State<C>, e: Event<C>, c: C)
    requires Enabled(cfg, s, e) && c in s.clients
    requires e.Commit? || e.Connecting? || e.Closing? || e.Changed? || e.CheckBegins? || e.MapReads? || e.MapAnswers?
    ensures c in Step(cfg, s, e).clients
    ensures Step(cfg, s, e).clients[c].closing ==> s.clients[c].closing || e == Closing(c)
  {
    hide Honest, Sorted, HasRoom;
  }

  // ----- Catching up -----

  /** The n-th call is of edits up to an ID, and no read begun since has failed. */
  ghost predicate CallHolds<C>(s: State<C>, n: nat, since: int) {
    && n < |s.calls| && s.calls[n].since == since && !s.calls[n].failed
    && (s.calls[n].covered && s.task.HasRead? ==> s.task.latest.Some?)
  }

  lemma SettleHolds<C>(s: State<C>, n: nat, since: int)
    requires n < |s.calls| && s.calls[n].since == since && !s.calls[n].failed
    ensures CallHolds(Settle(s), n, since)
  {
  }

  lemma ContinueHolds<C>(s: State<C>, check: Check, next: Ask, n: nat, since: int)
    requires n < |s.calls| && s.calls[n].since == since && !s.calls[n].failed
    ensures CallHolds(Continue(s, check, next), n, since)
  {
    hide NextRound, DeliverTo, Settle, CallHolds;
    if Done(NextRound(s, check)) {
      SettleHolds(Deliver(s, NextRound(s, check)), n, since);
    } else {
      AskingHolds(s, Continue(s, check, next), n, since);
    }
  }

  lemma AskingHolds<C>(s: State<C>, t: State<C>, n: nat, since: int)
    requires n < |s.calls| && s.calls[n].since == since && !s.calls[n].failed && t.calls == s.calls && t.task.Asking?
    ensures CallHolds(t, n, since)
  {
  }

  lemma LatestReadHolds<C>(s: State<C>, next: Ask, n: nat, since: int)
    requires s.task.HasRead? && CallHolds(s, n, since)
    ensures CallHolds(LatestRead(s, next), n, since)
  {
    hide Continue, Settle;
    match s.task.latest
    case None =>
      assert Failed(s.calls)[n] == s.calls[n];
      SettleHolds(s.(calls := Failed(s.calls)), n, since);
    case Some(latest) =>
      if latest < s.latest {
        SettleHolds(s.(latest := latest), n, since);
      } else if latest == s.latest {
        SettleHolds(s, n, since);
      } else {
        ContinueHolds(s, NewCheck(latest), next, n, since);
      }
  }

  lemma CallGoesOn<C>(cfg: Config, s: State<C>, e: Event<C>, n: nat, since: int)
    requires Enabled(cfg, s, e) && e != MapReads(false) && CallHolds(s, n, since)
    ensures CallHolds(Step(cfg, s, e), n, since)
  {
    hide Honest, NextIsAsked, Continue, LatestRead, AreaAllowed, HasRoom, Ready, Unsubscribe, Hello, Subscribe, Sorted;
    match e
    case CheckHasLatest(next) => LatestReadHolds(s, next, n, since);
    case CheckHasAnswer(next) =>
      ContinueHolds(s, Heard(s.task.check, s.task.ask, s.task.reply.value), next, n, since);
    case _ =>
  }

  lemma {:induction false} CallHoldsOn<C>(cfg: Config, s: State<C>, events: seq<Event<C>>, end: State<C>, n: nat, since: int)
    requires IsRun(cfg, s, events, end) && CallHolds(s, n, since) && MapReads(false) !in events
    ensures CallHolds(end, n, since)
    decreases |events|
  {
    hide CallHolds, Enabled, Step;
    if |events| > 0 {
      assert events[0] in events;
      CallGoesOn(cfg, s, events[0], n, since);
      CallHoldsOn(cfg, Step(cfg, s, events[0]), events[1..], end, n, since);
    }
  }

  /** The last edit in a log. */
  function LastEdit(log: seq<Record>): int {
    if |log| == 0 then 0 else log[|log| - 1].id
  }

  /** After it is told that something changed, and unless a read of the map fails, the
      notifier is not idle before it has caught up with all edits there were. */
  lemma NoEditIsMissed<C>(cfg: Config, s: State<C>, events: seq<Event<C>>, end: State<C>)
    requires Safe(cfg, s) && IsRun(cfg, Step(cfg, s, Changed), events, end) && MapReads(false) !in events && end.idle
    ensures LastEdit(s.log) <= end.latest
  {
    hide IsRun, Safe, CallHolds, Step, Enabled;
    ChangedHolds(cfg, s);
    var t, n := Step(cfg, s, Changed), |s.calls|;
    StepKeepsSafe(cfg, s, Changed);
    RunsAreSafe(cfg, t, events, end);
    CallHoldsOn(cfg, t, events, end, n, LastEdit(s.log));
    CaughtUp(cfg, end, n, LastEdit(s.log));
  }

  lemma ChangedHolds<C>(cfg: Config, s: State<C>)
    ensures Enabled(cfg, s, Changed) && CallHolds(Step(cfg, s, Changed), |s.calls|, LastEdit(s.log))
  {
  }

  lemma CaughtUp<C>(cfg: Config, s: State<C>, n: nat, since: int)
    requires Safe(cfg, s) && CallHolds(s, n, since) && (s.idle || s.calls[n].settled)
    ensures since <= s.latest
  {
    assert CallOk(s.task, s.checking, s.again, s.latest, LastId(s.log), s.calls[n]);
  }

  /** A subscription begins with all edits answered for that there were when it was
      asked for, unless a read of the map has failed since. */
  lemma BeginsCaughtUp<C>(cfg: Config, s: State<C>, c: C, kind: Kind, key: Key, others: seq<Event<C>>, u: State<C>)
    requires Safe(cfg, s) && Leads(cfg, s, Subscribing(c, kind, key), others, u, c) && Enabled(cfg, u, Resuming(c))
    requires MapReads(false) !in others
    ensures LastEdit(s.log) <= u.latest
  {
    hide Step, Safe, Enabled, RoomFor, Leads, IsRun, CallHolds, IsAbout;
    HasWaited(cfg, s, c, kind, key, others, u);
    var t, n := Step(cfg, s, Subscribing(c, kind, key)), |s.calls|;
    StepKeepsSafe(cfg, s, Subscribing(c, kind, key));
    RunsAreSafe(cfg, t, others, u);
    CallHoldsOn(cfg, t, others, u, n, LastEdit(s.log));
    CaughtUp(cfg, u, n, LastEdit(s.log));
  }

  lemma HasWaited<C>(cfg: Config, s: State<C>, c: C, kind: Kind, key: Key, others: seq<Event<C>>, u: State<C>)
    requires Leads(cfg, s, Subscribing(c, kind, key), others, u, c) && Enabled(cfg, u, Resuming(c))
    ensures Enabled(cfg, s, Subscribing(c, kind, key)) && IsRun(cfg, Step(cfg, s, Subscribing(c, kind, key)), others, u)
    ensures CallHolds(Step(cfg, s, Subscribing(c, kind, key)), |s.calls|, LastEdit(s.log))
    ensures |s.calls| < |u.calls| && u.calls[|s.calls|].settled
  {
    LeadsStays(cfg, s, Subscribing(c, kind, key), others, u, c);
    RequestIs(cfg, s, c, kind, key);
    assert s.clients[c].work == Free;
    hide IsRun, NoneAbout, RoomFor, AreaAllowed, Step;
    assert u.clients[c].work == Refreshing(kind, key, |s.calls|);
  }

  // ----- The map's latest ID -----

  /** What the notifier makes of the map's latest ID: if reading fails, or nothing is
      new, nobody is told anything; a map that has gone back is followed. */
  lemma NothingNewIsTold<C>(cfg: Config, s: State<C>, next: Ask)
    requires Enabled(cfg, s, CheckHasLatest(next)) && (s.task.latest.Some? ==> s.task.latest.value <= s.latest)
    ensures
      var t := Step(cfg, s, CheckHasLatest(next));
      && t.clients == s.clients && t.log == s.log
      && t.latest == (if s.task.latest.Some? then s.task.latest.value else s.latest)
  {
  }
}
