/** The edit notifier's objects. What runs between two waits makes exactly one step
    of the protocol, so that all that was called on a notifier is a run, and what
    holds of every run holds of the notifier. */
module NotifyServer {
  import opened Wrappers
  import opened Sets
  import opened EditLog
  import opened RecordMessages
  import opened NotifyProtocol
  import opened NotifySafety
  import opened NotifyChecks

  /** The object of one client of the protocol; View is its state there. */
  class Connection {
    const address: string
    var greeted: bool
    var closing: bool
    var deadline: bool
    var edits: Option<Watch>
    var records: Option<Stream>
    var work: Work

    constructor (address: string)
      ensures this.address == address && !closing
      ensures View() == NewClient(address).(deadline := false)
    {
      this.address := address;
      greeted, closing, deadline := false, false, false;
      edits, records, work := None, None, Free;
    }

    function View(): Client
      reads this
    {
      Client(address, greeted, closing, deadline, edits, records, work)
    }

    method SetDeadline(running: bool)
      modifies this`deadline
      ensures deadline == running
    {
      deadline := running;
    }

    method Close()
      modifies this`closing
      ensures closing
    {
      if !closing {
        closing := true;
      }
    }

    predicate Subscribed(kind: Kind)
      reads this
    {
      if kind.Edits? then edits.Some? else records.Some?
    }

    method SayHello()
      modifies this`greeted, this`deadline
      ensures View() == Hello(old(View()))
    {
      if !greeted {
        greeted := true;
        SetDeadline(true);
      }
    }

    method RemoveSubscription(kind: Kind)
      modifies this`edits, this`records, this`deadline
      ensures View() == Unsubscribe(old(View()), kind)
    {
      if !Subscribed(kind) {
        return;
      }
      if kind.Edits? {
        edits := None;
      } else {
        records := None;
      }
      if edits.None? && records.None? {
        SetDeadline(true);
      }
    }

    method AddSubscription(kind: Kind, key: Key, latest: int)
      modifies this`edits, this`records, this`deadline, this`work
      ensures View() == Subscribe(old(View()), kind, key, latest)
    {
      if kind.Edits? {
        edits := Some(Watch(key.0, latest, []));
      } else {
        records := Some(Stream(key, latest, latest, []));
      }
      SetDeadline(false);
      work := Free;
    }

    /** What the connection is told when a check ends. */
    method Receive(first: int, check: Check)
      modifies this
      ensures View() == DeliverTo(old(View()), first, check)
    {
      var told := edits.Some? && edits.value.place in check.answers && check.answers[edits.value.place];
      var messages := [];
      if records.Some? {
        if records.value.key in check.failed {
          Close();
          return;
        }
        if records.value.key in check.records {
          messages := check.records[records.value.key];
        }
      }
      if closing {
        return; // Nothing is written to a transport that is closing
      }
      if told {
        var notice := Notice(first, check.last, edits.value.place in check.assumed);
        edits := Some(edits.value.(told := edits.value.told + [notice]));
      }
      if records.Some? {
        records := Some(records.value.(upto := check.last, sent := records.value.sent + messages));
      }
    }
  }

  /** The object of the protocol's state; View is that state. */
  class EditNotifier {
    const cfg: Config
    var connections: set<Connection>
    var perAddress: map<string, int>
    var latest: int
    var checking: bool
    var again: bool
    var idle: bool
    var task: Task
    var log: seq<Record>  // Appended to by the environment
    var calls: seq<Call>  // History: which calls asked for a check
    ghost var begun: State<Connection>
    ghost var events: seq<Event<Connection>>

    constructor (cfg: Config, log: seq<Record>)
      requires Sorted(log)
      ensures this.cfg == cfg && this.log == log && Initial(View())
      ensures Valid() && events == []
    {
      this.cfg := cfg;
      connections, perAddress, latest := {}, map[], LastId(log);
      checking, again, idle, task := false, false, true, NoTask;
      this.log, calls := log, [];
      new;
      begun, events := View(), [];
    }

    function Clients(): map<Connection, Client>
      reads this, connections
    {
      map c | c in connections :: c.View()
    }

    function View(): State<Connection>
      reads this, connections
    {
      State(log, Clients(), perAddress, latest, checking, again, idle, task, calls)
    }

    /** All that has happened since the notifier began is a run to its state. */
    ghost predicate Valid()
      reads this, connections
    {
      Initial(begun) && IsRun(cfg, begun, events, View())
    }

    ghost method Happened(before: State<Connection>, e: Event<Connection>)
      requires Initial(begun) && IsRun(cfg, begun, events, before)
      requires Enabled(cfg, before, e) && View() == Step(cfg, before, e)
      modifies this`events
      ensures Valid() && events == old(events) + [e] && View() == old(View())
    {
      hide IsRun, Enabled, Step;
      RunThen(cfg, begun, events, before, e);
      events := events + [e];
      assert Clients() == old(Clients());
    }

    lemma IsSafe()
      requires Valid()
      ensures Safe(cfg, View())
    {
      hide Safe, IsRun, Initial;
      InitialIsSafe(cfg, begun);
      RunsAreSafe(cfg, begun, events, View());
    }

    /** Whatever has been called: an open records subscription has been sent exactly
        the concerning records since it began, up to the latest that is known of. */
    lemma SentExactlyOnce(connection: Connection)
      requires Valid() && connection in connections && connection.records.Some? && !connection.closing
      ensures
        var stream := connection.records.value;
        Content(stream.sent) == Select(log, stream.start + 1, latest, cfg.concerns(stream.key.0))
    {
      hide IsRun, Initial, Content, Select;
      assert Clients()[connection] == connection.View();
      ExactlyOnce(cfg, begun, events, View(), connection);
    }

    // ----- The environment -----

    /** Others add to the log. */
    method EditsCommitted(more: seq<Record>)
      requires Valid() && Enabled(cfg, View(), Commit(more))
      modifies this`log, this`events
      ensures Valid() && events == old(events) + [Commit(more)]
      ensures log == old(log) + more
    {
      hide IsRun, Initial;
      ghost var before := View();
      log := log + more;
      Happened(before, Commit(more));
    }

    // ----- Connections -----

    /** A connection is made: it is admitted if there is room, with some time to say hello. */
    method ConnectionMade(connection: Connection)
      requires Valid()
      requires connection !in connections && connection.View() == NewClient(connection.address).(deadline := false)
      modifies this`connections, this`perAddress, connection, this`events
      ensures View() == Connect(cfg, old(View()), connection, connection.address)
      ensures Valid() && events == old(events) + [Connecting(connection, connection.address)]
    {
      hide HasRoom, CountOf, IsRun, Initial;
      ghost var before := View();
      AdmitOrClose(connection);
      Happened(before, Connecting(connection, connection.address));
    }

    method AdmitOrClose(connection: Connection)
      requires connection !in connections && connection.View() == NewClient(connection.address).(deadline := false)
      modifies this`connections, this`perAddress, connection
      ensures View() == Connect(cfg, old(View()), connection, connection.address)
    {
      hide HasRoom, CountOf;
      var admitted := Admit(connection);
      if !admitted {
        connection.Close();
        assert Clients() == old(Clients());
        return;
      }
      ghost var before := Clients();
      connection.SetDeadline(true);
      assert Clients() == before[connection := connection.View()];
    }

    method Admit(connection: Connection) returns (admitted: bool)
      requires connection !in connections
      modifies this`connections, this`perAddress
      ensures admitted <==> HasRoom(cfg, old(View()), connection.address)
      ensures admitted ==> connection in connections && View() == Admitted(old(View()), connection, connection.View())
      ensures !admitted ==> connections == old(connections) && perAddress == old(perAddress)
    {
      assert Clients().Keys == connections && |Clients()| == |Clients().Keys|;
      if |connections| >= cfg.limits.maxConnections {
        return false;
      }
      var count := if connection.address in perAddress then perAddress[connection.address] else 0;
      if count >= cfg.limits.maxPerAddress {
        return false;
      }
      connections := connections + {connection};
      perAddress := perAddress[connection.address := count + 1];
      assert Clients() == old(Clients())[connection := connection.View()];
      return true;
    }

    /** A connection is lost: its requests are given up, and it is forgotten. */
    method ConnectionLost(connection: Connection)
      requires Valid() && connection in connections
      modifies this`connections, this`perAddress, connection`deadline, this`events
      ensures View() == Lose(old(View()), connection)
      ensures Valid() && events == old(events) + [Losing(connection)]
    {
      hide IsRun, Initial;
      ghost var before := View();
      Forget(connection);
      Happened(before, Losing(connection));
    }

    method Forget(connection: Connection)
      requires connection in connections
      modifies this`connections, this`perAddress, connection`deadline
      ensures View() == Lose(old(View()), connection)
    {
      ghost var address := connection.address;
      assert old(Clients())[connection].address == address;
      connection.SetDeadline(false);
      Release(connection);
      assert Clients() == old(Clients()) - {connection};
    }

    /** A connection is given up: its deadline has passed, it fell behind, or the server stops. */
    method CloseConnection(connection: Connection)
      requires Valid() && connection in connections
      modifies connection`closing, this`events
      ensures View() == Set(old(View()), connection, old(connection.View()).(closing := true))
      ensures Valid() && events == old(events) + [Closing(connection)]
    {
      hide IsRun, Initial;
      ghost var before := View();
      connection.Close();
      assert Clients() == before.clients[connection := connection.View()];
      Happened(before, Closing(connection));
    }

    method Release(connection: Connection)
      modifies this`connections, this`perAddress
      ensures connection !in old(connections) ==> connections == old(connections) && perAddress == old(perAddress)
      ensures connection in old(connections) ==> connections == old(connections) - {connection}
      ensures connection in old(connections) ==>
        var address := connection.address;
        var remaining := (if address in old(perAddress) then old(perAddress)[address] else 1) - 1;
        perAddress == if remaining != 0 then old(perAddress)[address := remaining] else old(perAddress) - {address}
    {
      if connection in connections {
        connections := connections - {connection};
        var remaining := (if connection.address in perAddress then perAddress[connection.address] else 1) - 1;
        if remaining != 0 {
          perAddress := perAddress[connection.address := remaining];
        } else {
          perAddress := perAddress - {connection.address};
        }
      }
    }

    method RequestHello(connection: Connection)
      requires Valid() && Ready(View(), connection)
      modifies connection, this`events
      ensures View() == Set(old(View()), connection, Hello(old(connection.View())))
      ensures Valid() && events == old(events) + [SayingHello(connection)]
    {
      hide IsRun, Initial;
      ghost var before := View();
      connection.SayHello();
      assert Clients() == before.clients[connection := connection.View()];
      Happened(before, SayingHello(connection));
    }

    method RequestUnsubscribe(connection: Connection, kind: Kind)
      requires Valid() && Ready(View(), connection) && connection.greeted
      modifies connection, this`events
      ensures View() == Set(old(View()), connection, Unsubscribe(old(connection.View()), kind))
      ensures Valid() && events == old(events) + [Unsubscribing(connection, kind)]
    {
      hide IsRun, Initial, Unsubscribe;
      ghost var before := View();
      connection.RemoveSubscription(kind);
      assert Clients() == before.clients[connection := connection.View()];
      Happened(before, Unsubscribing(connection, kind));
    }

    /** Decides AreaAllowed from the subscriptions of all connections. */
    method CheckAreaAllowed(place: Place) returns (allowed: bool)
      ensures allowed == AreaAllowed(cfg, Clients(), place)
    {
      FollowedAre();
      return place.None? || cfg.limits.maxAreas == 0 || place.value in FollowedAreas()
        || |FollowedAreas()| < cfg.limits.maxAreas;
    }

    /** The set Areas, gathered connection by connection. */
    function FollowedAreas(): set<Area>
      reads this, connections
    {
      set c, a | c in connections && a in Followed(c) :: a
    }

    function Followed(c: Connection): set<Area>
      reads c
    {
      (if c.edits.Some? && c.edits.value.place.Some? then {c.edits.value.place.value} else {}) +
      (if c.records.Some? && c.records.value.key.0.Some? then {c.records.value.key.0.value} else {})
    }

    lemma FollowedAre()
      ensures FollowedAreas() == Areas(Clients())
    {
      var clients, areas := Clients(), FollowedAreas();
      forall a | a in areas
        ensures a in Areas(clients)
      {
        var c :| c in connections && a in Followed(c);
        if c.edits.Some? && c.edits.value.place == Some(a) {
          assert clients[c].edits.value.place in EditPlaces(clients);
        } else {
          assert clients[c].records.value.key in RecordKeys(clients);
        }
      }
      forall a | a in Areas(clients)
        ensures a in areas
      {
        if a in set p | p in EditPlaces(clients) && p.Some? :: p.value {
          assert Some(a) in EditPlaces(clients);
          var c :| c in clients && clients[c].edits.Some? && clients[c].edits.value.place == Some(a);
          assert a in Followed(c);
        } else {
          var k :| k in RecordKeys(clients) && k.0 == Some(a);
          var c :| c in clients && clients[c].records.Some? && clients[c].records.value.key == k;
          assert a in Followed(c);
        }
      }
    }

    // ----- Subscribing -----

    /** The first stretch of subscribing: refused, or waiting for its area to be
        checked, or for the map to be caught up with. */
    method BeginSubscribe(connection: Connection, kind: Kind, key: Key)
      requires Valid() && Ready(View(), connection) && connection.greeted
      modifies this`again, this`checking, this`idle, this`task, this`calls, connection`work, this`events
      ensures View() == RequestSubscribe(cfg, old(View()), connection, kind, key)
      ensures Valid() && events == old(events) + [Subscribing(connection, kind, key)]
    {
      hide RequestSubscribe, IsRun, Initial;
      ghost var before := View();
      RefuseOrWait(connection, kind, key);
      Happened(before, Subscribing(connection, kind, key));
    }

    method RefuseOrWait(connection: Connection, kind: Kind, key: Key)
      requires connection in connections
      modifies this`again, this`checking, this`idle, this`task, this`calls, connection`work
      ensures View() == RequestSubscribe(cfg, old(View()), connection, kind, key)
    {
      hide AreaAllowed;
      if connection.Subscribed(kind) {
        return;
      }
      var allowed := CheckAreaAllowed(key.0);
      if !allowed {
        return;
      }
      if key.0.Some? && key.0.value.Wkt? {
        connection.work := CheckingArea(kind, key);
        assert Clients() == old(Clients())[connection := connection.View()];
      } else {
        BeginRefresh(connection, kind, key);
      }
    }

    /** The map has tidied a subscription's area, or refused it. */
    method AreaIsChecked(connection: Connection, tidied: Option<Area>)
      requires Valid() && connection in connections && connection.work.CheckingArea?
      requires tidied.Some? ==> tidied.value.Wkt?
      modifies this`again, this`checking, this`idle, this`task, this`calls, connection`work, this`events
      ensures View() == AreaChecked(old(View()), connection, tidied)
      ensures Valid() && events == old(events) + [CheckedArea(connection, tidied)]
    {
      hide AreaChecked, IsRun, Initial;
      ghost var before := View();
      RefreshOrGiveUp(connection, tidied);
      Happened(before, CheckedArea(connection, tidied));
    }

    method RefreshOrGiveUp(connection: Connection, tidied: Option<Area>)
      requires connection in connections && connection.work.CheckingArea?
      modifies this`again, this`checking, this`idle, this`task, this`calls, connection`work
      ensures View() == AreaChecked(old(View()), connection, tidied)
    {
      var work := connection.work;
      if tidied.None? {
        connection.work := Free;
        assert Clients() == old(Clients())[connection := connection.View()];
      } else {
        BeginRefresh(connection, work.kind, (tidied, work.key.1));
      }
    }

    method BeginRefresh(connection: Connection, kind: Kind, key: Key)
      requires connection in connections
      modifies this`again, this`checking, this`idle, this`task, this`calls, connection`work
      ensures View() == Refresh(old(View()), connection, kind, key)
    {
      connection.work := Refreshing(kind, key, |calls|);
      assert Clients() == old(Clients())[connection := connection.View()];
      AskForCheck();
    }

    /** The last stretch of subscribing: the notifier has been idle since. */
    method FinishSubscribe(connection: Connection)
      requires Valid() && connection in connections && connection.work.Refreshing?
      requires connection.work.call < |calls| && calls[connection.work.call].settled
      modifies connection, this`events
      ensures View() == Refreshed(cfg, old(View()), connection)
      ensures Valid() && events == old(events) + [Resuming(connection)]
    {
      hide Refreshed, IsRun, Initial;
      ghost var before := View();
      SubscribeIfAllowed(connection);
      Happened(before, Resuming(connection));
    }

    method SubscribeIfAllowed(connection: Connection)
      requires connection in connections && connection.work.Refreshing?
      modifies connection
      ensures View() == Refreshed(cfg, old(View()), connection)
    {
      hide AreaAllowed;
      var work := connection.work;
      var allowed := CheckAreaAllowed(work.key.0); // During the wait, areas may have been added
      if connection.closing || !allowed {
        connection.work := Free;
      } else {
        connection.AddSubscription(work.kind, work.key, latest);
      }
      assert Clients() == old(Clients())[connection := connection.View()];
    }

    // ----- Checks -----

    /** The step Changed. */
    method NoticeEdits()
      requires Valid()
      modifies this`again, this`checking, this`idle, this`task, this`calls, this`events
      ensures View() == EditsChanged(old(View()))
      ensures Valid() && events == old(events) + [Changed]
    {
      hide IsRun, Initial, EditsChanged;
      ghost var before := View();
      AskForCheck();
      Happened(before, Changed);
    }

    /** A check starts, or the one under way is to go round again. */
    method AskForCheck()
      modifies this`again, this`checking, this`idle, this`task, this`calls
      ensures View() == EditsChanged(old(View()))
    {
      calls := calls + [Call(LastId(log), false, false, false)];
      if checking {
        again := true; // Another read of the map follows
      } else {
        StartCheck();
      }
    }

    method StartCheck()
      modifies this`checking, this`idle, this`task
      ensures checking && !idle && task == Started
    {
      checking, idle, task := true, false, Started;
    }

    /** The step CheckBegins. */
    method BeginCheck()
      requires Valid() && task.Started?
      modifies this`again, this`task, this`calls, this`events
      ensures View() == BeginRead(old(View()))
      ensures Valid() && events == old(events) + [CheckBegins]
    {
      hide IsRun, Initial, BeginRead;
      ghost var before := View();
      AskForLatest();
      Happened(before, CheckBegins);
    }

    /** Calls from now on ask for another read than the one that is begun here. */
    method AskForLatest()
      modifies this`again, this`task, this`calls
      ensures View() == BeginRead(old(View()))
    {
      again := false;
      task := Reading;
      calls := Covered(calls);
    }

    /** The step MapReads. */
    method MapReadsLatest(ok: bool)
      requires Valid() && task.Reading?
      modifies this`task, this`events
      ensures View() == old(View()).(task := HasRead(if ok then Some(LastId(log)) else None))
      ensures Valid() && events == old(events) + [MapReads(ok)]
    {
      hide IsRun, Initial;
      ghost var before := View();
      task := HasRead(if ok then Some(LastId(log)) else None);
      assert Clients() == before.clients;
      Happened(before, MapReads(ok));
    }

    /** The source's thread answers whether a place is concerned, or with its records, or fails. */
    method MapAnswersAsk(ok: bool) returns (reply: Reply)
      requires Valid() && task.Asking? && task.reply.None?
      modifies this`task, this`events
      ensures Honest(cfg, old(View()), old(task).check, old(task).ask, reply) && (ok ==> !reply.Error?)
      ensures View() == old(View()).(task := old(task).(reply := Some(reply)))
      ensures Valid() && events == old(events) + [MapAnswers(reply)]
    {
      hide IsRun, Initial, Safe, Honest;
      ghost var before := View();
      IsSafe();
      SafeIsSorted();
      reply := AnswerOfMap(ok);
      task := task.(reply := Some(reply));
      assert Clients() == before.clients;
      Happened(before, MapAnswers(reply));
    }

    lemma SafeIsSorted()
      requires Safe(cfg, View())
      ensures Sorted(log)
    {
    }

    method AnswerOfMap(ok: bool) returns (reply: Reply)
      requires task.Asking? && Sorted(log)
      ensures Honest(cfg, View(), task.check, task.ask, reply) && (ok ==> !reply.Error?)
    {
      var first, last := latest + 1, task.check.last;
      if !ok {
        reply := Error;
      } else {
        match task.ask
        case AskPlace(place) =>
          reply := Says(|Select(log, first, last, cfg.concerns(place))| > 0);
        case AskKey(key) =>
          var messages := RecordsMessages(log, first, last, cfg.concerns(key.0), cfg.limits.recordsPerMessage);
          reply := Sends(messages);
      }
    }

    /** A check is done: another follows if something changed meanwhile. */
    method SettleCheck()
      modifies this`again, this`checking, this`idle, this`task, this`calls
      ensures View() == Settle(old(View()))
    {
      if again {
        AskForLatest();
        return;
      }
      checking, idle, task := false, true, NoTask;
      calls := Settled(calls);
    }

    /** The step CheckHasLatest. */
    method CheckLatest(next: Ask)
      requires Valid() && Enabled(cfg, View(), CheckHasLatest(next))
      modifies this`latest, this`again, this`checking, this`idle, this`task, this`calls, connections, this`events
      ensures View() == LatestRead(old(View()), next)
      ensures Valid() && events == old(events) + [CheckHasLatest(next)]
    {
      hide LatestRead, IsRun, Initial, NextIsAsked;
      ghost var before := View();
      CompareLatest(next);
      Happened(before, CheckHasLatest(next));
    }

    method CompareLatest(next: Ask)
      requires task.HasRead?
      modifies this`latest, this`again, this`checking, this`idle, this`task, this`calls, connections
      ensures View() == LatestRead(old(View()), next)
    {
      hide Settle, Continue;
      match task.latest
      case None =>
        calls := Failed(calls);
        assert View() == old(View()).(calls := Failed(old(calls)));
        SettleCheck();
      case Some(read) =>
        if read < latest {
          latest := read;
          assert View() == old(View()).(latest := read);
          SettleCheck();
        } else if read == latest {
          SettleCheck();
        } else {
          GoOn(NewCheck(read), next);
        }
    }

    /** The check has an answer from the map. */
    method CheckAnswer(next: Ask)
      requires Valid() && Enabled(cfg, View(), CheckHasAnswer(next))
      modifies this`latest, this`again, this`checking, this`idle, this`task, this`calls, connections, this`events
      ensures View() == Answered(old(View()), next)
      ensures Valid() && events == old(events) + [CheckHasAnswer(next)]
    {
      hide Continue, IsRun, Initial, NextIsAsked;
      ghost var before := View();
      GoOn(Heard(task.check, task.ask, task.reply.value), next);
      Happened(before, CheckHasAnswer(next));
    }

    function Places(): set<Place>
      reads this, connections
    {
      set c | c in connections && c.edits.Some? :: c.edits.value.place
    }

    function Keys(): set<Key>
      reads this, connections
    {
      set c | c in connections && c.records.Some? :: c.records.value.key
    }

    lemma PlacesAre()
      ensures Places() == EditPlaces(Clients()) && Keys() == RecordKeys(Clients())
    {
      var clients := Clients();
      assert forall c :: c in connections <==> c in clients;
      assert forall c :: c in connections ==> clients[c].edits == c.edits && clients[c].records == c.records;
    }

    /** Ask what is left of the round, or begin the next, or deliver what has been found out. */
    method GoOn(check: Check, next: Ask)
      modifies this`latest, this`again, this`checking, this`idle, this`task, this`calls, connections
      ensures View() == Continue(old(View()), check, next)
    {
      hide EditPlaces, RecordKeys, DeliverTo;
      var round := check;
      if check.places == {} && check.keys == {} {
        PlacesAre();
        round := check.(places := Places() - check.answers.Keys, keys := Keys() - check.records.Keys - check.failed);
      }
      if round.places != {} || round.keys != {} {
        task := Asking(round, next, None);
        return;
      }
      DeliverAll(round);
      SettleCheck();
    }

    method DeliverAll(check: Check)
      modifies this`latest, connections
      ensures View() == Deliver(old(View()), check)
    {
      hide DeliverTo;
      var first := latest + 1;
      latest := check.last;
      SendToAll(first, check);
      ghost var meant := Deliver(old(View()), check).clients;
      assert Clients().Keys == meant.Keys;
      assert forall c :: c in meant ==> Clients()[c] == meant[c];
      assert Clients() == meant;
    }

    method SendToAll(first: int, check: Check)
      modifies connections
      ensures forall c :: c in connections ==> c.View() == DeliverTo(old(c.View()), first, check)
    {
      hide DeliverTo;
      var rest := connections;
      while rest != {}
        invariant rest <= connections == old(connections)
        invariant forall c :: c in rest ==> c.View() == old(c.View())
        invariant forall c :: c in connections && c !in rest ==> c.View() == DeliverTo(old(c.View()), first, check)
        decreases |rest|
      {
        var c := Pick(rest);
        c.Receive(first, check);
        rest := rest - {c};
      }
    }
  }
}
