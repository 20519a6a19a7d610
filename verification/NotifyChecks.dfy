/** Checks for new edits keep the edit notifier's state safe, however they
    interleave with everything else; so every state of every run is safe. */
module NotifyChecks {
  import opened Wrappers
  import opened EditLog
  import opened RecordMessages
  import opened NotifyProtocol
  import opened NotifySafety
  import opened NotifyRanges
  import opened NotifyClients

  // ----- A check ends -----

  /** A call, in a check that has read the map up to an ID. */
  ghost predicate CallSeen(again: bool, latest: int, upto: int, committed: int, call: Call) {
    && call.since <= committed
    && (call.settled ==> call.covered && (call.failed || call.since <= latest))
    && (!call.settled && !call.covered ==> again)
    && (!call.settled && call.covered ==> call.failed || call.since <= upto)
  }

  ghost predicate CallsSeen<C>(s: State<C>, upto: int) {
    forall i :: 0 <= i < |s.calls| ==> CallSeen(s.again, s.latest, upto, LastId(s.log), s.calls[i])
  }

  /** A check under way, wherever it is. */
  ghost predicate Underway<C>(cfg: Config, s: State<C>) {
    && LogOk(s) && s.checking && !s.idle && ClientsOk(cfg, s) && AreasOk(cfg, s.clients) && AddressesOk(cfg, s)
  }

  lemma BeginReadKeepsSafe<C>(cfg: Config, s: State<C>)
    requires Underway(cfg, s) && forall i :: 0 <= i < |s.calls| ==> CallKept(s.latest, LastId(s.log), s.calls[i])
    ensures Safe(cfg, BeginRead(s))
  {
    hide ClientOk, AreasOk, AddressesOk, CallOk, CallKept;
    var t := BeginRead(s);
    SameAddressesOk(cfg, s, t);
    forall i | 0 <= i < |t.calls|
      ensures CallOk(t.task, t.checking, t.again, t.latest, LastId(t.log), t.calls[i])
    {
      assert CallKept(s.latest, LastId(s.log), s.calls[i]);
      assert t.calls[i] == s.calls[i].(covered := true);
      CoveredIsOk(s.latest, LastId(s.log), s.calls[i]);
    }
  }

  ghost predicate CallKept(latest: int, committed: int, call: Call) {
    && call.since <= committed
    && (call.settled ==> call.covered && (call.failed || call.since <= latest))
  }

  lemma CoveredIsOk(latest: int, committed: int, call: Call)
    requires CallKept(latest, committed, call)
    ensures CallOk(Reading, true, false, latest, committed, call.(covered := true))
  {
  }

  lemma SameAddressesOk<C>(cfg: Config, s: State<C>, t: State<C>)
    requires AddressesOk(cfg, s) && t.clients == s.clients && t.perAddress == s.perAddress
    ensures AddressesOk(cfg, t)
  {
  }

  lemma SettleKeepsSafe<C>(cfg: Config, s: State<C>)
    requires Underway(cfg, s) && CallsSeen(s, s.latest)
    ensures Safe(cfg, Settle(s))
  {
    hide ClientOk, AreasOk, AddressesOk, CallOk, CallSeen;
    var t := Settle(s);
    SameAddressesOk(cfg, s, t);
    if s.again {
      forall i | 0 <= i < |s.calls|
        ensures CallKept(s.latest, LastId(s.log), s.calls[i])
      {
        assert CallSeen(s.again, s.latest, s.latest, LastId(s.log), s.calls[i]);
        SeenIsKept(s.again, s.latest, s.latest, LastId(s.log), s.calls[i]);
      }
      BeginReadKeepsSafe(cfg, s);
    } else {
      forall i | 0 <= i < |t.calls|
        ensures CallOk(t.task, t.checking, t.again, t.latest, LastId(t.log), t.calls[i])
      {
        assert CallSeen(s.again, s.latest, s.latest, LastId(s.log), s.calls[i]);
        assert t.calls[i] == s.calls[i].(settled := true);
        SettledIsOk(s.latest, LastId(s.log), s.calls[i]);
      }
    }
  }

  lemma SeenIsKept(again: bool, latest: int, upto: int, committed: int, call: Call)
    requires CallSeen(again, latest, upto, committed, call)
    ensures CallKept(latest, committed, call)
  {
  }

  lemma SettledIsOk(latest: int, committed: int, call: Call)
    requires CallSeen(false, latest, latest, committed, call)
    ensures CallOk(NoTask, false, false, latest, committed, call.(settled := true))
  {
  }

  // ----- Delivery -----

  /** Every place and key that somebody subscribes to has been asked about. */
  ghost predicate Complete<C>(clients: map<C, Client>, check: Check) {
    EditPlaces(clients) <= check.answers.Keys && RecordKeys(clients) <= check.records.Keys + check.failed
  }

  lemma RoundIsComplete<C>(s: State<C>, check: Check)
    requires Done(NextRound(s, check))
    ensures Complete(s.clients, NextRound(s, check))
  {
    hide EditPlaces, RecordKeys;
    if check.places == {} && check.keys == {} {
      assert EditPlaces(s.clients) - check.answers.Keys - {} == {};
      assert RecordKeys(s.clients) - check.records.Keys - check.failed == {};
      NothingLeft(EditPlaces(s.clients), check.answers.Keys, {});
      NothingLeft(RecordKeys(s.clients), check.records.Keys, check.failed);
    }
  }

  lemma NothingLeft<T>(all: set<T>, a: set<T>, b: set<T>)
    requires all - a - b == {}
    ensures all <= a + b
  {
    forall x | x in all
      ensures x in a + b
    {
      assert x !in all - a - b;
    }
  }

  lemma RoundIsOk<C>(cfg: Config, s: State<C>, check: Check)
    requires CheckOk(cfg, s.log, s.latest, check)
    ensures CheckOk(cfg, s.log, s.latest, NextRound(s, check)) && NextRound(s, check).last == check.last
  {
    hide IsBatch, Select;
  }

  lemma {:induction false} InOrderThen(sent: seq<Message>, more: seq<Message>, first: int, mid: int, last: int, limit: nat)
    requires InOrder(sent, first, mid, limit) && FollowOn(more, mid + 1, last, limit) && first <= mid + 1 && mid <= last
    ensures InOrder(sent + more, first, last, limit)
  {
    var all := sent + more;
    forall i | 0 <= i < |all|
      ensures Ahead(all, i, first, last, limit)
    {
      if i < |sent| {
        assert Ahead(sent, i, first, mid, limit);
        assert all[..i] == sent[..i];
      } else {
        var j := i - |sent|;
        assert Follows(more, j, mid + 1, last, limit);
        if j == 0 {
          assert all[..i] == sent;
          assert |sent| > 0 ==> Ahead(sent, |sent| - 1, first, mid, limit);
        } else {
          assert all[..i][i - 1] == more[..j][j - 1];
        }
      }
    }
  }

  lemma SendIsOk(cfg: Config, log: seq<Record>, latest: int, check: Check, stream: Stream)
    requires Sorted(log) && StreamOk(cfg, log, latest, false, stream) && CheckOk(cfg, log, latest, check)
    requires stream.key in check.records
    ensures StreamOk(cfg, log, check.last, false, Send(stream, check))
  {
    hide Select, InOrder, FollowOn;
    var keep := cfg.concerns(stream.key.0);
    SelectSplit(log, stream.start + 1, latest, check.last, keep);
    ContentBoth(stream.sent, check.records[stream.key]);
    InOrderThen(stream.sent, check.records[stream.key], stream.start + 1, latest, check.last, cfg.limits.recordsPerMessage);
  }

  lemma StoppedStreamOk(cfg: Config, log: seq<Record>, latest: int, latest': int, closing: bool, stream: Stream)
    requires StreamOk(cfg, log, latest, closing, stream) && latest <= latest'
    ensures StreamOk(cfg, log, latest', true, stream)
  {
  }

  lemma ToldMore(told: seq<Notice>, n: Notice, id: int)
    ensures WasTold(told, id) || n.first <= id <= n.last ==> WasTold(told + [n], id)
  {
    var more := told + [n];
    if WasTold(told, id) {
      var i :| 0 <= i < |told| && told[i].first <= id <= told[i].last;
      assert more[i] == told[i];
    } else if n.first <= id <= n.last {
      assert more[|told|] == n;
    }
  }

  /** What was told before stays in order when the latest ID moves on. */
  lemma ToldBefore(log: seq<Record>, keep: Filter, latest: int, latest': int, watch: Watch, now: Watch, i: nat)
    requires i < |watch.told| <= |now.told| && ToldOk(log, keep, latest, watch, i) && latest <= latest'
    requires now.start == watch.start && now.told[..|watch.told|] == watch.told
    ensures ToldOk(log, keep, latest', now, i)
  {
    assert now.told[i] == now.told[..|watch.told|][i];
    assert now.told[..i] == now.told[..|watch.told|][..i];
  }

  lemma ToldNow(cfg: Config, log: seq<Record>, latest: int, check: Check, watch: Watch)
    requires Sorted(log) && WatchOk(cfg, log, latest, false, watch) && CheckOk(cfg, log, latest, check)
    requires watch.place in check.answers && check.answers[watch.place]
    ensures ToldOk(log, cfg.concerns(watch.place), check.last, Tell(watch, latest + 1, check), |watch.told|)
  {
    hide Select, IsBatch;
    var now := Tell(watch, latest + 1, check);
    assert now.told[..|watch.told|] == watch.told;
    assert |watch.told| > 0 ==> ToldOk(log, cfg.concerns(watch.place), latest, watch, |watch.told| - 1);
    assert PlaceOk(log, latest, check, watch.place, cfg.concerns(watch.place));
  }

  lemma TellIsOk(cfg: Config, log: seq<Record>, latest: int, check: Check, watch: Watch)
    requires Sorted(log) && WatchOk(cfg, log, latest, false, watch) && CheckOk(cfg, log, latest, check)
    requires watch.place in check.answers
    ensures WatchOk(cfg, log, check.last, false, Tell(watch, latest + 1, check))
  {
    hide Select, IsBatch, WasTold, ToldOk, Sorted;
    var keep, now := cfg.concerns(watch.place), Tell(watch, latest + 1, check);
    SelectContent(log, latest + 1, check.last, keep);
    assert PlaceOk(log, latest, check, watch.place, keep);
    forall r | r in log && watch.start < r.id <= check.last && keep(r)
      ensures WasTold(now.told, r.id)
    {
      ToldMore(watch.told, Notice(latest + 1, check.last, watch.place in check.assumed), r.id);
      if r.id > latest {
        assert r in Select(log, latest + 1, check.last, keep);
      }
    }
    forall i | 0 <= i < |now.told|
      ensures ToldOk(log, keep, check.last, now, i)
    {
      if i < |watch.told| {
        ToldBefore(log, keep, latest, check.last, watch, now, i);
      } else {
        ToldNow(cfg, log, latest, check, watch);
      }
    }
  }

  lemma DeliveredIsOk(cfg: Config, log: seq<Record>, latest: int, calls: nat, check: Check, client: Client)
    requires Sorted(log) && ClientOk(cfg, log, latest, calls, client) && CheckOk(cfg, log, latest, check)
    requires client.edits.Some? ==> client.edits.value.place in check.answers
    requires client.records.Some? ==> client.records.value.key in check.records.Keys + check.failed
    ensures ClientOk(cfg, log, check.last, calls, DeliverTo(client, latest + 1, check))
  {
    hide StreamOk, WatchOk, IsBatch, Select, Tell, Send;
    if client.records.Some? {
      StoppedStreamOk(cfg, log, latest, check.last, client.closing, client.records.value);
      if !client.closing && client.records.value.key !in check.failed {
        SendIsOk(cfg, log, latest, check, client.records.value);
      }
    }
    if client.edits.Some? {
      StoppedWatchOk(cfg, log, latest, check.last, client.closing, client.edits.value);
      if !client.closing {
        TellIsOk(cfg, log, latest, check, client.edits.value);
      }
    }
  }

  lemma StoppedWatchOk(cfg: Config, log: seq<Record>, latest: int, latest': int, closing: bool, watch: Watch)
    requires WatchOk(cfg, log, latest, closing, watch) && latest <= latest'
    ensures WatchOk(cfg, log, latest', true, watch)
  {
    hide WasTold, ToldOk;
    forall i | 0 <= i < |watch.told|
      ensures ToldOk(log, cfg.concerns(watch.place), latest', watch, i)
    {
      assert watch.told[..|watch.told|] == watch.told;
      ToldBefore(log, cfg.concerns(watch.place), latest, latest', watch, watch, i);
    }
  }

  lemma DeliveredAreas<C>(s: State<C>, check: Check)
    ensures Areas(Deliver(s, check).clients) == Areas(s.clients)
  {
    hide Areas;
    var t := Deliver(s, check);
    forall c | c in s.clients
      ensures AreasOf(t.clients[c]) == AreasOf(s.clients[c])
    {
    }
    hide AreasOf, Deliver;
    forall a
      ensures a in Areas(t.clients) <==> a in Areas(s.clients)
    {
      AreasAre(t.clients, a);
      AreasAre(s.clients, a);
    }
  }

  lemma DeliveredAddresses<C>(cfg: Config, s: State<C>, check: Check)
    requires AddressesOk(cfg, s)
    ensures AddressesOk(cfg, Deliver(s, check))
  {
    var t := Deliver(s, check);
    assert t.clients.Keys == s.clients.Keys;
    assert |t.clients| == |t.clients.Keys| && |s.clients| == |s.clients.Keys|;
    forall a
      ensures From(t.clients, a) == From(s.clients, a)
    {
    }
  }

  lemma DeliverKeepsClients<C>(cfg: Config, s: State<C>, check: Check)
    requires Sorted(s.log) && ClientsOk(cfg, s) && CheckOk(cfg, s.log, s.latest, check) && Complete(s.clients, check)
    ensures ClientsOk(cfg, Deliver(s, check))
  {
    hide Sorted, CheckOk, ClientOk, DeliverTo;
    forall c | c in s.clients
      ensures ClientOk(cfg, s.log, check.last, |s.calls|, DeliverTo(s.clients[c], s.latest + 1, check))
    {
      assert s.clients[c].edits.Some? ==> s.clients[c].edits.value.place in EditPlaces(s.clients);
      assert s.clients[c].records.Some? ==> s.clients[c].records.value.key in RecordKeys(s.clients);
      DeliveredIsOk(cfg, s.log, s.latest, |s.calls|, check, s.clients[c]);
    }
  }

  lemma DeliverKeepsUnderway<C>(cfg: Config, s: State<C>, check: Check)
    requires Underway(cfg, s) && CheckOk(cfg, s.log, s.latest, check) && Complete(s.clients, check)
    ensures Underway(cfg, Deliver(s, check))
  {
    DeliveredAreas(s, check);
    DeliveredAddresses(cfg, s, check);
    DeliverKeepsClients(cfg, s, check);
    CheckIsOfLog(cfg, s.log, s.latest, check);
    hide Sorted, CheckOk, ClientsOk, Areas, AddressesOk, DeliverTo, Complete;
  }

  lemma CaughtUpWith<C>(s: State<C>, check: Check)
    requires CallsSeen(s, check.last) && s.latest <= check.last
    ensures CallsSeen(Deliver(s, check), check.last)
  {
  }

  // ----- Going on with a check -----

  lemma ContinueKeepsSafe<C>(cfg: Config, s: State<C>, check: Check, next: Ask)
    requires Underway(cfg, s) && CheckOk(cfg, s.log, s.latest, check) && CallsSeen(s, check.last)
    requires NextIsAsked(s, check, next)
    ensures Safe(cfg, Continue(s, check, next))
  {
    hide ClientOk, AreasOk, AddressesOk, CallSeen, CheckOk, Select, IsBatch, Deliver, Settle, Complete, NextRound;
    var round := NextRound(s, check);
    RoundIsOk(cfg, s, check);
    CheckIsOfLog(cfg, s.log, s.latest, round);
    if Done(round) {
      RoundIsComplete(s, check);
      DeliverKeepsUnderway(cfg, s, round);
      CaughtUpWith(s, round);
      DeliveredLatest(s, round);
      SettleKeepsSafe(cfg, Deliver(s, round));
    } else {
      var t := Continue(s, check, next);
      SameAddressesOk(cfg, s, t);
      forall i | 0 <= i < |t.calls|
        ensures CallOk(t.task, t.checking, t.again, t.latest, LastId(t.log), t.calls[i])
      {
        assert CallSeen(s.again, s.latest, check.last, LastId(s.log), s.calls[i]);
        SeenWhileAsking(s.again, s.latest, LastId(s.log), s.calls[i], round, next);
      }
    }
  }

  lemma DeliveredLatest<C>(s: State<C>, check: Check)
    ensures Deliver(s, check).latest == check.last
  {
  }

  lemma SeenWhileAsking(again: bool, latest: int, committed: int, call: Call, check: Check, ask: Ask)
    requires CallSeen(again, latest, check.last, committed, call)
    ensures CallOk(Asking(check, ask, None), true, again, latest, committed, call)
  {
  }

  lemma SafeIsUnderway<C>(cfg: Config, s: State<C>, upto: int)
    requires Safe(cfg, s) && !s.task.NoTask? && !s.task.Started?
    requires s.task.HasRead? && s.task.latest.Some? ==> s.task.latest.value == upto
    requires s.task.Asking? ==> s.task.check.last == upto
    requires s.latest <= upto && (s.task.HasRead? || s.task.Asking?) && (s.task.HasRead? ==> s.task.latest.Some?)
    ensures Underway(cfg, s) && CallsSeen(s, upto)
  {
    hide ClientOk, AreasOk, AddressesOk, CheckOk, Select, IsBatch;
    forall i | 0 <= i < |s.calls|
      ensures CallSeen(s.again, s.latest, upto, LastId(s.log), s.calls[i])
    {
      assert CallOk(s.task, s.checking, s.again, s.latest, LastId(s.log), s.calls[i]);
    }
  }

  lemma FailedKeepsSafe<C>(cfg: Config, s: State<C>)
    requires Safe(cfg, s) && s.task == HasRead(None)
    ensures Safe(cfg, Settle(s.(calls := Failed(s.calls))))
  {
    hide ClientOk, AreasOk, AddressesOk, CheckOk, Settle;
    var t := s.(calls := Failed(s.calls));
    SameAddressesOk(cfg, s, t);
    forall i | 0 <= i < |t.calls|
      ensures CallSeen(t.again, t.latest, t.latest, LastId(t.log), t.calls[i])
    {
      assert CallOk(s.task, s.checking, s.again, s.latest, LastId(s.log), s.calls[i]);
      assert t.calls[i] == s.calls[i].(failed := s.calls[i].failed || s.calls[i].covered);
    }
    SettleKeepsSafe(cfg, t);
  }

  lemma NewCheckIsOk(cfg: Config, log: seq<Record>, latest: int, last: int)
    requires latest < last <= LastId(log)
    ensures CheckOk(cfg, log, latest, NewCheck(last))
  {
  }

  lemma LatestReadKeepsSafe<C>(cfg: Config, s: State<C>, next: Ask)
    requires Safe(cfg, s) && Enabled(cfg, s, CheckHasLatest(next))
    ensures Safe(cfg, LatestRead(s, next))
  {
    hide ClientsOk, AreasOk, AddressesOk, CallsOk, CallsSeen, CheckOk, Settle, Continue, NextIsAsked;
    match s.task.latest
    case None =>
      FailedKeepsSafe(cfg, s);
    case Some(latest) =>
      SafeIsUnderway(cfg, s, latest);
      if latest == s.latest {
        SettleKeepsSafe(cfg, s);
      } else {
        NewCheckIsOk(cfg, s.log, s.latest, latest);
        ContinueKeepsSafe(cfg, s, NewCheck(latest), next);
      }
  }

  lemma HeardIsOk<C>(cfg: Config, s: State<C>, check: Check, ask: Ask, reply: Reply)
    requires CheckOk(cfg, s.log, s.latest, check) && Honest(cfg, s, check, ask, reply)
    ensures CheckOk(cfg, s.log, s.latest, Heard(check, ask, reply)) && Heard(check, ask, reply).last == check.last
  {
    hide Select, IsBatch;
    var now := Heard(check, ask, reply);
    forall p | p in now.answers
      ensures PlaceOk(s.log, s.latest, now, p, cfg.concerns(p))
    {
      assert p in check.answers ==> PlaceOk(s.log, s.latest, check, p, cfg.concerns(p));
    }
  }

  lemma AnsweredKeepsSafe<C>(cfg: Config, s: State<C>, next: Ask)
    requires Safe(cfg, s) && Enabled(cfg, s, CheckHasAnswer(next))
    ensures Safe(cfg, Answered(s, next))
  {
    hide ClientsOk, AreasOk, AddressesOk, CallsOk, CallsSeen, CheckOk, Continue, NextIsAsked, Honest, Heard;
    var check := s.task.check;
    CheckIsOfLog(cfg, s.log, s.latest, check);
    SafeIsUnderway(cfg, s, check.last);
    HeardIsOk(cfg, s, check, s.task.ask, s.task.reply.value);
    ContinueKeepsSafe(cfg, s, Heard(check, s.task.ask, s.task.reply.value), next);
  }

  lemma CheckBeginsKeepsSafe<C>(cfg: Config, s: State<C>)
    requires Safe(cfg, s) && s.task.Started?
    ensures Safe(cfg, BeginRead(s))
  {
    hide ClientOk, AreasOk, AddressesOk, BeginRead;
    forall i | 0 <= i < |s.calls|
      ensures CallKept(s.latest, LastId(s.log), s.calls[i])
    {
      assert CallOk(s.task, s.checking, s.again, s.latest, LastId(s.log), s.calls[i]);
    }
    BeginReadKeepsSafe(cfg, s);
  }

  lemma MapReadsKeepsSafe<C>(cfg: Config, s: State<C>, ok: bool)
    requires Safe(cfg, s) && s.task.Reading?
    ensures Safe(cfg, Step(cfg, s, MapReads(ok)))
  {
    hide ClientOk, AreasOk, AddressesOk;
    var t := Step(cfg, s, MapReads(ok));
    SameAddressesOk(cfg, s, t);
    forall i | 0 <= i < |t.calls|
      ensures CallOk(t.task, t.checking, t.again, t.latest, LastId(t.log), t.calls[i])
    {
      assert CallOk(s.task, s.checking, s.again, s.latest, LastId(s.log), s.calls[i]);
    }
  }

  lemma MapAnswersKeepsSafe<C>(cfg: Config, s: State<C>, reply: Reply)
    requires Safe(cfg, s) && Enabled(cfg, s, MapAnswers(reply))
    ensures Safe(cfg, Step(cfg, s, MapAnswers(reply)))
  {
    hide ClientOk, AreasOk, AddressesOk, CheckOk, Select, IsBatch;
    var t := Step(cfg, s, MapAnswers(reply));
    SameAddressesOk(cfg, s, t);
    forall i | 0 <= i < |t.calls|
      ensures CallOk(t.task, t.checking, t.again, t.latest, LastId(t.log), t.calls[i])
    {
      assert CallOk(s.task, s.checking, s.again, s.latest, LastId(s.log), s.calls[i]);
    }
  }

  // ----- Every run -----

  /** Whatever happens next, the state stays safe. */
  lemma StepKeepsSafe<C>(cfg: Config, s: State<C>, e: Event<C>)
    requires Safe(cfg, s) && Enabled(cfg, s, e)
    ensures Safe(cfg, Step(cfg, s, e))
  {
    hide Safe;
    match e
    case Commit(more) => CommitKeepsSafe(cfg, s, more);
    case Connecting(c, address) => ConnectKeepsSafe(cfg, s, c, address);
    case Losing(c) => LoseKeepsSafe(cfg, s, c);
    case Closing(c) => ClosingKeepsSafe(cfg, s, c);
    case SayingHello(c) => HelloKeepsSafe(cfg, s, c);
    case Subscribing(c, kind, key) => RequestKeepsSafe(cfg, s, c, kind, key);
    case CheckedArea(c, tidied) => AreaCheckedKeepsSafe(cfg, s, c, tidied);
    case Resuming(c) => RefreshedKeepsSafe(cfg, s, c);
    case Unsubscribing(c, kind) => UnsubscribeKeepsSafe(cfg, s, c, kind);
    case Changed => ChangedKeepsSafe(cfg, s);
    case CheckBegins => CheckBeginsKeepsSafe(cfg, s);
    case MapReads(ok) => MapReadsKeepsSafe(cfg, s, ok);
    case CheckHasLatest(next) => LatestReadKeepsSafe(cfg, s, next);
    case MapAnswers(reply) => MapAnswersKeepsSafe(cfg, s, reply);
    case CheckHasAnswer(next) => AnsweredKeepsSafe(cfg, s, next);
  }

  lemma InitialIsSafe<C>(cfg: Config, s: State<C>)
    requires Initial(s)
    ensures Safe(cfg, s)
  {
    assert Areas(s.clients) == {};
    forall a
      ensures From(s.clients, a) == {}
    {
    }
  }

  /** Every state that a run can reach is safe. */
  lemma {:induction false} RunsAreSafe<C>(cfg: Config, s: State<C>, events: seq<Event<C>>, end: State<C>)
    requires Safe(cfg, s) && IsRun(cfg, s, events, end)
    ensures Safe(cfg, end)
    decreases |events|
  {
    hide Safe, Step, Enabled;
    if |events| > 0 {
      StepKeepsSafe(cfg, s, events[0]);
      RunsAreSafe(cfg, Step(cfg, s, events[0]), events[1..], end);
    }
  }

  // ----- What a safe state means for those who use the notifier -----

  /** An open records subscription has been sent exactly the concerning records
      with IDs from just after the one answered when it began up to the
      notifier's latest, in order and once each. */
  lemma ExactlyOnce<C>(cfg: Config, s: State<C>, events: seq<Event<C>>, end: State<C>, c: C)
    requires Initial(s) && IsRun(cfg, s, events, end)
    requires c in end.clients && end.clients[c].records.Some? && !end.clients[c].closing
    ensures
      var stream := end.clients[c].records.value;
      Content(stream.sent) == Select(end.log, stream.start + 1, end.latest, cfg.concerns(stream.key.0))
  {
    InitialIsSafe(cfg, s);
    RunsAreSafe(cfg, s, events, end);
  }

  /** One that is closing has been sent a first part of that, without a gap. */
  lemma NothingPastAGap<C>(cfg: Config, s: State<C>, events: seq<Event<C>>, end: State<C>, c: C)
    requires Initial(s) && IsRun(cfg, s, events, end)
    requires c in end.clients && end.clients[c].records.Some?
    ensures
      var stream := end.clients[c].records.value;
      Content(stream.sent) <= Select(end.log, stream.start + 1, end.latest, cfg.concerns(stream.key.0))
  {
    InitialIsSafe(cfg, s);
    RunsAreSafe(cfg, s, events, end);
    var stream := end.clients[c].records.value;
    SelectSplit(end.log, stream.start + 1, stream.upto, end.latest, cfg.concerns(stream.key.0));
  }

  /** The ranges of the messages come one after another, from the subscription's
      start on. Each message holds exactly the concerning records of its range,
      and none lies before a range, between two, or after the last. */
  lemma RangesGoOn<C>(cfg: Config, s: State<C>, events: seq<Event<C>>, end: State<C>, c: C)
    requires Initial(s) && IsRun(cfg, s, events, end)
    requires c in end.clients && end.clients[c].records.Some?
    ensures
      var stream := end.clients[c].records.value;
      var keep := cfg.concerns(stream.key.0);
      && InOrder(stream.sent, stream.start + 1, end.latest, cfg.limits.recordsPerMessage)
      && AllExact(end.log, keep, stream.sent, stream.start + 1)
      && (!end.clients[c].closing ==> Select(end.log, NextFirst(stream.sent, stream.start + 1), end.latest, keep) == [])
  {
    InitialIsSafe(cfg, s);
    RunsAreSafe(cfg, s, events, end);
    var stream := end.clients[c].records.value;
    var keep, limit := cfg.concerns(stream.key.0), cfg.limits.recordsPerMessage;
    assert ClientOk(cfg, end.log, end.latest, |end.calls|, end.clients[c]);
    hide Select, InOrder, AllExact, Content, Sorted, WatchOk, CheckOk, Honest;
    RangesAreExact(end.log, stream.sent, stream.start + 1, stream.upto, keep, limit);
    InOrderBelow(stream.sent, stream.start + 1, stream.upto, end.latest, limit);
  }

  /** When the notifier is idle, every call that asked it to check has been
      followed by a read of the map; unless a check failed, it has caught up with
      everything committed before the call. */
  lemma NoCallIsLost<C>(cfg: Config, s: State<C>, events: seq<Event<C>>, end: State<C>, i: nat)
    requires Initial(s) && IsRun(cfg, s, events, end) && i < |end.calls|
    requires end.idle || end.calls[i].settled
    ensures end.calls[i].settled && end.calls[i].covered
    ensures end.calls[i].failed || end.calls[i].since <= end.latest
  {
    InitialIsSafe(cfg, s);
    RunsAreSafe(cfg, s, events, end);
  }

  /** A check is only started when none is under way. */
  lemma OneCheckAtATime<C>(cfg: Config, s: State<C>, events: seq<Event<C>>, end: State<C>)
    requires Initial(s) && IsRun(cfg, s, events, end)
    ensures end.checking <==> !end.task.NoTask?
    ensures EditsChanged(end).task == if end.task.NoTask? then Started else end.task
  {
    InitialIsSafe(cfg, s);
    RunsAreSafe(cfg, s, events, end);
  }

  /** An open edits subscription has been told of every edit since it began that may concern it. */
  lemma EditsAreTold<C>(cfg: Config, s: State<C>, events: seq<Event<C>>, end: State<C>, c: C, r: Record)
    requires Initial(s) && IsRun(cfg, s, events, end)
    requires c in end.clients && end.clients[c].edits.Some? && !end.clients[c].closing
    requires
      var watch := end.clients[c].edits.value;
      r in end.log && watch.start < r.id <= end.latest && cfg.concerns(watch.place)(r)
    ensures WasTold(end.clients[c].edits.value.told, r.id)
  {
    InitialIsSafe(cfg, s);
    RunsAreSafe(cfg, s, events, end);
  }

  /** The log has a record of a notice's range that concerns somebody. */
  ghost predicate Concerned(log: seq<Record>, keep: Filter, n: Notice) {
    exists r :: r in log && n.first <= r.id <= n.last && keep(r)
  }

  /** What an edits subscription is told is in order, of no ID twice, and not
      without a reason: a record of the range concerns the place, or that was
      assumed, as nobody asks about everywhere and not every question is answered. */
  lemma EditsAreToldOnce<C>(cfg: Config, s: State<C>, events: seq<Event<C>>, end: State<C>, c: C)
    requires Initial(s) && IsRun(cfg, s, events, end)
    requires c in end.clients && end.clients[c].edits.Some?
    ensures
      var watch := end.clients[c].edits.value;
      && (forall i, j :: 0 <= i < j < |watch.told| ==> watch.told[i].last < watch.told[j].first)
      && (forall i :: 0 <= i < |watch.told| ==>
            && watch.start < watch.told[i].first <= watch.told[i].last <= end.latest
            && (watch.told[i].assumed || Concerned(end.log, cfg.concerns(watch.place), watch.told[i])))
  {
    InitialIsSafe(cfg, s);
    RunsAreSafe(cfg, s, events, end);
    var watch := end.clients[c].edits.value;
    var keep := cfg.concerns(watch.place);
    hide Select, WasTold, NextTold;
    forall i | 0 <= i < |watch.told|
      ensures watch.told[i].first <= watch.told[i].last <= end.latest
      ensures watch.told[i].assumed || Concerned(end.log, keep, watch.told[i])
    {
      var n := watch.told[i];
      assert ToldOk(end.log, keep, end.latest, watch, i);
      SelectContent(end.log, n.first, n.last, keep);
      if !n.assumed {
        var r := Select(end.log, n.first, n.last, keep)[0];
        assert r in Select(end.log, n.first, n.last, keep);
      }
    }
    forall j | 0 <= j < |watch.told|
      ensures watch.start < watch.told[j].first && forall i :: 0 <= i < j ==> watch.told[i].last < watch.told[j].first
    {
      ToldInOrder(cfg, end.log, end.latest, end.clients[c].closing, watch, j);
    }
  }

  lemma {:induction false} ToldInOrder(cfg: Config, log: seq<Record>, latest: int, closing: bool, watch: Watch, j: nat)
    requires WatchOk(cfg, log, latest, closing, watch) && j < |watch.told|
    ensures watch.start < watch.told[j].first && forall i :: 0 <= i < j ==> watch.told[i].last < watch.told[j].first
  {
    hide Select, WasTold;
    assert ToldOk(log, cfg.concerns(watch.place), latest, watch, j);
    if j > 0 {
      ToldInOrder(cfg, log, latest, closing, watch, j - 1);
      assert ToldOk(log, cfg.concerns(watch.place), latest, watch, j - 1);
      assert watch.told[..j][j - 1] == watch.told[j - 1];
    }
  }

  /** The limits hold throughout: on the areas followed, although two checks of
      them are apart, and on connections, which are counted exactly; and exactly
      the connections without a subscription have a deadline. */
  lemma LimitsHold<C>(cfg: Config, s: State<C>, events: seq<Event<C>>, end: State<C>)
    requires Initial(s) && IsRun(cfg, s, events, end)
    ensures cfg.limits.maxAreas > 0 ==> |Areas(end.clients)| <= cfg.limits.maxAreas
    ensures |end.clients| <= cfg.limits.maxConnections
    ensures forall a :: a in end.perAddress <==> From(end.clients, a) != {}
    ensures forall a :: a in end.perAddress ==> end.perAddress[a] == |From(end.clients, a)| <= cfg.limits.maxPerAddress
    ensures forall c :: c in end.clients && !end.clients[c].closing ==>
      (end.clients[c].deadline <==> end.clients[c].edits.None? && end.clients[c].records.None?)
  {
    InitialIsSafe(cfg, s);
    RunsAreSafe(cfg, s, events, end);
    hide Areas, StreamOk, WatchOk, CallOk, CheckOk, Honest, Sorted;
    forall a
      ensures a in end.perAddress <==> From(end.clients, a) != {}
    {
      assert CountOf(end.perAddress, a) == |From(end.clients, a)|;
    }
    forall c | c in end.clients
      ensures DeadlineOk(end.clients[c])
    {
      assert ClientOk(cfg, end.log, end.latest, |end.calls|, end.clients[c]);
    }
  }

  // ----- Subscriptions last -----

  /** What a step leaves of a records subscription: it goes on, and some messages
      are added to what it has been sent. */
  ghost predicate GoesOn(before: Option<Stream>, after: Option<Stream>, added: seq<Message>) {
    before.Some? ==>
      && after.Some? && after.value.key == before.value.key && after.value.start == before.value.start
      && after.value.sent == before.value.sent + added
  }

  ghost predicate Ends<C>(e: Event<C>, c: C) {
    e == Losing(c) || e == Unsubscribing(c, Records)
  }

  ghost predicate Keeps<C>(s: State<C>, t: State<C>, c: C, added: seq<Message>) {
    c in s.clients ==> c in t.clients && GoesOn(s.clients[c].records, t.clients[c].records, added)
  }

  /** What a client has been sent in one state and not yet in another. */
  function Added<C>(s: State<C>, t: State<C>, c: C): seq<Message> {
    if c in s.clients && s.clients[c].records.Some? && c in t.clients && t.clients[c].records.Some?
       && |s.clients[c].records.value.sent| <= |t.clients[c].records.value.sent|
    then t.clients[c].records.value.sent[|s.clients[c].records.value.sent|..]
    else []
  }

  /** What a client that is sent what a check has found gets for its records subscription. */
  function AddedBy(client: Client, check: Check): seq<Message> {
    if client.closing || client.records.None? || client.records.value.key !in check.records then []
    else if client.records.value.key in check.failed then []
    else check.records[client.records.value.key]
  }

  /** Nothing is added in a step, or a whole batch of the records that the
      notifier has caught up with in it. */
  ghost predicate IsAdded<C>(cfg: Config, s: State<C>, t: State<C>, c: C, added: seq<Message>) {
    added == [] ||
    (c in s.clients && s.clients[c].records.Some? && t.log == s.log && s.latest < t.latest &&
     IsBatch(added, t.log, s.latest + 1, t.latest, cfg.concerns(s.clients[c].records.value.key.0), cfg.limits.recordsPerMessage))
  }

  lemma SameClientsKeep<C>(s: State<C>, t: State<C>, c: C)
    requires t.clients == s.clients
    ensures Keeps(s, t, c, [])
  {
  }

  lemma SetKeeps<C>(s: State<C>, d: C, client: Client, c: C)
    requires d in s.clients && (c == d ==> GoesOn(s.clients[d].records, client.records, []))
    ensures Keeps(s, Set(s, d, client), c, [])
  {
  }

  lemma ContinueKeeps<C>(cfg: Config, s: State<C>, check: Check, next: Ask, c: C) returns (added: seq<Message>)
    requires CheckOk(cfg, s.log, s.latest, check)
    ensures Keeps(s, Continue(s, check, next), c, added) && IsAdded(cfg, s, Continue(s, check, next), c, added)
  {
    hide DeliverTo, NextRound, IsBatch, CheckOk, AddedBy;
    var round, t := NextRound(s, check), Continue(s, check, next);
    RoundIsOk(cfg, s, check);
    CheckIsOfLog(cfg, s.log, s.latest, round);
    added := [];
    if c in s.clients {
      if Done(round) {
        added := AddedBy(s.clients[c], round);
        DeliverGoesOn(s.clients[c], s.latest + 1, round);
        AddedIsBatch(cfg, s.log, s.latest, s.clients[c], round);
      } else {
        SameClientsKeep(s, t, c);
      }
    }
  }

  lemma DeliverGoesOn(client: Client, first: int, check: Check)
    ensures GoesOn(client.records, DeliverTo(client, first, check).records, AddedBy(client, check))
  {
  }

  lemma AddedIsBatch(cfg: Config, log: seq<Record>, latest: int, client: Client, check: Check)
    requires CheckOk(cfg, log, latest, check)
    ensures AddedBy(client, check) == [] ||
      (client.records.Some? && IsBatch(AddedBy(client, check), log, latest + 1, check.last,
                                       cfg.concerns(client.records.value.key.0), cfg.limits.recordsPerMessage))
  {
    hide IsBatch, Select;
  }

  lemma LatestReadKeeps<C>(cfg: Config, s: State<C>, next: Ask, c: C) returns (added: seq<Message>)
    requires s.task.HasRead? && TaskOk(cfg, s)
    ensures Keeps(s, LatestRead(s, next), c, added) && IsAdded(cfg, s, LatestRead(s, next), c, added)
  {
    hide Continue, Keeps, CheckOk, IsBatch;
    added := [];
    if s.task.latest.Some? && s.task.latest.value > s.latest {
      NewCheckIsOk(cfg, s.log, s.latest, s.task.latest.value);
      added := ContinueKeeps(cfg, s, NewCheck(s.task.latest.value), next, c);
    } else {
      SameClientsKeep(s, LatestRead(s, next), c);
    }
  }

  lemma RefreshedKeeps<C>(cfg: Config, s: State<C>, d: C, c: C)
    requires d in s.clients && s.clients[d].work.Refreshing? && !Subscribed(s.clients[d], s.clients[d].work.kind)
    ensures Keeps(s, Refreshed(cfg, s, d), c, [])
  {
    hide AreaAllowed;
    var client := s.clients[d];
    SetKeeps(s, d, client.(work := Free), c);
    SetKeeps(s, d, Subscribe(client, client.work.kind, client.work.key, s.latest), c);
    hide Keeps, Subscribe;
  }

  lemma RefreshKeeps<C>(s: State<C>, d: C, kind: Kind, key: Key, c: C)
    requires d in s.clients
    ensures Keeps(s, Refresh(s, d, kind, key), c, [])
  {
    SetKeeps(s, d, s.clients[d].(work := Refreshing(kind, key, |s.calls|)), c);
  }

  lemma RequestKeeps<C>(cfg: Config, s: State<C>, d: C, kind: Kind, key: Key, c: C)
    requires d in s.clients
    ensures Keeps(s, RequestSubscribe(cfg, s, d, kind, key), c, [])
  {
    SetKeeps(s, d, s.clients[d].(work := CheckingArea(kind, key)), c);
    RefreshKeeps(s, d, kind, key, c);
    SameClientsKeep(s, s, c);
    hide AreaAllowed, Keeps, Refresh;
  }

  lemma UnsubscribeKeeps<C>(s: State<C>, d: C, kind: Kind, c: C)
    requires d in s.clients && (c == d ==> kind.Edits?)
    ensures Keeps(s, Set(s, d, Unsubscribe(s.clients[d], kind)), c, [])
  {
  }

  lemma ConnectKeeps<C>(cfg: Config, s: State<C>, d: C, address: string, c: C)
    requires d !in s.clients
    ensures Keeps(s, Connect(cfg, s, d, address), c, [])
  {
  }

  lemma AnsweredKeeps<C>(cfg: Config, s: State<C>, next: Ask, c: C) returns (added: seq<Message>)
    requires s.task.Asking? && s.task.reply.Some? && TaskOk(cfg, s)
    ensures Keeps(s, Answered(s, next), c, added) && IsAdded(cfg, s, Answered(s, next), c, added)
  {
    hide Continue, Keeps, CheckOk, IsBatch, IsAdded, Heard, Honest;
    HeardIsOk(cfg, s, s.task.check, s.task.ask, s.task.reply.value);
    added := ContinueKeeps(cfg, s, Heard(s.task.check, s.task.ask, s.task.reply.value), next, c);
  }

  /** Only its connection's going, or its own request, ends a records
      subscription: nothing it was sent is taken back, and its start stays. What a
      step adds is nothing, or messages of one check: they begin just after the ID
      that was the latest, each begins just after the one before, and together
      they are exactly the concerning records up to the ID that is now the latest. */
  lemma SubscriptionsGoOn<C>(cfg: Config, s: State<C>, e: Event<C>, c: C)
    requires Safe(cfg, s) && Enabled(cfg, s, e) && !Ends(e, c)
    ensures
      var t := Step(cfg, s, e);
      Keeps(s, t, c, Added(s, t, c)) && IsAdded(cfg, s, t, c, Added(s, t, c))
  {
    var added := StepAdds(cfg, s, e, c);
    NothingIsAdded(cfg, s, Step(cfg, s, e), c);
    hide Step, IsAdded, Safe, Enabled;
  }

  lemma StepAdds<C>(cfg: Config, s: State<C>, e: Event<C>, c: C) returns (added: seq<Message>)
    requires Safe(cfg, s) && Enabled(cfg, s, e) && !Ends(e, c)
    ensures Keeps(s, Step(cfg, s, e), c, added) && IsAdded(cfg, s, Step(cfg, s, e), c, added)
  {
    hide Keeps, IsAdded, Honest, NextIsAsked, Continue, LatestRead, Answered, Refreshed, Refresh, RequestSubscribe, Connect,
         Unsubscribe, AreaAllowed, EditsChanged, LogOk, FlagsOk, TaskOk, CallsOk, AreasOk, AddressesOk, StreamOk, WatchOk, Sorted;
    added := [];
    NothingIsAdded(cfg, s, Step(cfg, s, e), c);
    match e
    case CheckHasLatest(next) => added := LatestReadKeeps(cfg, s, next, c);
    case CheckHasAnswer(next) => added := AnsweredKeeps(cfg, s, next, c);
    case Resuming(d) =>
      assert ClientOk(cfg, s.log, s.latest, |s.calls|, s.clients[d]);
      RefreshedKeeps(cfg, s, d, c);
    case Unsubscribing(d, kind) => UnsubscribeKeeps(s, d, kind, c);
    case Subscribing(d, kind, key) => RequestKeeps(cfg, s, d, kind, key, c);
    case CheckedArea(d, tidied) => AreaCheckedKeeps(s, d, tidied, c);
    case Connecting(d, address) => ConnectKeeps(cfg, s, d, address, c);
    case Losing(d) => LoseKeeps(s, d, c);
    case Closing(d) => SetKeeps(s, d, s.clients[d].(closing := true), c);
    case SayingHello(d) => SetKeeps(s, d, Hello(s.clients[d]), c);
    case _ => OtherStepKeeps(cfg, s, e, c);
  }

  lemma NothingIsAdded<C>(cfg: Config, s: State<C>, t: State<C>, c: C)
    ensures IsAdded(cfg, s, t, c, [])
  {
  }

  lemma LoseKeeps<C>(s: State<C>, d: C, c: C)
    requires d in s.clients && c != d
    ensures Keeps(s, Lose(s, d), c, [])
  {
  }

  lemma AreaCheckedKeeps<C>(s: State<C>, d: C, tidied: Option<Area>, c: C)
    requires d in s.clients && s.clients[d].work.CheckingArea?
    ensures Keeps(s, AreaChecked(s, d, tidied), c, [])
  {
    SetKeeps(s, d, s.clients[d].(work := Free), c);
    if tidied.Some? {
      RefreshKeeps(s, d, s.clients[d].work.kind, (tidied, s.clients[d].work.key.1), c);
    }
    hide Keeps, Refresh;
  }

  lemma OtherStepKeeps<C>(cfg: Config, s: State<C>, e: Event<C>, c: C)
    requires Enabled(cfg, s, e) && (e.Commit? || e.Changed? || e.CheckBegins? || e.MapReads? || e.MapAnswers?)
    ensures Keeps(s, Step(cfg, s, e), c, [])
  {
    hide Keeps, Honest;
    SameClientsKeep(s, Step(cfg, s, e), c);
  }
}
