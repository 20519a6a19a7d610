/** What holds of the edit notifier in every state of every run: each records
    subscription has been sent exactly the records that it should have been. */
module NotifySafety {
  import opened Wrappers
  import opened EditLog
  import opened RecordMessages
  import opened NotifyProtocol

  // ----- Subscriptions -----

  /** Messages whose ranges come one after another, from a place on. */
  ghost predicate Ahead(sent: seq<Message>, i: nat, first: int, last: int, limit: nat)
    requires i < |sent|
  {
    var m := sent[i];
    && NextFirst(sent[..i], first) <= m.first <= m.last <= last
    && 0 < |m.rows| && (limit > 0 ==> |m.rows| <= limit)
    && forall r :: r in m.rows ==> m.first <= r.id <= m.last
  }

  ghost predicate InOrder(sent: seq<Message>, first: int, last: int, limit: nat) {
    forall i :: 0 <= i < |sent| ==> Ahead(sent, i, first, last, limit)
  }

  /** A records subscription has been sent exactly the concerning records after
      the ID answered when it began, in order, once each, up to the notifier's
      latest ID; or, once its connection is closing, up to some ID before. */
  ghost predicate StreamOk(cfg: Config, log: seq<Record>, latest: int, closing: bool, stream: Stream) {
    && stream.start <= stream.upto <= latest
    && (!closing ==> stream.upto == latest)
    && Content(stream.sent) == Select(log, stream.start + 1, stream.upto, cfg.concerns(stream.key.0))
    && InOrder(stream.sent, stream.start + 1, stream.upto, cfg.limits.recordsPerMessage)
  }

  predicate WasTold(told: seq<Notice>, id: int) {
    exists i :: 0 <= i < |told| && told[i].first <= id <= told[i].last
  }

  /** Where what is told after some notices starts. */
  function NextTold(told: seq<Notice>, start: int): int {
    if |told| == 0 then start + 1 else told[|told| - 1].last + 1
  }

  /** A notice is of IDs after those told of before it, and of a record that
      concerns the place, unless that was assumed. */
  ghost predicate ToldOk(log: seq<Record>, keep: Filter, latest: int, watch: Watch, i: nat)
    requires i < |watch.told|
  {
    var n := watch.told[i];
    && NextTold(watch.told[..i], watch.start) <= n.first <= n.last <= latest
    && (n.assumed || Select(log, n.first, n.last, keep) != [])
  }

  /** An edits subscription has been told of every edit since it began that may
      concern it, in ranges one after another, and of nothing without a reason. */
  ghost predicate WatchOk(cfg: Config, log: seq<Record>, latest: int, closing: bool, watch: Watch) {
    && watch.start <= latest
    && (forall i :: 0 <= i < |watch.told| ==> ToldOk(log, cfg.concerns(watch.place), latest, watch, i))
    && (!closing ==>
          forall r :: r in log && watch.start < r.id <= latest && cfg.concerns(watch.place)(r) ==> WasTold(watch.told, r.id))
  }

  /** A deadline runs exactly while nothing is subscribed to. */
  ghost predicate DeadlineOk(client: Client) {
    !client.closing ==> (client.deadline <==> client.edits.None? && client.records.None?)
  }

  ghost predicate WorkOk(client: Client, calls: nat) {
    && (client.edits.Some? || client.records.Some? || !client.work.Free? ==> client.greeted)
    && (client.work.CheckingArea? ==> !Subscribed(client, client.work.kind))
    && (client.work.Refreshing? ==> client.work.call < calls && !Subscribed(client, client.work.kind))
  }

  ghost predicate ClientOk(cfg: Config, log: seq<Record>, latest: int, calls: nat, client: Client) {
    && (client.records.Some? ==> StreamOk(cfg, log, latest, client.closing, client.records.value))
    && (client.edits.Some? ==> WatchOk(cfg, log, latest, client.closing, client.edits.value))
    && DeadlineOk(client)
    && WorkOk(client, calls)
  }

  ghost predicate ClientsOk<C>(cfg: Config, s: State<C>) {
    forall c :: c in s.clients ==> ClientOk(cfg, s.log, s.latest, |s.calls|, s.clients[c])
  }

  // ----- The check -----

  ghost predicate LogOk<C>(s: State<C>) {
    Sorted(s.log) && s.latest <= LastId(s.log)
  }

  /** One check at a time, and its flags say so. */
  ghost predicate FlagsOk<C>(s: State<C>) {
    && (s.checking <==> !s.task.NoTask?)
    && (s.idle <==> !s.checking)
    && (s.again ==> s.checking)
  }

  ghost predicate PlaceOk(log: seq<Record>, latest: int, check: Check, p: Place, keep: Filter)
    requires p in check.answers
  {
    && (p in check.assumed ==> check.answers[p])
    && (p !in check.assumed ==> (check.answers[p] <==> Select(log, latest + 1, check.last, keep) != []))
  }

  /** What a check has found out is true of the map, still. */
  ghost predicate CheckOk(cfg: Config, log: seq<Record>, latest: int, check: Check) {
    && latest < check.last <= LastId(log)
    && (forall p :: p in check.answers ==> PlaceOk(log, latest, check, p, cfg.concerns(p)))
    && (forall k :: k in check.records ==>
          IsBatch(check.records[k], log, latest + 1, check.last, cfg.concerns(k.0), cfg.limits.recordsPerMessage))
  }

  ghost predicate TaskOk<C>(cfg: Config, s: State<C>) {
    match s.task
    case HasRead(v) => v.Some? ==> s.latest <= v.value <= LastId(s.log)
    case Asking(check, ask, reply) =>
      && CheckOk(cfg, s.log, s.latest, check) && MayAsk(check, ask)
      && (reply.Some? ==> Honest(cfg, s, check, ask, reply.value))
    case _ => true
  }

  /** Every call is followed by a read of the map begun after it, before the notifier is next idle. */
  ghost predicate CallOk(task: Task, checking: bool, again: bool, latest: int, committed: int, call: Call) {
    && call.since <= committed
    && (call.settled ==> call.covered && (call.failed || call.since <= latest))
    && (!call.settled ==> checking)
    && (!call.settled && !call.covered ==> again || task.Started?)
    && (!call.settled && call.covered && !call.failed && latest < call.since ==>
          match task
          case Reading => true
          case HasRead(v) => v.Some? ==> call.since <= v.value
          case Asking(check, _, _) => call.since <= check.last
          case _ => false)
  }

  ghost predicate CallsOk<C>(s: State<C>) {
    forall i :: 0 <= i < |s.calls| ==> CallOk(s.task, s.checking, s.again, s.latest, LastId(s.log), s.calls[i])
  }

  // ----- Counts -----

  ghost predicate AreasOk<C>(cfg: Config, clients: map<C, Client>) {
    cfg.limits.maxAreas == 0 || |Areas(clients)| <= cfg.limits.maxAreas
  }

  ghost function From<C>(clients: map<C, Client>, address: string): set<C> {
    set c | c in clients && clients[c].address == address
  }

  /** The counts are the true ones, with no zero entries, and within the limits. */
  ghost predicate AddressesOk<C>(cfg: Config, s: State<C>) {
    && (forall a :: CountOf(s.perAddress, a) == |From(s.clients, a)| <= cfg.limits.maxPerAddress)
    && (forall a :: a in s.perAddress ==> s.perAddress[a] > 0)
    && |s.clients| <= cfg.limits.maxConnections
  }

  ghost predicate Safe<C>(cfg: Config, s: State<C>) {
    && LogOk(s) && FlagsOk(s) && TaskOk(cfg, s) && ClientsOk(cfg, s) && CallsOk(s)
    && AreasOk(cfg, s.clients) && AddressesOk(cfg, s)
  }

  // ----- The log grows -----

  lemma SelectGrows(log: seq<Record>, more: seq<Record>, first: int, last: int, keep: Filter)
    requires (forall r :: r in more ==> LastId(log) < r.id) && last <= LastId(log)
    ensures Select(log + more, first, last, keep) == Select(log, first, last, keep)
  {
    SelectAppend(log, more, first, last, keep);
  }

  lemma ClientOfLongerLog(cfg: Config, log: seq<Record>, more: seq<Record>, latest: int, calls: nat, client: Client)
    requires (forall r :: r in more ==> LastId(log) < r.id) && latest <= LastId(log)
    requires ClientOk(cfg, log, latest, calls, client)
    ensures ClientOk(cfg, log + more, latest, calls, client)
  {
    hide Select, Content, InOrder;
    if client.records.Some? {
      var stream := client.records.value;
      SelectGrows(log, more, stream.start + 1, stream.upto, cfg.concerns(stream.key.0));
    }
    if client.edits.Some? {
      WatchOfLongerLog(cfg, log, more, latest, client.closing, client.edits.value);
    }
  }

  lemma WatchOfLongerLog(cfg: Config, log: seq<Record>, more: seq<Record>, latest: int, closing: bool, watch: Watch)
    requires (forall r :: r in more ==> LastId(log) < r.id) && latest <= LastId(log)
    requires WatchOk(cfg, log, latest, closing, watch)
    ensures WatchOk(cfg, log + more, latest, closing, watch)
  {
    hide Select, WasTold;
    var keep := cfg.concerns(watch.place);
    forall i | 0 <= i < |watch.told|
      ensures ToldOk(log + more, keep, latest, watch, i)
    {
      assert ToldOk(log, keep, latest, watch, i);
      SelectGrows(log, more, watch.told[i].first, watch.told[i].last, keep);
    }
  }

  lemma CheckOfLongerLog(cfg: Config, log: seq<Record>, more: seq<Record>, latest: int, check: Check)
    requires (forall r :: r in more ==> LastId(log) < r.id) && Sorted(log + more)
    requires CheckOk(cfg, log, latest, check)
    ensures CheckOk(cfg, log + more, latest, check)
  {
    hide Select, IsBatch;
    forall p | p in check.answers
      ensures Select(log + more, latest + 1, check.last, cfg.concerns(p)) == Select(log, latest + 1, check.last, cfg.concerns(p))
    {
      SelectGrows(log, more, latest + 1, check.last, cfg.concerns(p));
    }
    forall k | k in check.records
      ensures IsBatch(check.records[k], log + more, latest + 1, check.last, cfg.concerns(k.0), cfg.limits.recordsPerMessage)
    {
      BatchOfLongerLog(check.records[k], log, more, latest + 1, check.last, cfg.concerns(k.0), cfg.limits.recordsPerMessage);
    }
    LastIdGrows(log, more);
  }

  lemma BatchOfLongerLog(messages: seq<Message>, log: seq<Record>, more: seq<Record>, first: int, last: int, keep: Filter,
                         limit: nat)
    requires (forall r :: r in more ==> LastId(log) < r.id) && last <= LastId(log)
    requires IsBatch(messages, log, first, last, keep, limit)
    ensures IsBatch(messages, log + more, first, last, keep, limit)
  {
    SelectGrows(log, more, first, last, keep);
  }

  lemma LastIdGrows(log: seq<Record>, more: seq<Record>)
    requires forall r :: r in more ==> LastId(log) < r.id
    ensures LastId(log) <= LastId(log + more)
  {
    if |more| > 0 {
      assert more[|more| - 1] in more;
    }
  }

  lemma CommitKeepsSafe<C>(cfg: Config, s: State<C>, more: seq<Record>)
    requires Safe(cfg, s) && Enabled(cfg, s, Commit(more))
    ensures Safe(cfg, Step(cfg, s, Commit(more)))
  {
    hide ClientOk, CheckOk, IsBatch, Select, AreasOk, From, Content;
    var t := Step(cfg, s, Commit(more));
    LastIdGrows(s.log, more);
    forall c | c in s.clients
      ensures ClientOk(cfg, t.log, t.latest, |t.calls|, t.clients[c])
    {
      ClientOfLongerLog(cfg, s.log, more, s.latest, |s.calls|, s.clients[c]);
    }
    if s.task.Asking? {
      var check := s.task.check;
      CheckOfLongerLog(cfg, s.log, more, s.latest, check);
      CheckIsOfLog(cfg, s.log, s.latest, check);
      if s.task.reply.Some? {
        HonestOfLongerLog(cfg, s, more, check, s.task.ask, s.task.reply.value);
      }
    }
  }

  lemma CheckIsOfLog(cfg: Config, log: seq<Record>, latest: int, check: Check)
    requires CheckOk(cfg, log, latest, check)
    ensures latest < check.last <= LastId(log)
  {
  }

  lemma HonestOfLongerLog<C>(cfg: Config, s: State<C>, more: seq<Record>, check: Check, ask: Ask, reply: Reply)
    requires (forall r :: r in more ==> LastId(s.log) < r.id) && check.last <= LastId(s.log)
    requires Honest(cfg, s, check, ask, reply)
    ensures Honest(cfg, s.(log := s.log + more), check, ask, reply)
  {
    hide IsBatch, Select;
    match reply
    case Says(_) =>
      SelectGrows(s.log, more, s.latest + 1, check.last, cfg.concerns(ask.place));
    case Sends(messages) =>
      BatchOfLongerLog(messages, s.log, more, s.latest + 1, check.last, cfg.concerns(ask.key.0), cfg.limits.recordsPerMessage);
    case Error =>
  }
}
