/** The edit notifier as a state machine. It runs in one loop, so each stretch of
    a task between two waits is one step; between them, the map's log grows,
    clients come, ask, and go, and the map answers what it was asked. */
module NotifyProtocol {
  import opened Wrappers
  import opened EditLog
  import opened RecordMessages

  datatype Area = Bbox(west: real, south: real, east: real, north: real) | Wkt(text: string)

  /** An area, or None for everywhere. */
  type Place = Option<Area>

  datatype Format = Xml | MsgPack

  /** What a records subscription is to; an edits subscription is to its place alone. */
  type Key = (Place, Format)

  datatype Kind = Edits | Records

  datatype Limits = Limits(maxConnections: nat, maxPerAddress: nat, maxAreas: nat, recordsPerMessage: nat)

  /** What stays the same: the limits, and which records concern which place. */
  datatype Config = Config(limits: Limits, concerns: Place -> Filter)

  /** What an edits subscription is told: that edits of an ID range concern it, as
      the map said or as was assumed without an answer. */
  datatype Notice = Notice(first: int, last: int, assumed: bool)

  /** An edits subscription, the ID answered when it began, and what it has been told. */
  datatype Watch = Watch(place: Place, start: int, told: seq<Notice>)

  /** A records subscription, the ID answered when it began, the ID up to which
      it has been sent records, and the messages that it has been sent. */
  datatype Stream = Stream(key: Key, start: int, upto: int, sent: seq<Message>)

  /** What the task that handles a connection's requests waits for. */
  datatype Work = Free | CheckingArea(kind: Kind, key: Key) | Refreshing(kind: Kind, key: Key, call: nat)

  /** A connection that was admitted and has not been lost. */
  datatype Client = Client(address: string, greeted: bool, closing: bool, deadline: bool,
                           edits: Option<Watch>, records: Option<Stream>, work: Work)

  /** A call of edits_changed or refresh: the last edit committed before it,
      whether a read of the map has begun since, whether a check with such a read
      failed, and whether the notifier has been idle since. */
  datatype Call = Call(since: int, covered: bool, failed: bool, settled: bool)

  /** What a check has found out so far, the places that it takes to be concerned
      without an answer, and what is left to ask in this round. */
  datatype Check = Check(last: int, answers: map<Place, bool>, assumed: set<Place>, records: map<Key, seq<Message>>,
                         failed: set<Key>, places: set<Place>, keys: set<Key>)

  /** A check before anything is asked: everywhere is always concerned. */
  function NewCheck(last: int): Check {
    Check(last, map[None := true], {None}, map[], {}, {}, {})
  }

  datatype Ask = AskPlace(place: Place) | AskKey(key: Key)

  datatype Reply = Says(concerned: bool) | Sends(messages: seq<Message>) | Error

  /** Where the check task is. */
  datatype Task = NoTask | Started | Reading | HasRead(latest: Option<int>) | Asking(check: Check, ask: Ask, reply: Option<Reply>)

  datatype State<C> = State(log: seq<Record>, clients: map<C, Client>, perAddress: map<string, int>, latest: int,
                            checking: bool, again: bool, idle: bool, task: Task, calls: seq<Call>)

  function LastId(log: seq<Record>): int {
    if |log| == 0 then 0 else log[|log| - 1].id
  }

  ghost predicate Initial<C>(s: State<C>) {
    && Sorted(s.log) && s.latest == LastId(s.log)
    && s.clients == map[] && s.perAddress == map[] && s.calls == []
    && !s.checking && !s.again && s.idle && s.task == NoTask
  }

  // ----- Areas -----

  function EditPlaces<C>(clients: map<C, Client>): set<Place> {
    set c | c in clients && clients[c].edits.Some? :: clients[c].edits.value.place
  }

  function RecordKeys<C>(clients: map<C, Client>): set<Key> {
    set c | c in clients && clients[c].records.Some? :: clients[c].records.value.key
  }

  /** The areas that some subscription has; to follow everywhere is to have none. */
  function Areas<C>(clients: map<C, Client>): set<Area> {
    (set p | p in EditPlaces(clients) && p.Some? :: p.value) + (set k | k in RecordKeys(clients) && k.0.Some? :: k.0.value)
  }

  predicate AreaAllowed<C>(cfg: Config, clients: map<C, Client>, place: Place) {
    place.None? || cfg.limits.maxAreas == 0 || place.value in Areas(clients) || |Areas(clients)| < cfg.limits.maxAreas
  }

  // ----- Connections -----

  function CountOf(perAddress: map<string, int>, address: string): int {
    if address in perAddress then perAddress[address] else 0
  }

  /** A new connection, admitted if there is room for it. */
  function Connect<C>(cfg: Config, s: State<C>, c: C, address: string): State<C> {
    if HasRoom(cfg, s, address) then Admitted(s, c, NewClient(address)) else s
  }

  predicate HasRoom<C>(cfg: Config, s: State<C>, address: string) {
    |s.clients| < cfg.limits.maxConnections && CountOf(s.perAddress, address) < cfg.limits.maxPerAddress
  }

  /** A connection that has some time to say hello. */
  function NewClient(address: string): Client {
    Client(address, false, false, true, None, None, Free)
  }

  function Admitted<C>(s: State<C>, c: C, client: Client): State<C> {
    s.(clients := s.clients[c := client],
       perAddress := s.perAddress[client.address := CountOf(s.perAddress, client.address) + 1])
  }

  function Lose<C>(s: State<C>, c: C): State<C>
    requires c in s.clients
  {
    var address := s.clients[c].address;
    var remaining := (if address in s.perAddress then s.perAddress[address] else 1) - 1;
    s.(clients := s.clients - {c},
       perAddress := if remaining != 0 then s.perAddress[address := remaining] else s.perAddress - {address})
  }

  function Set<C>(s: State<C>, c: C, client: Client): State<C> {
    s.(clients := s.clients[c := client])
  }

  function Hello(client: Client): Client {
    if client.greeted then client else client.(greeted := true, deadline := true)
  }

  predicate Subscribed(client: Client, kind: Kind) {
    if kind.Edits? then client.edits.Some? else client.records.Some?
  }

  function Unsubscribe(client: Client, kind: Kind): Client {
    if !Subscribed(client, kind) then client
    else
      var without := if kind.Edits? then client.(edits := None) else client.(records := None);
      if without.edits.None? && without.records.None? then without.(deadline := true) else without
  }

  function Subscribe(client: Client, kind: Kind, key: Key, latest: int): Client {
    var subscribed :=
      if kind.Edits? then client.(edits := Some(Watch(key.0, latest, [])))
      else client.(records := Some(Stream(key, latest, latest, [])));
    subscribed.(deadline := false, work := Free)
  }

  /** A request to subscribe: refused, or waiting for its area to be checked, or for the map to be caught up with. */
  function RequestSubscribe<C>(cfg: Config, s: State<C>, c: C, kind: Kind, key: Key): State<C>
    requires c in s.clients
  {
    if Subscribed(s.clients[c], kind) || !AreaAllowed(cfg, s.clients, key.0) then s
    else if key.0.Some? && key.0.value.Wkt? then Set(s, c, s.clients[c].(work := CheckingArea(kind, key)))
    else Refresh(s, c, kind, key)
  }

  /** The map has tidied the area, or refused it. */
  function AreaChecked<C>(s: State<C>, c: C, tidied: Option<Area>): State<C>
    requires c in s.clients && s.clients[c].work.CheckingArea?
  {
    var work := s.clients[c].work;
    if tidied.None? then Set(s, c, s.clients[c].(work := Free))
    else Refresh(s, c, work.kind, (tidied, work.key.1))
  }

  function Refresh<C>(s: State<C>, c: C, kind: Kind, key: Key): State<C>
    requires c in s.clients
  {
    EditsChanged(Set(s, c, s.clients[c].(work := Refreshing(kind, key, |s.calls|))))
  }

  /** The notifier has been idle: the subscription begins, if it still may. */
  function Refreshed<C>(cfg: Config, s: State<C>, c: C): State<C>
    requires c in s.clients && s.clients[c].work.Refreshing?
  {
    var client := s.clients[c];
    if client.closing || !AreaAllowed(cfg, s.clients, client.work.key.0) then Set(s, c, client.(work := Free))
    else Set(s, c, Subscribe(client, client.work.kind, client.work.key, s.latest))
  }

  // ----- Checks -----

  /** A call is recorded. It starts the check task, or leaves the one there is a flag to go round
      again. */
  function EditsChanged<C>(s: State<C>): State<C> {
    var called := s.(calls := s.calls + [Call(LastId(s.log), false, false, false)]);
    if s.checking then called.(again := true) else called.(checking := true, idle := false, task := Started)
  }

  function Covered(calls: seq<Call>): seq<Call> {
    seq(|calls|, i requires 0 <= i < |calls| => calls[i].(covered := true))
  }

  function Failed(calls: seq<Call>): seq<Call> {
    seq(|calls|, i requires 0 <= i < |calls| => calls[i].(failed := calls[i].failed || calls[i].covered))
  }

  function Settled(calls: seq<Call>): seq<Call> {
    seq(|calls|, i requires 0 <= i < |calls| => calls[i].(settled := true))
  }

  /** The check asks for the map's latest ID. */
  function BeginRead<C>(s: State<C>): State<C> {
    s.(again := false, task := Reading, calls := Covered(s.calls))
  }

  /** A check is done: another follows if something changed meanwhile. */
  function Settle<C>(s: State<C>): State<C> {
    if s.again then BeginRead(s)
    else s.(checking := false, idle := true, task := NoTask, calls := Settled(s.calls))
  }

  /** What is asked in the next round, when nothing is left of this one. */
  function NextRound<C>(s: State<C>, check: Check): Check {
    if check.places != {} || check.keys != {} then check
    else
      check.(places := EditPlaces(s.clients) - check.answers.Keys,
             keys := RecordKeys(s.clients) - check.records.Keys - check.failed)
  }

  predicate Done(check: Check) {
    check.places == {} && check.keys == {}
  }

  /** Places are asked about first, in any order, and then records. */
  predicate MayAsk(check: Check, ask: Ask) {
    if check.places != {} then ask.AskPlace? && ask.place in check.places else ask.AskKey? && ask.key in check.keys
  }

  function Continue<C>(s: State<C>, check: Check, next: Ask): State<C> {
    var round := NextRound(s, check);
    if Done(round) then Settle(Deliver(s, round)) else s.(task := Asking(round, next, None))
  }

  /** Where the task goes once the map has replied with its latest ID: on to the questions, or to
      its end. */
  function LatestRead<C>(s: State<C>, next: Ask): State<C>
    requires s.task.HasRead?
  {
    match s.task.latest
    case None => Settle(s.(calls := Failed(s.calls)))
    case Some(latest) =>
      if latest < s.latest then Settle(s.(latest := latest))
      else if latest == s.latest then Settle(s)
      else Continue(s, NewCheck(latest), next)
  }

  /** A place that could not be asked about counts as concerned; records that
      could not be read are remembered as failed. */
  function Heard(check: Check, ask: Ask, reply: Reply): Check {
    match ask
    case AskPlace(p) =>
      check.(answers := check.answers[p := if reply.Says? then reply.concerned else true],
             assumed := if reply.Says? then check.assumed - {p} else check.assumed + {p},
             places := check.places - {p})
    case AskKey(k) =>
      if reply.Sends? then check.(records := check.records[k := reply.messages], keys := check.keys - {k})
      else check.(failed := check.failed + {k}, keys := check.keys - {k})
  }

  function Answered<C>(s: State<C>, next: Ask): State<C>
    requires s.task.Asking? && s.task.reply.Some?
  {
    Continue(s, Heard(s.task.check, s.task.ask, s.task.reply.value), next)
  }

  /** What a client is sent when a check ends; a closing connection is sent
      nothing, and one whose records could not be read is closed instead. */
  function DeliverTo(client: Client, first: int, check: Check): Client {
    if client.records.Some? && client.records.value.key in check.failed then client.(closing := true)
    else if client.closing then client
    else
      client.(edits := if client.edits.Some? then Some(Tell(client.edits.value, first, check)) else None,
              records := if client.records.Some? then Some(Send(client.records.value, check)) else None)
  }

  function Tell(watch: Watch, first: int, check: Check): Watch {
    if watch.place in check.answers && check.answers[watch.place] then
      watch.(told := watch.told + [Notice(first, check.last, watch.place in check.assumed)])
    else watch
  }

  function Send(stream: Stream, check: Check): Stream {
    stream.(upto := check.last,
            sent := stream.sent + (if stream.key in check.records then check.records[stream.key] else []))
  }

  function Deliver<C>(s: State<C>, check: Check): State<C> {
    s.(latest := check.last, clients := map c | c in s.clients :: DeliverTo(s.clients[c], s.latest + 1, check))
  }

  // ----- Runs -----

  datatype Event<C> =
    | Commit(more: seq<Record>)
    | Connecting(c: C, address: string)
    | Losing(c: C)
    | Closing(c: C)
    | SayingHello(c: C)
    | Subscribing(c: C, kind: Kind, key: Key)
    | CheckedArea(c: C, tidied: Option<Area>)
    | Resuming(c: C)
    | Unsubscribing(c: C, kind: Kind)
    | Changed
    | CheckBegins
    | MapReads(ok: bool)
    | CheckHasLatest(next: Ask)
    | MapAnswers(reply: Reply)
    | CheckHasAnswer(next: Ask)

  /** The next request of a connection is handled only when the one before it is done, and not once it is closing. */
  predicate Ready<C>(s: State<C>, c: C) {
    c in s.clients && s.clients[c].work.Free? && !s.clients[c].closing
  }

  /** What the map may answer: the truth, or an error. */
  ghost predicate Honest<C>(cfg: Config, s: State<C>, check: Check, ask: Ask, reply: Reply) {
    match reply
    case Error => true
    case Says(concerned) =>
      ask.AskPlace? && (concerned <==> Select(s.log, s.latest + 1, check.last, cfg.concerns(ask.place)) != [])
    case Sends(messages) =>
      ask.AskKey? && IsBatch(messages, s.log, s.latest + 1, check.last, cfg.concerns(ask.key.0), cfg.limits.recordsPerMessage)
  }

  /** What is asked next is of the next round. */
  predicate NextIsAsked<C>(s: State<C>, check: Check, next: Ask) {
    Done(NextRound(s, check)) || MayAsk(NextRound(s, check), next)
  }

  ghost predicate Enabled<C>(cfg: Config, s: State<C>, e: Event<C>) {
    match e
    case Commit(more) => Sorted(s.log + more) && forall r :: r in more ==> LastId(s.log) < r.id
    case Connecting(c, _) => c !in s.clients
    case Losing(c) => c in s.clients
    case Closing(c) => c in s.clients
    case SayingHello(c) => Ready(s, c)
    case Subscribing(c, _, _) => Ready(s, c) && s.clients[c].greeted
    case CheckedArea(c, tidied) =>
      c in s.clients && s.clients[c].work.CheckingArea? && (tidied.Some? ==> tidied.value.Wkt?)
    case Resuming(c) =>
      && c in s.clients && s.clients[c].work.Refreshing?
      && s.clients[c].work.call < |s.calls| && s.calls[s.clients[c].work.call].settled
    case Unsubscribing(c, _) => Ready(s, c) && s.clients[c].greeted
    case Changed => true
    case CheckBegins => s.task.Started?
    case MapReads(_) => s.task.Reading?
    case CheckHasLatest(next) =>
      s.task.HasRead? && (s.task.latest.Some? && s.latest < s.task.latest.value ==>
        NextIsAsked(s, NewCheck(s.task.latest.value), next))
    case MapAnswers(reply) =>
      s.task.Asking? && s.task.reply.None? && Honest(cfg, s, s.task.check, s.task.ask, reply)
    case CheckHasAnswer(next) =>
      && s.task.Asking? && s.task.reply.Some?
      && NextIsAsked(s, Heard(s.task.check, s.task.ask, s.task.reply.value), next)
  }

  ghost function Step<C>(cfg: Config, s: State<C>, e: Event<C>): State<C>
    requires Enabled(cfg, s, e)
  {
    match e
    case Commit(more) => s.(log := s.log + more)
    case Connecting(c, address) => Connect(cfg, s, c, address)
    case Losing(c) => Lose(s, c)
    case Closing(c) => Set(s, c, s.clients[c].(closing := true))
    case SayingHello(c) => Set(s, c, Hello(s.clients[c]))
    case Subscribing(c, kind, key) => RequestSubscribe(cfg, s, c, kind, key)
    case CheckedArea(c, tidied) => AreaChecked(s, c, tidied)
    case Resuming(c) => Refreshed(cfg, s, c)
    case Unsubscribing(c, kind) => Set(s, c, Unsubscribe(s.clients[c], kind))
    case Changed => EditsChanged(s)
    case CheckBegins => BeginRead(s)
    case MapReads(ok) => s.(task := HasRead(if ok then Some(LastId(s.log)) else None))
    case CheckHasLatest(next) => LatestRead(s, next)
    case MapAnswers(reply) => s.(task := s.task.(reply := Some(reply)))
    case CheckHasAnswer(next) => Answered(s, next)
  }

  /** A run: each event is possible where it happens. */
  ghost predicate IsRun<C>(cfg: Config, s: State<C>, events: seq<Event<C>>, end: State<C>)
    decreases |events|
  {
    if |events| == 0 then s == end
    else Enabled(cfg, s, events[0]) && IsRun(cfg, Step(cfg, s, events[0]), events[1..], end)
  }

  /** A run goes on with what is possible where it ends. */
  lemma {:induction false} RunThen<C>(cfg: Config, s: State<C>, events: seq<Event<C>>, end: State<C>, e: Event<C>)
    requires IsRun(cfg, s, events, end) && Enabled(cfg, end, e)
    ensures IsRun(cfg, s, events + [e], Step(cfg, end, e))
    decreases |events|
  {
    hide Enabled, Step;
    var more := events + [e];
    if |events| == 0 {
      assert more[1..] == [];
    } else {
      RunThen(cfg, Step(cfg, s, events[0]), events[1..], end, e);
      assert more[1..] == events[1..] + [e];
    }
  }
}
