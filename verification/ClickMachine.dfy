/** The click-event pipeline of TrafficService as a state machine: any number of consumers,
    one step for each effect on the stream, MySQL or Redis, and a fault possible at each. */
module ClickMachine {
  import opened Prelude

  /** A calendar day; only its identity and order matter. */
  type Date = int
  type EventId = string
  type EntryId = nat
  type WorkerId = nat

  /** A stream entry; an unparsable occurredAt is None. */
  datatype Msg = Msg(eventId: EventId, shortCode: string, occurredAt: Option<Date>, ip: string, referer: string)

  /** The unique key of short_url_daily_stat, which is also what a uv:<code>:<date> set is for. */
  datatype Key = Key(date: Date, code: string)

  datatype Detail = Detail(key: Key, ip: string, referer: string)

  datatype Stat = Stat(pv: nat, uv: nat)

  /** How far a consumer has come with the entry it holds.  A consumer that holds none is absent. */
  datatype Pc =
    | Received(entry: EntryId)
    | Inserted(entry: EntryId, id: EventId)
    | Unseen(entry: EntryId, id: EventId)
    | Visited(entry: EntryId, id: EventId, first: bool)
    | Acking(entry: EntryId)
  {
    /** Between the insert into the detail table and the end of the upsert. */
    predicate Busy() {
      Inserted? || Unseen? || Visited?
    }
  }

  /** Bookkeeping that no step reads: whose row reached the statistics, whose never will, who was
      taken for a first visitor, and for whom no first-visit answer was obtained. */
  datatype Ledger = Ledger(counted: set<EventId>, lost: set<EventId>, firsts: set<EventId>, skipped: set<EventId>)

  datatype State = State(
    stream: map<EntryId, Msg>,
    detail: map<EventId, Detail>,
    stat: map<Key, Stat>,
    visitors: map<Key, set<string>>,
    workers: map<WorkerId, Pc>,
    acked: set<EntryId>,
    ledger: Ledger)

  const Empty := State(map[], map[], map[], map[], map[], {}, Ledger({}, {}, {}, {}))

  datatype Step =
    | Publish(entry: EntryId, msg: Msg)
    | Deliver(w: WorkerId, entry: EntryId)
    | Insert(w: WorkerId, now: Date, ok: bool)
    | Check(w: WorkerId, ok: bool)
    | Add(w: WorkerId, ok: bool)
    | Upsert(w: WorkerId, ok: bool)
    | Ack(w: WorkerId, ok: bool)
    | Crash(w: WorkerId)
    | Expire(key: Key)

  // ---------------------------------------------------------------- the steps

  /** The row that handleMessage writes; an unparsable time becomes the consumer's clock. */
  function RowOf(m: Msg, now: Date): Detail {
    Detail(Key(if m.occurredAt.Some? then m.occurredAt.value else now, m.shortCode), m.ip, m.referer)
  }

  function VisitorsOf(visitors: map<Key, set<string>>, k: Key): set<string> {
    if k in visitors then visitors[k] else {}
  }

  /** insert ... on duplicate key update pv = pv + 1, uv = uv + delta */
  function Bump(stat: map<Key, Stat>, k: Key, delta: nat): map<Key, Stat> {
    stat[k := if k in stat then Stat(stat[k].pv + 1, stat[k].uv + delta) else Stat(1, delta)]
  }

  function Release(s: State, w: WorkerId): State {
    s.(workers := s.workers - {w})
  }

  function Move(s: State, w: WorkerId, pc: Pc): State {
    s.(workers := s.workers[w := pc])
  }

  function Enabled(s: State, step: Step): bool {
    match step
    case Publish(entry, _) => entry !in s.stream
    case Deliver(w, entry) => w !in s.workers && entry in s.stream
    case Insert(w, _, _) => w in s.workers && s.workers[w].Received? && s.workers[w].entry in s.stream
    case Check(w, _) => w in s.workers && s.workers[w].Inserted? && s.workers[w].id in s.detail
    case Add(w, _) => w in s.workers && s.workers[w].Unseen? && s.workers[w].id in s.detail
    case Upsert(w, _) => w in s.workers && s.workers[w].Visited? && s.workers[w].id in s.detail
    case Ack(w, _) => w in s.workers && s.workers[w].Acking?
    case Crash(w) => w in s.workers
    case Expire(_) => true
  }

  function InsertStep(s: State, w: WorkerId, now: Date, ok: bool): State
    requires Enabled(s, Insert(w, now, ok))
  {
    var entry := s.workers[w].entry;
    var m := s.stream[entry];
    if m.shortCode == "" || !ok then Release(s, w)
    else if m.eventId in s.detail then Move(s, w, Acking(entry))
    else Move(s, w, Inserted(entry, m.eventId)).(detail := s.detail[m.eventId := RowOf(m, now)])
  }

  function CheckStep(s: State, w: WorkerId, ok: bool): State
    requires Enabled(s, Check(w, ok))
  {
    var Inserted(entry, id) := s.workers[w];
    var row := s.detail[id];
    if row.ip == "" then Move(s, w, Visited(entry, id, false))
    else if !ok then Move(s, w, Visited(entry, id, false)).(ledger := s.ledger.(skipped := s.ledger.skipped + {id}))
    else if row.ip in VisitorsOf(s.visitors, row.key) then Move(s, w, Visited(entry, id, false))
    else Move(s, w, Unseen(entry, id))
  }

  function AddStep(s: State, w: WorkerId, ok: bool): State
    requires Enabled(s, Add(w, ok))
  {
    var Unseen(entry, id) := s.workers[w];
    var row := s.detail[id];
    Move(s, w, Visited(entry, id, true)).(
      visitors := if ok then s.visitors[row.key := VisitorsOf(s.visitors, row.key) + {row.ip}] else s.visitors,
      ledger := s.ledger.(firsts := s.ledger.firsts + {id}))
  }

  function UpsertStep(s: State, w: WorkerId, ok: bool): State
    requires Enabled(s, Upsert(w, ok))
  {
    var Visited(entry, id, first) := s.workers[w];
    if ok then
      Move(s, w, Acking(entry)).(
        stat := Bump(s.stat, s.detail[id].key, if first then 1 else 0),
        ledger := s.ledger.(counted := s.ledger.counted + {id}))
    else Release(s, w).(ledger := s.ledger.(lost := s.ledger.lost + {id}))
  }

  function CrashStep(s: State, w: WorkerId): State
    requires Enabled(s, Crash(w))
  {
    var pc := s.workers[w];
    if !pc.Busy() then Release(s, w)
    else
      var skipped := if pc.Visited? then s.ledger.skipped else s.ledger.skipped + {pc.id};
      Release(s, w).(ledger := s.ledger.(lost := s.ledger.lost + {pc.id}, skipped := skipped))
  }

  /** One step; a step that is not enabled changes nothing. */
  function Next(s: State, step: Step): State {
    if !Enabled(s, step) then s else
    match step
    case Publish(entry, msg) => s.(stream := s.stream[entry := msg])
    case Deliver(w, entry) => Move(s, w, Received(entry))
    case Insert(w, now, ok) => InsertStep(s, w, now, ok)
    case Check(w, ok) => CheckStep(s, w, ok)
    case Add(w, ok) => AddStep(s, w, ok)
    case Upsert(w, ok) => UpsertStep(s, w, ok)
    case Ack(w, ok) => Release(s, w).(acked := if ok then s.acked + {s.workers[w].entry} else s.acked)
    case Crash(w) => CrashStep(s, w)
    case Expire(key) => s.(visitors := s.visitors - {key})
  }

  function Run(s: State, steps: seq<Step>): State {
    if steps == [] then s else Next(Run(s, steps[..|steps| - 1]), steps[|steps| - 1])
  }

  // ---------------------------------------------------------------- what is counted

  /** The events of a set whose row belongs to key k. */
  ghost function Of(detail: map<EventId, Detail>, ids: set<EventId>, k: Key): set<EventId> {
    set id | id in ids && id in detail && detail[id].key == k
  }

  ghost function Rows(s: State, k: Key): set<EventId> {
    Of(s.detail, s.detail.Keys, k)
  }

  /** The distinct non-empty addresses among the rows of k. */
  ghost function Addresses(detail: map<EventId, Detail>, k: Key): set<string> {
    set id | id in detail && detail[id].key == k && detail[id].ip != "" :: detail[id].ip
  }

  ghost function Flying(s: State): set<EventId> {
    set w | w in s.workers && s.workers[w].Busy() :: s.workers[w].id
  }

  function Pv(s: State, k: Key): nat {
    if k in s.stat then s.stat[k].pv else 0
  }

  function Uv(s: State, k: Key): nat {
    if k in s.stat then s.stat[k].uv else 0
  }

  /** Some event of key k with this address was taken for a first visit. */
  ghost predicate Witnessed(s: State, k: Key, ip: string) {
    exists f :: f in s.ledger.firsts && f in s.detail && s.detail[f].key == k && s.detail[f].ip == ip
  }

  // ---------------------------------------------------------------- invariants

  /** The entry names a link, and its event has a row. */
  ghost predicate Stored(s: State, entry: EntryId) {
    entry in s.stream && s.stream[entry].eventId in s.detail && s.stream[entry].shortCode != ""
  }

  /** A consumer holds a published entry.  While it is busy its event has a row that is neither counted
      nor lost, and is a first visit exactly if so answered; once it acknowledges, the row exists. */
  ghost predicate Fits(s: State, pc: Pc) {
    && pc.entry in s.stream
    && (pc.Acking? ==> Stored(s, pc.entry))
    && (pc.Busy() ==>
          && Stored(s, pc.entry)
          && pc.id == s.stream[pc.entry].eventId
          && pc.id !in s.ledger.counted
          && pc.id !in s.ledger.lost
          && (pc.id in s.ledger.firsts <==> pc.Visited? && pc.first)
          && (pc.Unseen? ==> s.detail[pc.id].ip != ""))
  }

  /** Every consumer fits, and no two are busy with the same event. */
  ghost predicate WorkersOk(s: State) {
    && (forall w | w in s.workers :: Fits(s, s.workers[w]))
    && (forall w, v | w in s.workers && v in s.workers && s.workers[w].Busy() && s.workers[v].Busy() ::
          s.workers[w].id == s.workers[v].id ==> w == v)
  }

  /** Every row is counted, lost or on its way, and never two of these. */
  ghost predicate Partition(s: State) {
    && s.ledger.counted !! s.ledger.lost
    && s.detail.Keys == s.ledger.counted + s.ledger.lost + Flying(s)
  }

  /** An acknowledged entry's event has its row. */
  ghost predicate AcksOk(s: State) {
    forall e | e in s.acked :: Stored(s, e)
  }

  /** First visits have rows with an address, and whoever is in a uv set was a first visitor. */
  ghost predicate FirstsOk(s: State) {
    && s.ledger.firsts + s.ledger.skipped <= s.detail.Keys
    && (forall id | id in s.ledger.firsts :: s.detail[id].ip != "")
    && (forall k, ip | k in s.visitors && ip in s.visitors[k] :: Witnessed(s, k, ip))
  }

  /** A consumer holds this event and has no first-visit answer for it yet. */
  ghost predicate Awaiting(s: State, id: EventId) {
    exists w :: w in s.workers && s.workers[w].Busy() && !s.workers[w].Visited? && s.workers[w].id == id
  }

  /** It was skipped, shares key and address with a first visit, or still awaits its answer. */
  ghost predicate HasAnswer(s: State, id: EventId)
    requires id in s.detail
  {
    id in s.ledger.skipped || Witnessed(s, s.detail[id].key, s.detail[id].ip) || Awaiting(s, id)
  }

  ghost predicate Answered(s: State) {
    forall id | id in s.detail && s.detail[id].ip != "" :: HasAnswer(s, id)
  }

  /** The statistics count the counted events, and among them the first visits. */
  ghost predicate StatsOk(s: State) {
    forall k :: StatOk(s, k)
  }

  ghost predicate StatOk(s: State, k: Key) {
    && Pv(s, k) == |Of(s.detail, s.ledger.counted, k)|
    && Uv(s, k) == |Of(s.detail, s.ledger.counted * s.ledger.firsts, k)|
    && (k in s.stat ==> s.stat[k].pv > 0)
  }

  ghost predicate Inv(s: State) {
    WorkersOk(s) && Partition(s) && AcksOk(s) && FirstsOk(s) && Answered(s) && StatsOk(s)
  }

  // ---------------------------------------------------------------- one step keeps them

  /** Nothing published, stored or recorded is ever taken back or changed. */
  ghost predicate Grows(s: State, t: State) {
    && (forall e | e in s.stream :: e in t.stream && t.stream[e] == s.stream[e])
    && (forall id | id in s.detail :: id in t.detail && t.detail[id] == s.detail[id])
    && s.ledger.counted <= t.ledger.counted
    && s.ledger.lost <= t.ledger.lost
    && s.ledger.firsts <= t.ledger.firsts
    && s.ledger.skipped <= t.ledger.skipped
    && s.acked <= t.acked
  }

  /** The consumer that takes the step, if one does. */
  function Actor(step: Step): Option<WorkerId> {
    match step
    case Publish(_, _) => None
    case Expire(_) => None
    case _ => Some(step.w)
  }

  /** The event a consumer is busy with. */
  ghost function Own(s: State, w: WorkerId): set<EventId> {
    if w in s.workers && s.workers[w].Busy() then {s.workers[w].id} else {}
  }

  /** The event whose record a step may touch: the one its actor is busy with, before or after. */
  ghost function Touched(s: State, t: State, actor: Option<WorkerId>): set<EventId> {
    if actor.None? then {} else Own(s, actor.value) + Own(t, actor.value)
  }

  /** What a step leaves alone: the other consumers, and the records of all events but the touched ones. */
  ghost predicate Framed(s: State, t: State, actor: Option<WorkerId>) {
    var x := Touched(s, t, actor);
    && Grows(s, t)
    && (forall v | actor != Some(v) :: v in t.workers <==> v in s.workers)
    && (forall v | actor != Some(v) && v in s.workers :: t.workers[v] == s.workers[v])
    && t.detail.Keys <= s.detail.Keys + x
    && t.ledger.counted <= s.ledger.counted + x
    && t.ledger.lost <= s.ledger.lost + x
    && t.ledger.firsts <= s.ledger.firsts + x
    && t.ledger.skipped <= s.ledger.skipped + x
  }

  /** What a step makes of its actor and of the event it touches. */
  ghost predicate Settled(s: State, t: State, w: WorkerId) {
    && (w in t.workers ==> Fits(t, t.workers[w]))
    && (forall id | id in Own(t, w) :: id in Own(s, w) || (Own(s, w) == {} && id !in s.detail && !t.workers[w].Visited?))
    && (forall id | id in Own(s, w) ::
          id in Own(t, w) || (id in t.ledger.counted && id !in t.ledger.lost) || (id in t.ledger.lost && id !in t.ledger.counted))
    && (forall id | id in Own(s, w) && !s.workers[w].Visited? && id in s.detail && s.detail[id].ip != "" ::
          || id in t.ledger.skipped
          || Witnessed(t, s.detail[id].key, s.detail[id].ip)
          || (w in t.workers && t.workers[w].Busy() && !t.workers[w].Visited?))
  }

  ghost predicate Sound(s: State) {
    WorkersOk(s) && FirstsOk(s) && Partition(s)
  }

  lemma InsertFrames(s: State, w: WorkerId, now: Date, ok: bool)
    requires Enabled(s, Insert(w, now, ok))
    ensures Framed(s, InsertStep(s, w, now, ok), Some(w))
  {
  }

  lemma InsertEffect(s: State, w: WorkerId, now: Date, ok: bool)
    requires Sound(s) && Enabled(s, Insert(w, now, ok))
    ensures Framed(s, InsertStep(s, w, now, ok), Some(w))
    ensures Settled(s, InsertStep(s, w, now, ok), w)
  {
    InsertFrames(s, w, now, ok);
    assert Fits(s, s.workers[w]);
  }

  /** A consumer that stays busy with its event may at most record something about it. */
  lemma StayFrames(s: State, w: WorkerId, pc: Pc, ledger: Ledger)
    requires w in s.workers && s.workers[w].Busy() && pc.Busy() && pc.id == s.workers[w].id
    requires ledger.counted == s.ledger.counted && ledger.lost == s.ledger.lost
    requires s.ledger.firsts <= ledger.firsts <= s.ledger.firsts + {pc.id}
    requires s.ledger.skipped <= ledger.skipped <= s.ledger.skipped + {pc.id}
    ensures Framed(s, Move(s, w, pc).(ledger := ledger), Some(w))
  {
  }

  lemma CheckFrames(s: State, w: WorkerId, ok: bool)
    requires Enabled(s, Check(w, ok))
    ensures Framed(s, CheckStep(s, w, ok), Some(w))
  {
    var t := CheckStep(s, w, ok);
    StayFrames(s, w, t.workers[w], t.ledger);
    assert t == Move(s, w, t.workers[w]).(ledger := t.ledger);
  }

  lemma CheckEffect(s: State, w: WorkerId, ok: bool)
    requires Sound(s) && Enabled(s, Check(w, ok))
    ensures Framed(s, CheckStep(s, w, ok), Some(w))
    ensures Settled(s, CheckStep(s, w, ok), w)
  {
    CheckFrames(s, w, ok);
    assert Fits(s, s.workers[w]);
    var row := s.detail[s.workers[w].id];
    if ok && row.ip in VisitorsOf(s.visitors, row.key) {
      WitnessKept(s, CheckStep(s, w, ok), row.key, row.ip);
    }
  }

  lemma AddFrames(s: State, w: WorkerId, ok: bool)
    requires Enabled(s, Add(w, ok))
    ensures Framed(s, AddStep(s, w, ok), Some(w))
  {
  }

  lemma AddEffect(s: State, w: WorkerId, ok: bool)
    requires Sound(s) && Enabled(s, Add(w, ok))
    ensures Framed(s, AddStep(s, w, ok), Some(w))
    ensures Settled(s, AddStep(s, w, ok), w)
  {
    AddFrames(s, w, ok);
    assert Fits(s, s.workers[w]);
    assert s.workers[w].id in AddStep(s, w, ok).ledger.firsts;
  }

  lemma UpsertEffect(s: State, w: WorkerId, ok: bool)
    requires Sound(s) && Enabled(s, Upsert(w, ok))
    ensures Framed(s, UpsertStep(s, w, ok), Some(w))
    ensures Settled(s, UpsertStep(s, w, ok), w)
  {
    assert Fits(s, s.workers[w]);
  }

  lemma CrashEffect(s: State, w: WorkerId)
    requires Sound(s) && Enabled(s, Crash(w))
    ensures Framed(s, CrashStep(s, w), Some(w))
    ensures Settled(s, CrashStep(s, w), w)
  {
    assert Fits(s, s.workers[w]);
  }

  lemma WitnessKept(s: State, t: State, k: Key, ip: string)
    requires Grows(s, t) && Witnessed(s, k, ip)
    ensures Witnessed(t, k, ip)
  {
    var f :| f in s.ledger.firsts && f in s.detail && s.detail[f].key == k && s.detail[f].ip == ip;
    assert f in t.ledger.firsts;
  }

  ghost predicate Effect(s: State, t: State, actor: Option<WorkerId>) {
    Framed(s, t, actor) && (actor.Some? ==> Settled(s, t, actor.value))
  }

  lemma StutterEffect(s: State, actor: Option<WorkerId>)
    requires Sound(s)
    ensures Effect(s, s, actor)
  {
    assert actor.Some? && actor.value in s.workers ==> Fits(s, s.workers[actor.value]);
  }

  lemma DeliverEffect(s: State, w: WorkerId, entry: EntryId)
    requires Enabled(s, Deliver(w, entry))
    ensures Effect(s, Move(s, w, Received(entry)), Some(w))
  {
  }

  lemma AckEffect(s: State, w: WorkerId, ok: bool)
    requires Enabled(s, Ack(w, ok))
    ensures Effect(s, Next(s, Ack(w, ok)), Some(w))
  {
  }

  lemma StepEffect(s: State, step: Step)
    requires Sound(s)
    ensures Effect(s, Next(s, step), Actor(step))
  {
    if Enabled(s, step) {
      match step
      case Publish(_, _) =>
      case Deliver(w, entry) => DeliverEffect(s, w, entry);
      case Insert(w, now, ok) => InsertEffect(s, w, now, ok);
      case Check(w, ok) => CheckEffect(s, w, ok);
      case Add(w, ok) => AddEffect(s, w, ok);
      case Upsert(w, ok) => UpsertEffect(s, w, ok);
      case Ack(w, ok) => AckEffect(s, w, ok);
      case Crash(w) => CrashEffect(s, w);
      case Expire(_) =>
    } else {
      StutterEffect(s, Actor(step));
    }
  }

  /** A consumer other than the actor keeps its event to itself. */
  lemma OthersApart(s: State, t: State, actor: Option<WorkerId>, v: WorkerId)
    requires Sound(s) && Effect(s, t, actor)
    requires actor != Some(v) && v in s.workers && s.workers[v].Busy()
    ensures s.workers[v].id !in Touched(s, t, actor)
  {
    assert Fits(s, s.workers[v]);
  }

  lemma WorkersKept(s: State, t: State, actor: Option<WorkerId>)
    requires Sound(s) && Effect(s, t, actor)
    ensures WorkersOk(t)
  {
    forall v | v in t.workers
      ensures Fits(t, t.workers[v])
    {
      if actor != Some(v) {
        assert Fits(s, s.workers[v]);
        if s.workers[v].Busy() {
          OthersApart(s, t, actor, v);
        }
      }
    }
    forall v, u | v in t.workers && u in t.workers && t.workers[v].Busy() && t.workers[u].Busy() && t.workers[v].id == t.workers[u].id
      ensures v == u
    {
      if actor != Some(v) {
        OthersApart(s, t, actor, v);
      }
      if actor != Some(u) {
        OthersApart(s, t, actor, u);
      }
    }
  }

  lemma FlyingMeans(s: State, id: EventId)
    ensures id in Flying(s) <==> exists w :: w in s.workers && id in Own(s, w)
  {
    if w :| w in s.workers && id in Own(s, w) {
      assert s.workers[w].id in Flying(s);
    }
  }

  lemma FlyingKept(s: State, t: State, actor: Option<WorkerId>, id: EventId)
    requires Framed(s, t, actor) && id !in Touched(s, t, actor)
    ensures id in Flying(t) <==> id in Flying(s)
  {
    FlyingMeans(s, id);
    FlyingMeans(t, id);
    if w :| w in s.workers && id in Own(s, w) {
      assert id in Own(t, w);
    }
    if w :| w in t.workers && id in Own(t, w) {
      assert id in Own(s, w);
    }
  }

  lemma PartitionKept(s: State, t: State, actor: Option<WorkerId>)
    requires Sound(s) && Effect(s, t, actor)
    ensures Partition(t)
  {
    WorkersKept(s, t, actor);
    forall id
      ensures id in t.detail <==> id in t.ledger.counted + t.ledger.lost + Flying(t)
      ensures !(id in t.ledger.counted && id in t.ledger.lost)
    {
      FlyingKeptOrSettled(s, t, actor, id);
    }
  }

  lemma FlyingKeptOrSettled(s: State, t: State, actor: Option<WorkerId>, id: EventId)
    requires Sound(s) && WorkersOk(t) && Effect(s, t, actor)
    ensures id in t.detail <==> id in t.ledger.counted + t.ledger.lost + Flying(t)
    ensures !(id in t.ledger.counted && id in t.ledger.lost)
  {
    if id !in Touched(s, t, actor) {
      FlyingKept(s, t, actor, id);
    } else {
      var w := actor.value;
      FlyingMeans(t, id);
      if id in Own(t, w) {
        assert Fits(t, t.workers[w]);
      } else {
        assert Fits(s, s.workers[w]);
        assert id in t.detail;
      }
    }
  }

  lemma AnsweredKept(s: State, t: State, actor: Option<WorkerId>)
    requires Sound(s) && Answered(s) && Effect(s, t, actor)
    ensures Answered(t)
  {
    forall id | id in t.detail && t.detail[id].ip != ""
      ensures HasAnswer(t, id)
    {
      if id !in s.detail {
        assert id in Own(t, actor.value) && id !in Own(s, actor.value);
      } else {
        AnswerKept(s, t, actor, id);
      }
    }
  }

  lemma AnswerKept(s: State, t: State, actor: Option<WorkerId>, id: EventId)
    requires Sound(s) && Effect(s, t, actor)
    requires id in s.detail && s.detail[id].ip != "" && HasAnswer(s, id)
    ensures id in t.detail && HasAnswer(t, id)
  {
    if Witnessed(s, s.detail[id].key, s.detail[id].ip) {
      WitnessKept(s, t, s.detail[id].key, s.detail[id].ip);
    } else if Awaiting(s, id) {
      var w :| w in s.workers && s.workers[w].Busy() && !s.workers[w].Visited? && s.workers[w].id == id;
      assert id in Own(s, w);
      if actor != Some(w) {
        assert t.workers[w] == s.workers[w];
      } else if w in t.workers && t.workers[w].Busy() {
        assert t.workers[w].id in Own(t, w);
      }
    }
  }

  lemma AcksKept(s: State, step: Step, e: EntryId)
    requires Sound(s) && AcksOk(s) && e in Next(s, step).acked
    ensures Stored(Next(s, step), e)
  {
    if e in s.acked {
      StepEffect(s, step);
      assert Stored(s, e);
    } else {
      assert step.Ack? && Fits(s, s.workers[step.w]);
    }
  }

  lemma VisitorKept(s: State, step: Step, k: Key, ip: string)
    requires Sound(s)
    requires k in Next(s, step).visitors && ip in Next(s, step).visitors[k]
    ensures Witnessed(Next(s, step), k, ip)
  {
    var t := Next(s, step);
    if k in s.visitors && ip in s.visitors[k] {
      StepEffect(s, step);
      WitnessKept(s, t, k, ip);
    } else {
      AddedVisitor(s, step, k, ip);
    }
  }

  lemma AddedVisitor(s: State, step: Step, k: Key, ip: string)
    requires k in Next(s, step).visitors && ip in Next(s, step).visitors[k] && !(k in s.visitors && ip in s.visitors[k])
    ensures Witnessed(Next(s, step), k, ip)
  {
    assert step.Add? && Enabled(s, step);
    var id := s.workers[step.w].id;
    assert Next(s, step).detail == s.detail && s.detail[id].key == k && s.detail[id].ip == ip;
    assert id in Next(s, step).ledger.firsts;
  }

  lemma FirstsKept(s: State, step: Step)
    requires Sound(s)
    ensures FirstsOk(Next(s, step))
  {
    var t := Next(s, step);
    forall k, ip | k in t.visitors && ip in t.visitors[k]
      ensures Witnessed(t, k, ip)
    {
      VisitorKept(s, step, k, ip);
    }
    forall id | id in t.ledger.firsts + t.ledger.skipped
      ensures id in t.detail && (id in t.ledger.firsts ==> t.detail[id].ip != "")
    {
      FirstHasAddress(s, step, id);
    }
  }

  lemma FirstHasAddress(s: State, step: Step, id: EventId)
    requires Sound(s)
    requires id in Next(s, step).ledger.firsts + Next(s, step).ledger.skipped
    ensures id in Next(s, step).detail
    ensures id in Next(s, step).ledger.firsts ==> Next(s, step).detail[id].ip != ""
  {
    var t := Next(s, step);
    StepEffect(s, step);
    if id in Touched(s, t, Actor(step)) {
      TouchedHasRow(s, t, Actor(step), id);
    }
    if id in t.ledger.firsts && id !in s.ledger.firsts {
      NewFirstHasAddress(s, step, id);
    }
  }

  lemma NewFirstHasAddress(s: State, step: Step, id: EventId)
    requires WorkersOk(s) && id in Next(s, step).ledger.firsts && id !in s.ledger.firsts
    ensures id in s.detail && s.detail[id].ip != ""
  {
    assert step.Add? && Enabled(s, step) && id == s.workers[step.w].id;
    assert Fits(s, s.workers[step.w]);
  }

  lemma TouchedHasRow(s: State, t: State, actor: Option<WorkerId>, id: EventId)
    requires Sound(s) && Effect(s, t, actor) && id in Touched(s, t, actor)
    ensures id in t.detail
  {
    assert actor.value in s.workers ==> Fits(s, s.workers[actor.value]);
  }

  // ---------------------------------------------------------------- the statistics

  lemma OfGrows(d: map<EventId, Detail>, d': map<EventId, Detail>, ids: set<EventId>, k: Key)
    requires ids <= d.Keys
    requires forall id | id in d :: id in d' && d'[id] == d[id]
    ensures Of(d', ids, k) == Of(d, ids, k)
  {
  }

  lemma OfInsert(d: map<EventId, Detail>, ids: set<EventId>, id: EventId, k: Key)
    requires id in d && id !in ids
    ensures |Of(d, ids + {id}, k)| == |Of(d, ids, k)| + (if d[id].key == k then 1 else 0)
  {
    assert Of(d, ids + {id}, k) == Of(d, ids, k) + (if d[id].key == k then {id} else {});
  }

  /** A successful upsert counts its event once, and as a first visit if it was one. */
  lemma UpsertCounts(s: State, w: WorkerId, k: Key)
    requires Sound(s) && StatOk(s, k) && Enabled(s, Upsert(w, true))
    ensures StatOk(UpsertStep(s, w, true), k)
  {
    var t := UpsertStep(s, w, true);
    var id, first := s.workers[w].id, s.workers[w].first;
    assert Fits(s, s.workers[w]);
    OfInsert(s.detail, s.ledger.counted, id, k);
    var both := s.ledger.counted * s.ledger.firsts;
    if first {
      OfInsert(s.detail, both, id, k);
      assert t.ledger.counted * t.ledger.firsts == both + {id};
    } else {
      assert t.ledger.counted * t.ledger.firsts == both;
    }
  }

  lemma StatKept(s: State, step: Step, k: Key)
    requires Sound(s) && StatOk(s, k)
    ensures StatOk(Next(s, step), k)
  {
    if step.Upsert? && step.ok && Enabled(s, step) {
      UpsertCounts(s, step.w, k);
    } else {
      OthersDoNotCount(s, step);
      StepEffect(s, step);
      OfGrows(s.detail, Next(s, step).detail, s.ledger.counted, k);
      OfGrows(s.detail, Next(s, step).detail, s.ledger.counted * s.ledger.firsts, k);
    }
  }

  lemma OthersDoNotCount(s: State, step: Step)
    requires Sound(s)
    requires !(step.Upsert? && step.ok && Enabled(s, step))
    ensures
      var t := Next(s, step);
      && t.stat == s.stat
      && t.ledger.counted == s.ledger.counted
      && t.ledger.counted * t.ledger.firsts == s.ledger.counted * s.ledger.firsts
  {
    if step.Add? && Enabled(s, step) {
      assert Fits(s, s.workers[step.w]);
    }
  }

  lemma InvKept(s: State, step: Step)
    requires Inv(s)
    ensures Inv(Next(s, step))
  {
    var t, actor := Next(s, step), Actor(step);
    StepEffect(s, step);
    WorkersKept(s, t, actor);
    PartitionKept(s, t, actor);
    forall e | e in t.acked
      ensures Stored(t, e)
    {
      AcksKept(s, step, e);
    }
    FirstsKept(s, step);
    AnsweredKept(s, t, actor);
    forall k
      ensures StatOk(t, k)
    {
      StatKept(s, step, k);
    }
  }

  // ---------------------------------------------------------------- whole runs

  /** The invariants hold after every sequence of steps. */
  lemma {:induction false} RunInv(s: State, steps: seq<Step>)
    requires Inv(s)
    ensures Inv(Run(s, steps))
  {
    if steps != [] {
      RunInv(s, steps[..|steps| - 1]);
      InvKept(Run(s, steps[..|steps| - 1]), steps[|steps| - 1]);
    }
  }

  lemma EmptyInv()
    ensures Inv(Empty)
  {
    forall k
      ensures Of(Empty.detail, Empty.ledger.counted, k) == {}
      ensures Of(Empty.detail, Empty.ledger.counted * Empty.ledger.firsts, k) == {}
    {
    }
  }

  function Reached(steps: seq<Step>): State {
    Run(Empty, steps)
  }

  lemma ReachedInv(steps: seq<Step>)
    ensures Inv(Reached(steps))
  {
    EmptyInv();
    RunInv(Empty, steps);
  }
}
