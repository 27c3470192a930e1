/** The delivery pipeline as a state machine: the broker's queues with their unacknowledged
    messages, the delivery and attempt rows, and every step a channel worker, the retry worker or
    the dead-letter worker can take, with broker failures, database failures and worker crashes.

    `Act` says what one action does to the message it works on and to that delivery's row and
    history; `Next` lifts it to the whole system. Failures are choices made by the environment. */
module Pipeline {
  import opened Common
  import opened Backoff

  // ---------- queue.go: the message vocabulary ----------

  datatype Queue =
    RouterQueue | SchedulerQueue | EmailQueue | SMSQueue | FCMQueue | WebSocketQueue | RetryQueue | DeadQueue

  type DeliveryId = string

  datatype Job = Job(notification: string, delivery: DeliveryId, tenant: string, channel: string,
                     queueName: string, payload: string, attempt: int)

  datatype Body = Malformed | Carries(job: Job)

  function ChannelQueue(channel: string): Queue {
    if channel == "email" then EmailQueue
    else if channel == "sms" then SMSQueue
    else if channel == "fcm" then FCMQueue
    else if channel == "websocket" then WebSocketQueue
    else RouterQueue
  }

  /** The jobs a queue's worker is there for (cmd/worker-*): none in the other three queues. */
  predicate Serves(q: Queue, channel: string) {
    match q
    case EmailQueue => channel == "email"
    case SMSQueue => channel == "sms"
    case FCMQueue => channel == "fcm"
    case WebSocketQueue => channel == "websocket"
    case RouterQueue => channel !in ["email", "sms", "fcm", "websocket"]
    case _ => false
  }

  // ---------- messages and where their handler stands ----------

  datatype Verdict = AsSent | AsBlocked | AsDead | AsLost | AsHandedOn

  /** Ready: in its queue. Every other stage: delivered to a worker and not yet acknowledged. */
  datatype Stage =
    | Ready
    | Fetched
    | Cleared             // queue control allows the send
    | Marked              // row marked `sending`
    | Tried(ok: bool)     // the provider has answered
    | Stored(ok: bool)    // the answer is in the delivery row
    | Failing             // the handler returned an error
    | Settling(verdict: Verdict)  // nothing left to do but acknowledge

  datatype Message = Message(queue: Queue, body: Body, stage: Stage)

  // ---------- database rows ----------

  datatype Status = Queued | Sending | Sent | Failed | Blocked | Dead

  /** A committed row of notification_deliveries together with its delivery_attempts rows
      (true: status `sent`), which the foreign key only admits when the delivery row exists. */
  datatype Row = Row(status: Status, delivered: bool, attempts: seq<bool>)

  const FRESH_ROW := Row(Queued, false, [])

  /** What has happened to one delivery so far. `dupes`: crashes after the job had already been handed to
      the next queue. `missed`: a worker had something to write about the delivery before its row was
      committed: an accepted send, an attempt, or that it is blocked or dead. */
  datatype Tally = Tally(sends: nat, slept: nat, crashes: nat, dupes: nat, faults: nat, missed: bool,
                         sent: nat, blocked: nat, dead: nat, lost: nat)

  function Settled(t: Tally): nat { t.sent + t.blocked + t.dead + t.lost }

  // ---------- actions of the workers ----------

  datatype Control = Errored | Active | Paused | Stopped

  datatype Action =
    | Fetch
    | Check(control: Control, dbOk: bool)
    | Mark(dbOk: bool)
    | Attempt(ok: bool)
    | Store(dbOk: bool)
    | Record(dbOk: bool)
    | HandOn(pubOk: bool)
    | Bury(dbOk: bool)
    | Settle
    | Crash               // connection lost: the broker redelivers the message

  predicate IsChannel(q: Queue) { q != RetryQueue && q != DeadQueue && q != SchedulerQueue }

  predicate Can(a: Action, msg: Message) {
    match a
    case Fetch => msg.stage == Ready && msg.queue != SchedulerQueue
    case Check(_, _) => msg.stage == Fetched && IsChannel(msg.queue) && msg.body.Carries?
    case Mark(_) => msg.stage == Cleared
    case Attempt(_) => msg.stage == Marked
    case Store(_) => msg.stage.Tried?
    case Record(_) => msg.stage.Stored?
    case HandOn(_) => msg.stage == Failing || (msg.stage == Fetched && msg.queue == RetryQueue && msg.body.Carries?)
    case Bury(_) => msg.stage == Fetched && msg.queue == DeadQueue && msg.body.Carries?
    case Settle => msg.stage.Settling? || (msg.stage == Fetched && msg.body.Malformed?)
    case Crash => msg.stage != Ready
  }

  /** What an action leaves behind: the message (none once acknowledged), the message it published,
      and the delivery's history and row. */
  datatype Effect = Effect(after: Option<Message>, spawn: Option<Message>, tally: Tally, row: Option<Row>)

  function At(msg: Message, stage: Stage): Option<Message> { Some(msg.(stage := stage)) }

  function SetStatus(r: Option<Row>, status: Status, dbOk: bool): Option<Row> {
    if r.Some? && dbOk then Some(r.value.(status := status)) else r
  }

  /** A write that finds no row updates nothing, and an attempt row without it breaks the foreign key. */
  function Writes(t: Tally, r: Option<Row>): Tally { if r.None? then t.(missed := true) else t }

  function Republished(queue: Queue, job: Job): Message { Message(queue, Carries(job), Ready) }

  function Count(t: Tally, v: Verdict): Tally {
    match v
    case AsSent => t.(sent := t.sent + 1)
    case AsBlocked => t.(blocked := t.blocked + 1)
    case AsDead => t.(dead := t.dead + 1)
    case AsLost => t.(lost := t.lost + 1)
    case AsHandedOn => t
  }

  function Act(max: int, a: Action, msg: Message, t: Tally, r: Option<Row>): Effect
    requires Can(a, msg)
  {
    match a
    case Fetch => Effect(At(msg, Fetched), None, t, r)
    case Check(control, dbOk) =>
      (match control
       case Errored => Effect(At(msg, Ready), None, t, r)
       case Active => Effect(At(msg, Cleared), None, t, r)
       case Paused => Effect(At(msg, Ready), None, t, SetStatus(r, Queued, dbOk))
       case Stopped =>
         if dbOk then Effect(At(msg, Settling(AsBlocked)), None, Writes(t, r), SetStatus(r, Blocked, true))
         else Effect(At(msg, Ready), None, t, r))
    case Mark(dbOk) => Effect(At(msg, Marked), None, t, SetStatus(r, Sending, dbOk))
    case Attempt(ok) => Effect(At(msg, Tried(ok)), None, t.(sends := t.sends + 1), r)
    case Store(dbOk) =>
      var ok := msg.stage.ok;
      if !dbOk then Effect(At(msg, Failing), None, t.(faults := t.faults + 1), r)
      else if r.None? then Effect(At(msg, Stored(ok)), None, if ok then Writes(t, r) else t, r)
      else Effect(At(msg, Stored(ok)), None, t, Some(Row(if ok then Sent else Failed, ok, r.value.attempts)))
    case Record(dbOk) =>
      var ok := msg.stage.ok;
      var t' := if dbOk then Writes(t, r) else t.(faults := t.faults + 1);
      if !dbOk || r.None? then Effect(At(msg, Failing), None, t', r)
      else
        var r' := Some(r.value.(attempts := r.value.attempts + [ok]));
        Effect(At(msg, if ok then Settling(AsSent) else Failing), None, t', r')
    case HandOn(pubOk) =>
      if msg.body.Malformed? then Effect(At(msg, Settling(AsLost)), None, t, r)
      else
        var job := msg.body.job;
        var step := HandedOn(max, msg.queue, job);
        var t' := if msg.queue == RetryQueue && job.attempt < max
                  then t.(slept := t.slept + Sleep(job.attempt)) else t;
        if pubOk then Effect(At(msg, Settling(AsHandedOn)), Some(step), t', r)
        else Effect(At(msg, Settling(AsLost)), None, t', r)
    case Bury(dbOk) =>
      Effect(At(msg, Settling(AsDead)), None, if dbOk then Writes(t, r) else t.(faults := t.faults + 1), SetStatus(r, Dead, dbOk))
    case Settle =>
      Effect(None, None, if msg.stage.Settling? then Count(t, msg.stage.verdict) else t, r)
    case Crash =>
      Effect(At(msg, Ready), None,
             t.(crashes := t.crashes + 1, dupes := t.dupes + if msg.stage == Settling(AsHandedOn) then 1 else 0), r)
  }

  /** The message a worker publishes when it passes a job on. */
  function HandedOn(max: int, queue: Queue, job: Job): Message {
    if queue != RetryQueue then Republished(RetryQueue, job.(attempt := job.attempt + 1))
    else if job.attempt >= max then Republished(DeadQueue, job)
    else Republished(ChannelQueue(job.channel), job.(attempt := job.attempt + 1))
  }

  // ---------- the whole system ----------

  datatype State = State(msgs: map<nat, Message>, next: nat, rows: map<DeliveryId, Row>, tallies: map<DeliveryId, Tally>)

  const INIT := State(map[], 0, map[], map[])

  datatype Step =
    | Publish(job: Job)                // Send or the scheduler
    | Commit(delivery: DeliveryId)     // their delivery row becomes visible
    | Junk(queue: Queue)               // a body that is not a job
    | On(id: nat, action: Action)

  const NO_TALLY := Tally(0, 0, 0, 0, 0, false, 0, 0, 0, 0)

  function RowOf(st: State, d: DeliveryId): Option<Row> { if d in st.rows then Some(st.rows[d]) else None }

  function TallyOf(st: State, d: DeliveryId): Tally { if d in st.tallies then st.tallies[d] else NO_TALLY }

  predicate Enabled(st: State, s: Step) {
    match s
    case Publish(job) => job.delivery !in st.tallies && job.attempt == 0
    case Commit(d) => d !in st.rows
    case Junk(_) => true
    case On(id, a) => id in st.msgs && Can(a, st.msgs[id])
  }

  function Next(max: int, st: State, s: Step): State
    requires Enabled(st, s)
  {
    match s
    case Publish(job) =>
      st.(msgs := st.msgs[st.next := Republished(ChannelQueue(job.channel), job)], next := st.next + 1,
          tallies := st.tallies[job.delivery := NO_TALLY])
    case Commit(d) => st.(rows := st.rows[d := FRESH_ROW])
    case Junk(q) => st.(msgs := st.msgs[st.next := Message(q, Malformed, Ready)], next := st.next + 1)
    case On(id, a) =>
      var msg := st.msgs[id];
      if msg.body.Malformed? then
        Placed(st, id, Act(max, a, msg, NO_TALLY, None))
      else
        var d := msg.body.job.delivery;
        Applied(st, id, d, Act(max, a, msg, TallyOf(st, d), RowOf(st, d)))
  }

  function Applied(st: State, id: nat, d: DeliveryId, e: Effect): State
    requires id in st.msgs
  {
    Placed(st, id, e).(tallies := st.tallies[d := e.tally],
                       rows := if e.row.Some? then st.rows[d := e.row.value] else st.rows)
  }

  /** Puts an effect's messages back: the handled one under its id, the published one under a new id. */
  function Placed(st: State, id: nat, e: Effect): State
    requires id in st.msgs
  {
    var kept := if e.after.Some? then st.msgs[id := e.after.value] else st.msgs - {id};
    if e.spawn.Some? then st.(msgs := kept[st.next := e.spawn.value], next := st.next + 1) else st.(msgs := kept)
  }

  predicate Legal(max: int, st: State, run: seq<Step>)
    decreases |run|
  {
    run == [] || (Enabled(st, run[0]) && Legal(max, Next(max, st, run[0]), run[1..]))
  }

  function Run(max: int, st: State, run: seq<Step>): State
    requires Legal(max, st, run)
    decreases |run|
  {
    if run == [] then st else Run(max, Next(max, st, run[0]), run[1..])
  }

  // ---------- limits ----------

  /** Provider sends still ahead of a job waiting in a channel queue, if all of them fail. */
  function SendsLeft(max: int, attempt: int): nat {
    if max <= attempt then 1 else (max - attempt) / 2 + 1
  }

  /** The number of sends the configured limit really allows. */
  function Budget(max: int): nat { SendsLeft(max, 0) }

  /** The highest attempt number a job can carry. */
  function TopAttempt(max: int): int { if max <= 0 then 1 else max + 1 }
}
