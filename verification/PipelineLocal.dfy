/** What one action keeps, seen from the message it works on. */
module PipelineLocal {
  import opened Common
  import opened Backoff
  import opened Pipeline
  import opened PipelineSums

  /** Attempt numbers: even in channel queues, odd in the retry and dead queues. A job in a channel queue is in
      the one that serves its channel. */
  predicate Shape(max: int, msg: Message) {
    if msg.body.Malformed? then msg.stage == Ready || msg.stage == Fetched
    else
      var a := msg.body.job.attempt;
      if IsChannel(msg.queue) then
        Serves(msg.queue, msg.body.job.channel) && a % 2 == 0 && (a == 0 || 0 <= a <= max) && msg.stage != Settling(AsDead)
      else if msg.queue == RetryQueue then
        a % 2 == 1 && 1 <= a <= TopAttempt(max)
        && (msg.stage == Ready || msg.stage == Fetched || msg.stage == Settling(AsHandedOn) || msg.stage == Settling(AsLost))
      else
        msg.queue == DeadQueue && a % 2 == 1 && max <= a && 1 <= a <= TopAttempt(max)
        && (msg.stage == Ready || msg.stage == Fetched || msg.stage == Settling(AsDead))
  }

  /** Sends and waits behind a holder whose delivery saw no crash. */
  predicate Exact(max: int, msg: Message, t: Tally)
    requires msg.body.Carries?
  {
    var a := msg.body.job.attempt;
    a >= 0 &&
    if IsChannel(msg.queue) then
      t.slept == TotalSlept(a / 2) &&
      t.sends == a / 2 +
        (if msg.stage.Tried? || msg.stage.Stored? || msg.stage == Failing || msg.stage == Settling(AsSent) || msg.stage == Settling(AsLost)
         then 1 else 0)
    else
      t.sends == (a + 1) / 2 && (msg.stage == Settling(AsLost) || t.slept == TotalSlept(a / 2))
  }

  predicate NoneSent(attempts: seq<bool>) { forall i | 0 <= i < |attempts| :: !attempts[i] }

  predicate SentLast(attempts: seq<bool>) {
    attempts != [] && attempts[|attempts| - 1] && NoneSent(attempts[..|attempts| - 1])
  }

  /** What the row shows, or will show when it is committed. */
  function Seen(r: Option<Row>): Row { if r.Some? then r.value else FRESH_ROW }

  /** Nothing has had to be written about the delivery yet. */
  predicate Unwritten(msg: Message)
    requires msg.body.Carries?
  {
    IsChannel(msg.queue) && msg.body.job.attempt == 0 && msg.stage != Stored(true) && msg.stage != Failing && !msg.stage.Settling?
  }

  /** The sends whose attempt row a holder's worker has come past. */
  function Recorded(msg: Message, t: Tally): int { t.sends - if msg.stage.Tried? || msg.stage.Stored? then 1 else 0 }

  /** The row of a holder whose delivery saw no crash and no database failure, and whose workers found the
      row whenever they had something to write. */
  predicate Picture(msg: Message, t: Tally, r: Option<Row>)
    requires msg.body.Carries?
  {
    var row := Seen(r);
    && (r.None? ==> Unwritten(msg))
    && |row.attempts| == Recorded(msg, t)
    && match msg.stage
       case Stored(true) => NoneSent(row.attempts) && row.delivered && row.status == Sent
       case Settling(v) => Ending(v, row)
       case _ => NoneSent(row.attempts) && !row.delivered && row.status !in {Sent, Blocked, Dead}
  }

  /** The row of such a holder when some worker did not find it: an attempt is missing, or the status does
      not show what became of the delivery. */
  predicate Spoiled(msg: Message, t: Tally, r: Option<Row>) {
    var row := Seen(r);
    && |row.attempts| <= Recorded(msg, t)
    && (|row.attempts| < Recorded(msg, t) || (msg.stage == Stored(true) && row.status != Sent)
        || (msg.stage.Settling? && Hides(msg.stage.verdict, row)))
  }

  predicate Hides(v: Verdict, r: Row) {
    (v == AsSent && r.status != Sent) || (v == AsBlocked && r.status != Blocked) || (v == AsDead && r.status != Dead)
  }

  /** The row of a holder whose delivery saw no crash and no database failure. */
  predicate Depicts(msg: Message, t: Tally, r: Option<Row>)
    requires msg.body.Carries?
  {
    if t.missed then Spoiled(msg, t, r) else Picture(msg, t, r)
  }

  /** How a row looks once its delivery has ended with a verdict. */
  predicate Ending(v: Verdict, r: Row) {
    match v
    case AsSent => r.status == Sent && r.delivered && SentLast(r.attempts)
    case AsBlocked => r.status == Blocked && !r.delivered && NoneSent(r.attempts)
    case AsDead => r.status == Dead && !r.delivered && NoneSent(r.attempts)
    case AsLost => r.status !in {Sent, Blocked, Dead} && !r.delivered && NoneSent(r.attempts)
    case AsHandedOn => true
  }

  predicate HasSentAttempt(r: Option<Row>) { r.Some? && true in r.value.attempts }

  /** A job is only acknowledged as sent with a `sent` attempt row behind it. */
  predicate Backed(msg: Message, r: Option<Row>) { msg.stage == Settling(AsSent) ==> HasSentAttempt(r) }

  /** Rows never disappear and attempt rows are only added. */
  predicate Grown(r: Option<Row>, r': Option<Row>) {
    (r.Some? <==> r'.Some?) && (r.Some? ==> r.value.attempts <= r'.value.attempts)
  }

  lemma GrownKeepsSentAttempt(r: Option<Row>, r': Option<Row>)
    requires Grown(r, r') && HasSentAttempt(r)
    ensures HasSentAttempt(r')
  {
    var i :| 0 <= i < |r.value.attempts| && r.value.attempts[i];
    assert r'.value.attempts[i];
  }

  predicate NonHolder(msg: Message) { msg.body.Carries? && !Holds(msg) }

  lemma ActKeepsShape(max: int, a: Action, msg: Message, t: Tally, r: Option<Row>)
    requires Can(a, msg) && Shape(max, msg)
    ensures var e := Act(max, a, msg, t, r);
            (e.after.Some? ==> Shape(max, e.after.value)) && (e.spawn.Some? ==> Shape(max, e.spawn.value))
  {
  }

  lemma ActKeepsDelivery(max: int, a: Action, msg: Message, t: Tally, r: Option<Row>)
    requires Can(a, msg)
    ensures var e := Act(max, a, msg, t, r);
            && (e.after.Some? ==> e.after.value.body == msg.body)
            && (e.spawn.Some? ==> msg.body.Carries? && e.spawn.value.body.Carries?
                                  && e.spawn.value.body.job.delivery == msg.body.job.delivery
                                  && e.spawn.value.stage == Ready)
            && Grown(r, e.row)
  {
  }

  /** The conservation law of one action: holders plus settlements move with duplicates only. */
  lemma ActConserves(max: int, a: Action, msg: Message, t: Tally, r: Option<Row>)
    requires Can(a, msg) && msg.body.Carries?
    ensures var e := Act(max, a, msg, t, r); var d := Some(msg.body.job.delivery);
            WeighOption(Holders, max, d, e.after) + WeighOption(Holders, max, d, e.spawn) + Settled(e.tally) + t.dupes
            == Weigh(Holders, max, d, msg) + Settled(t) + e.tally.dupes
    ensures Act(max, a, msg, t, r).tally.dupes - t.dupes <= Act(max, a, msg, t, r).tally.crashes - t.crashes
  {
  }

  lemma SendsLeftStep(max: int, a: int)
    ensures SendsLeft(max, a) == 1 + if a + 1 < max then SendsLeft(max, a + 2) else 0
    ensures a >= 0 ==> SendsLeft(max, a) <= Budget(max)
  {
  }

  lemma HandOnSpendsSends(max: int, pubOk: bool, msg: Message, t: Tally, r: Option<Row>)
    requires Can(HandOn(pubOk), msg) && msg.body.Carries? && Shape(max, msg)
    ensures var e := Act(max, HandOn(pubOk), msg, t, r); var d := Some(msg.body.job.delivery);
            e.tally.sends == t.sends && e.tally.crashes == t.crashes
            && WeighOption(Sends, max, d, e.after) + WeighOption(Sends, max, d, e.spawn) <= Weigh(Sends, max, d, msg)
  {
    hide SendsLeft;
    SendsLeftStep(max, msg.body.job.attempt);
  }

  lemma CrashSpendsSends(max: int, msg: Message)
    requires msg.body.Carries? && Shape(max, msg)
    ensures SendsOf(max, msg.(stage := Ready)) <= Budget(max)
  {
    SendsLeftStep(max, msg.body.job.attempt);
    SendsLeftStep(max, msg.body.job.attempt + 1);
  }

  /** Actions inside one handler neither publish nor lose a possible send, except the send itself. */
  lemma HandlerSpendsSends(max: int, a: Action, msg: Message, t: Tally, r: Option<Row>)
    requires Can(a, msg) && msg.body.Carries? && Shape(max, msg) && !a.HandOn? && a != Crash
    ensures var e := Act(max, a, msg, t, r); var d := Some(msg.body.job.delivery);
            e.spawn.None? && e.tally.crashes == t.crashes
            && e.tally.sends + WeighOption(Sends, max, d, e.after) <= t.sends + Weigh(Sends, max, d, msg)
  {
    hide SendsLeft, HandedOn;
    SendsLeftStep(max, msg.body.job.attempt);
  }

  /** Sends made plus sends still possible never grow, except by a whole budget at a crash. */
  lemma ActSpendsSends(max: int, a: Action, msg: Message, t: Tally, r: Option<Row>)
    requires Can(a, msg) && msg.body.Carries? && Shape(max, msg)
    ensures var e := Act(max, a, msg, t, r); var d := Some(msg.body.job.delivery);
            e.tally.sends + WeighOption(Sends, max, d, e.after) + WeighOption(Sends, max, d, e.spawn)
            <= t.sends + Weigh(Sends, max, d, msg) + if a == Crash then Budget(max) else 0
    ensures Act(max, a, msg, t, r).tally.crashes == t.crashes + if a == Crash then 1 else 0
  {
    hide SendsOf, SendsLeft, Shape;
    if a.HandOn? {
      HandOnSpendsSends(max, a.pubOk, msg, t, r);
    } else if a == Crash {
      CrashSpendsSends(max, msg);
    } else {
      HandlerSpendsSends(max, a, msg, t, r);
    }
  }

  /** Actions that put a message back into its queue. */
  predicate Requeues(a: Action) {
    a.Check? && (a.control == Errored || a.control == Paused || (a.control == Stopped && !a.dbOk))
  }

  lemma HandOnPaysWork(max: int, pubOk: bool, msg: Message, t: Tally, r: Option<Row>)
    requires Can(HandOn(pubOk), msg) && Shape(max, msg)
    ensures var e := Act(max, HandOn(pubOk), msg, t, r);
            1 + WeighOption(Work, max, None, e.after) + WeighOption(Work, max, None, e.spawn) <= WorkOf(max, msg)
  {
    hide SendsLeft;
    SendsLeftStep(max, msg.body.job.attempt);
  }

  lemma CrashPaysWork(max: int, msg: Message)
    requires Shape(max, msg)
    ensures WorkOf(max, msg.(stage := Ready)) <= 11 * Budget(max) + 3
  {
    if msg.body.Carries? {
      SendsLeftStep(max, msg.body.job.attempt);
      SendsLeftStep(max, msg.body.job.attempt + 1);
    }
  }

  lemma HandlerPaysWork(max: int, a: Action, msg: Message, t: Tally, r: Option<Row>)
    requires Can(a, msg) && Shape(max, msg) && !a.HandOn? && a != Crash
    ensures var e := Act(max, a, msg, t, r);
            e.spawn.None? && 1 + WeighOption(Work, max, None, e.after) <= WorkOf(max, msg) + if Requeues(a) then 2 else 0
  {
    hide SendsLeft, HandedOn;
    if msg.body.Carries? {
      SendsLeftStep(max, msg.body.job.attempt);
    }
  }

  /** Every action pays for itself out of the remaining work, unless it requeues or is a crash. */
  lemma ActPaysWork(max: int, a: Action, msg: Message, t: Tally, r: Option<Row>)
    requires Can(a, msg) && Shape(max, msg)
    ensures var e := Act(max, a, msg, t, r);
            1 + WeighOption(Work, max, None, e.after) + WeighOption(Work, max, None, e.spawn)
            <= Weigh(Work, max, None, msg)
               + if a == Crash then 11 * Budget(max) + 4 else if Requeues(a) then 2 else 0
  {
    hide WorkOf, SendsLeft, Shape, Budget;
    if a.HandOn? {
      HandOnPaysWork(max, a.pubOk, msg, t, r);
    } else if a == Crash {
      CrashPaysWork(max, msg);
    } else {
      HandlerPaysWork(max, a, msg, t, r);
    }
  }

  lemma HalfOfOdd(a: int)
    requires a % 2 == 1 && a >= 1
    ensures (a + 1) / 2 == a / 2 + 1 && TotalSlept((a + 1) / 2) == TotalSlept(a / 2) + Sleep(a)
  {
    hide Sleep, TotalSlept;
    var k := a / 2;
    assert a == 2 * k + 1 && (a + 1) / 2 == k + 1;
    TotalSleptStep(k);
  }

  /** Handing a job on carries its exact counts to the next queue. */
  lemma HandOnKeepsExact(max: int, pubOk: bool, msg: Message, t: Tally, r: Option<Row>)
    requires Can(HandOn(pubOk), msg) && msg.body.Carries? && Shape(max, msg) && Holds(msg) && Exact(max, msg, t)
    ensures var e := Act(max, HandOn(pubOk), msg, t, r);
            && (e.after.Some? && Holds(e.after.value) ==> Exact(max, e.after.value, e.tally))
            && (e.spawn.Some? ==> Exact(max, e.spawn.value, e.tally))
  {
    hide Sleep, TotalSlept;
    var n := msg.body.job.attempt;
    if msg.queue == RetryQueue {
      HalfOfOdd(n);
    } else {
      assert (n + 1) / 2 == n / 2 && (n + 2) / 2 == n / 2 + 1;
    }
  }

  /** Without a crash the exact send and wait counts follow the message from queue to queue. */
  lemma ActKeepsExact(max: int, a: Action, msg: Message, t: Tally, r: Option<Row>)
    requires Can(a, msg) && msg.body.Carries? && Shape(max, msg) && Holds(msg) && a != Crash && Exact(max, msg, t)
    ensures var e := Act(max, a, msg, t, r);
            && (e.after.Some? && Holds(e.after.value) ==> Exact(max, e.after.value, e.tally))
            && (e.spawn.Some? ==> Exact(max, e.spawn.value, e.tally))
    ensures a == Settle ==> Act(max, a, msg, t, r).tally.sends == t.sends && Act(max, a, msg, t, r).tally.slept == t.slept
  {
    hide Sleep, TotalSlept;
    if a.HandOn? {
      HandOnKeepsExact(max, a.pubOk, msg, t, r);
    } else {
      assert Act(max, a, msg, t, r).spawn.None?;
    }
  }

  /** The verdict a settled delivery ended with. */
  function VerdictOf(t: Tally): Verdict {
    if t.sent > 0 then AsSent else if t.blocked > 0 then AsBlocked else if t.dead > 0 then AsDead else AsLost
  }

  /** The row tells exactly how the delivery ended, with one attempt row per send. */
  predicate EndsRight(t: Tally, r: Row) { |r.attempts| == t.sends && Ending(VerdictOf(t), r) }

  predicate Ends(t: Tally, r: Option<Row>) {
    if t.missed then |Seen(r).attempts| < t.sends || Hides(VerdictOf(t), Seen(r)) else r.Some? && EndsRight(t, r.value)
  }

  lemma HandedOnIsReady(max: int, msg: Message)
    requires msg.body.Carries?
    ensures var next := HandedOn(max, msg.queue, msg.body.job);
            next.stage == Ready && next.body.Carries? && next.body.job.delivery == msg.body.job.delivery
  {
  }

  /** Without crash or database failure, and as long as the workers find the row, it follows the message. */
  lemma ActKeepsPicture(max: int, a: Action, msg: Message, t: Tally, r: Option<Row>)
    requires Can(a, msg) && msg.body.Carries? && Holds(msg) && a != Crash && Picture(msg, t, r)
    requires var t' := Act(max, a, msg, t, r).tally; t'.faults == t.faults && !t'.missed
    ensures var e := Act(max, a, msg, t, r);
            && (e.after.Some? && Holds(e.after.value) ==> Picture(e.after.value, e.tally, e.row))
            && (e.spawn.Some? ==> Picture(e.spawn.value, e.tally, e.row))
            && (a == Settle ==> e.row == r)
  {
    hide Sleep, HandedOn;
    HandedOnIsReady(max, msg);
    if a.Record? && r.Some? {
      assert (r.value.attempts + [msg.stage.ok])[..|r.value.attempts|] == r.value.attempts;
    }
  }

  /** Once a worker has missed the row, an attempt or the outcome stays missing, even when the row comes. */
  lemma ActKeepsSpoiled(max: int, a: Action, msg: Message, t: Tally, r: Option<Row>)
    requires Can(a, msg) && msg.body.Carries? && Holds(msg) && a != Crash && Depicts(msg, t, r)
    requires var t' := Act(max, a, msg, t, r).tally; t'.faults == t.faults && t'.missed
    ensures var e := Act(max, a, msg, t, r);
            && (e.after.Some? && Holds(e.after.value) ==> Spoiled(e.after.value, e.tally, e.row))
            && (e.spawn.Some? ==> Spoiled(e.spawn.value, e.tally, e.row))
            && (a == Settle ==> e.row == r)
  {
    hide Sleep, HandedOn;
    HandedOnIsReady(max, msg);
  }

  /** Acknowledging records the verdict the row already shows, or hides. */
  lemma ActKeepsEnding(max: int, a: Action, msg: Message, t: Tally, r: Option<Row>)
    requires Can(a, msg) && msg.body.Carries? && Holds(msg) && a != Crash && Depicts(msg, t, r) && Settled(t) == 0
    ensures var e := Act(max, a, msg, t, r); Settled(e.tally) > 0 ==> Ends(e.tally, e.row)
  {
  }

  lemma ActKeepsBacked(max: int, a: Action, msg: Message, t: Tally, r: Option<Row>)
    requires Can(a, msg) && msg.body.Carries? && Backed(msg, r)
    ensures var e := Act(max, a, msg, t, r);
            && (e.after.Some? ==> Backed(e.after.value, e.row)) && (e.spawn.Some? ==> Backed(e.spawn.value, e.row))
            && (e.tally.sent > t.sent ==> HasSentAttempt(e.row))
  {
    if a.Record? && r.Some? {
      assert (r.value.attempts + [msg.stage.ok])[|r.value.attempts|] == msg.stage.ok;
    }
  }

  /** A handler that already passed its job on changes nothing more, unless it crashes. */
  lemma NonHolderIsInert(max: int, a: Action, msg: Message, t: Tally, r: Option<Row>)
    requires Can(a, msg) && NonHolder(msg) && a != Crash
    ensures Act(max, a, msg, t, r) == Effect(None, None, t, r)
  {
  }

  /** A failing dead-lettered job has used its whole budget. */
  lemma DeadHasSpentBudget(max: int, msg: Message, t: Tally)
    requires msg.body.Carries? && msg.queue == DeadQueue && Shape(max, msg) && Exact(max, msg, t)
    ensures t.sends == Budget(max) && t.slept == TotalSlept(Budget(max) - 1)
  {
  }
}
