/** The workers' loops as imperative code over one broker and one database, proved to be runs of the
    pipeline's state machine (delivery/worker.go, retry/service.go). */
module Workers {
  import opened Common
  import opened Pipeline
  import opened Backoff
  import opened PipelineSums
  import opened PipelineLocal
  import opened PipelineSafety

  /** What the environment answers during one iteration of a channel worker. */
  datatype WorkerWorld = WorkerWorld(control: Control, controlDb: bool, markDb: bool, sendOk: bool,
                                     storeDb: bool, recordDb: bool, publishOk: bool)

  predicate NoCrash(run: seq<Step>) { forall i | 0 <= i < |run| :: run[i].On? && run[i].action != Crash }

  lemma {:induction false} RunConcat(max: int, st: State, first: seq<Step>, second: seq<Step>)
    requires Legal(max, st, first) && Legal(max, Run(max, st, first), second)
    ensures Legal(max, st, first + second) && Run(max, st, first + second) == Run(max, Run(max, st, first), second)
    decreases |first|
  {
    if first == [] {
      assert first + second == second;
    } else {
      RunConcat(max, Next(max, st, first[0]), first[1..], second);
      assert (first + second)[1..] == first[1..] + second;
    }
  }

  lemma NoStep(max: int, st: State)
    ensures Legal(max, st, []) && Run(max, st, []) == st && NoCrash([])
  {
  }

  lemma NoCrashConcat(first: seq<Step>, second: seq<Step>)
    requires NoCrash(first) && NoCrash(second)
    ensures NoCrash(first + second)
  {
  }

  lemma RunAppend(max: int, st: State, run: seq<Step>, s: Step)
    requires Legal(max, st, run) && Enabled(Run(max, st, run), s)
    ensures Legal(max, st, run + [s]) && Run(max, st, run + [s]) == Next(max, Run(max, st, run), s)
  {
    assert Legal(max, Run(max, st, run), [s]);
    RunConcat(max, st, run, [s]);
  }

  /** Working twice on the same message and delivery leaves the later effect. */
  lemma AppliedTwice(start: State, id: nat, d: DeliveryId, e: Effect, e': Effect)
    requires id in start.msgs && e.after.Some? && e.spawn.None?
    requires (e.row.Some? <==> d in start.rows) && (e'.row.Some? <==> d in start.rows)
    ensures Applied(Applied(start, id, d, e), id, d, e') == Applied(start, id, d, e')
    ensures TallyOf(Applied(start, id, d, e), d) == e.tally && RowOf(Applied(start, id, d, e), d) == e.row
  {
    var mid := Applied(start, id, d, e);
    assert mid.msgs == start.msgs[id := e.after.value];
    assert mid.msgs - {id} == start.msgs - {id};
    assert start.tallies[d := e.tally][d := e'.tally] == start.tallies[d := e'.tally];
  }

  /** The state an effect with a remaining message leads to, field by field. */
  lemma Unfolded(start: State, id: nat, d: DeliveryId, e: Effect)
    requires id in start.msgs && e.after.Some?
    ensures var st := Applied(start, id, d, e);
            && st.tallies == start.tallies[d := e.tally]
            && st.rows == (if e.row.Some? then start.rows[d := e.row.value] else start.rows)
            && (e.spawn.None? ==> st.msgs == start.msgs[id := e.after.value] && st.next == start.next)
            && (e.spawn.Some? ==> st.msgs == start.msgs[id := e.after.value][start.next := e.spawn.value] && st.next == start.next + 1)
  {
  }

  /** One more action of a tracked handler extends its run and composes its effect. */
  lemma StepTracked(max: int, start: State, run: seq<Step>, id: nat, d: DeliveryId, e: Effect, a: Action)
    requires id in start.msgs && start.msgs[id].body.Carries? && start.msgs[id].body.job.delivery == d
    requires e.after.Some? && e.spawn.None? && e.after.value.body == start.msgs[id].body && (e.row.Some? <==> d in start.rows)
    requires Legal(max, start, run) && NoCrash(run) && Run(max, start, run) == Applied(start, id, d, e)
    requires Can(a, e.after.value) && a != Settle && a != Crash
    ensures var e' := Act(max, a, e.after.value, e.tally, e.row); var run' := run + [On(id, a)];
            && Legal(max, start, run') && NoCrash(run') && Run(max, start, run') == Applied(start, id, d, e')
            && e'.after.Some? && e'.after.value.body == start.msgs[id].body && (e'.row.Some? <==> d in start.rows)
  {
    RunAppend(max, start, run, On(id, a));
    ActKeepsDelivery(max, a, e.after.value, e.tally, e.row);
    AppliedTwice(start, id, d, e, Act(max, a, e.after.value, e.tally, e.row));
  }

  /** The acknowledgement extends the run and removes the message. */
  lemma FinishTracked(max: int, start: State, run: seq<Step>, id: nat, d: DeliveryId, e: Effect)
    requires id in start.msgs && id < start.next && start.msgs[id].body.Carries? && start.msgs[id].body.job.delivery == d
    requires e.after.Some? && e.after.value.body == start.msgs[id].body && (e.row.Some? <==> d in start.rows)
    requires e.after.value.stage.Settling?
    requires Legal(max, start, run) && NoCrash(run) && Run(max, start, run) == Applied(start, id, d, e)
    ensures var run' := run + [On(id, Settle)];
            Legal(max, start, run') && NoCrash(run') && Run(max, start, run') == Applied(start, id, d, Finished(e))
  {
    RunAppend(max, start, run, On(id, Settle));
    FinishedFields(start, id, d, e);
    assert start.tallies[d := e.tally][d := Finished(e).tally] == start.tallies[d := Finished(e).tally];
    assert e.row.Some? ==> start.rows[d := e.row.value][d := e.row.value] == start.rows[d := e.row.value];
  }

  /** An effect once its message is acknowledged. */
  function Finished(e: Effect): Effect
    requires e.after.Some? && e.after.value.stage.Settling?
  {
    Effect(None, e.spawn, Count(e.tally, e.after.value.stage.verdict), e.row)
  }

  lemma FinishedFields(start: State, id: nat, d: DeliveryId, e: Effect)
    requires id in start.msgs && id < start.next && e.after.Some? && e.after.value.stage.Settling?
    ensures var st := Applied(start, id, d, Finished(e)); var st0 := Applied(start, id, d, e);
            && st.tallies == start.tallies[d := Finished(e).tally] == st0.tallies[d := Finished(e).tally]
            && st.rows == st0.rows && st.next == st0.next && st.msgs == st0.msgs - {id}
  {
  }

  /** Fetching and rejecting a malformed body only removes its message. */
  lemma JunkRun(max: int, st: State, id: nat)
    requires id in st.msgs && st.msgs[id].body.Malformed? && st.msgs[id].stage == Ready && st.msgs[id].queue != SchedulerQueue
    ensures var run := [On(id, Fetch), On(id, Settle)];
            Legal(max, st, run) && Run(max, st, run) == st.(msgs := st.msgs - {id}) && NoCrash(run)
  {
    var mid := Next(max, st, On(id, Fetch));
    assert mid == st.(msgs := st.msgs[id := st.msgs[id].(stage := Fetched)]);
    assert mid.msgs - {id} == st.msgs - {id};
    assert Next(max, mid, On(id, Settle)) == st.(msgs := st.msgs - {id});
    NoStep(max, st.(msgs := st.msgs - {id}));
    RunAppend(max, mid, [], On(id, Settle)) by {
      NoStep(max, mid);
    }
    assert [On(id, Fetch), On(id, Settle)][1..] == [] + [On(id, Settle)];
  }

  /** An effect that keeps or removes its message touches no other message. */
  lemma OthersUntouched(st: State, id: nat, d: DeliveryId, e: Effect)
    requires Numbered(st) && id in st.msgs && (e.after.Some? ==> e.after == Some(st.msgs[id]))
    ensures var st' := Applied(st, id, d, e);
            && (forall i | i in st.msgs && i != id :: i in st'.msgs && st'.msgs[i] == st.msgs[i])
            && (id in st'.msgs <==> e.after.Some?) && (id in st'.msgs ==> st'.msgs[id] == st.msgs[id])
            && st.next <= st'.next && (forall i | i in st'.msgs && i !in st.msgs :: st.next <= i)
  {
  }

  lemma JunkIsDropped(st: State, id: nat, w: WorkerWorld)
    requires id in st.msgs && st.msgs[id].body.Malformed?
    ensures !PutsBack(st.msgs[id], w) && forall d :: !SendsFor(st.msgs[id], w, d)
  {
  }

  lemma SendsOfOthers(st: State, id: nat, d: DeliveryId, e: Effect, w: WorkerWorld)
    requires id in st.msgs && st.msgs[id].body.Carries? && st.msgs[id].body.job.delivery == d && d in st.tallies
    requires e.tally.sends == st.tallies[d].sends + if SendsFor(st.msgs[id], w, d) then 1 else 0
    ensures var st' := Applied(st, id, d, e);
            && st'.tallies.Keys == st.tallies.Keys
            && forall x <- st.tallies :: st'.tallies[x].sends == st.tallies[x].sends + if SendsFor(st.msgs[id], w, x) then 1 else 0
  {
  }

  lemma IdsBelowNext(max: int, st: State)
    requires Inv(max, st)
    ensures forall i | i in st.msgs :: i < st.next
  {
  }

  /** The handler reports success only for an accepted send whose answer and attempt were both stored. */
  predicate Delivered(w: WorkerWorld, r: Option<Row>) { w.sendOk && w.storeDb && w.recordDb && r.Some? }

  /** The delivery row after one handled job. */
  function RowAfterHandling(w: WorkerWorld, r: Option<Row>): Option<Row> {
    match r
    case None => None
    case Some(row) =>
      if !w.storeDb then SetStatus(r, Sending, w.markDb)
      else Some(Row(if w.sendOk then Sent else Failed, w.sendOk, if w.recordDb then row.attempts + [w.sendOk] else row.attempts))
  }

  /** One send is made; a database failure while recording it is remembered, and so is a row not found. */
  function TallyAfterHandling(w: WorkerWorld, t: Tally, r: Option<Row>): Tally {
    t.(sends := t.sends + 1, faults := t.faults + (if w.storeDb && w.recordDb then 0 else 1),
       missed := t.missed || (r.None? && w.storeDb && (w.sendOk || w.recordDb)))
  }

  /** The net effect of one channel-worker iteration on a job, message, history and row. */
  function WorkerEffect(msg: Message, t: Tally, r: Option<Row>, w: WorkerWorld): Effect
    requires msg.body.Carries?
  {
    match w.control
    case Errored => Effect(Some(msg), None, t, r)
    case Paused => Effect(Some(msg), None, t, SetStatus(r, Queued, w.controlDb))
    case Stopped =>
      if w.controlDb then Effect(None, None, Writes(t, r).(blocked := t.blocked + 1), SetStatus(r, Blocked, true))
      else Effect(Some(msg), None, t, r)
    case Active =>
      var job := msg.body.job;
      var t' := TallyAfterHandling(w, t, r);
      var r' := RowAfterHandling(w, r);
      if Delivered(w, r) then Effect(None, None, t'.(sent := t'.sent + 1), r')
      else if w.publishOk then
        Effect(None, Some(Message(RetryQueue, Carries(job.(attempt := job.attempt + 1)), Ready)), t', r')
      else Effect(None, None, t'.(lost := t'.lost + 1), r')
  }

  /** The net effect of one dead-letter iteration on a job. */
  function BurialEffect(t: Tally, r: Option<Row>, dbOk: bool): Effect {
    var t' := if dbOk then Writes(t, r) else t.(faults := t.faults + 1);
    Effect(None, None, t'.(dead := t.dead + 1), SetStatus(r, Dead, dbOk))
  }

  /** The net effect of one retry-worker iteration on a job. */
  function RetryEffect(max: int, msg: Message, t: Tally, r: Option<Row>, publishOk: bool): Effect
    requires msg.body.Carries?
  {
    var job := msg.body.job;
    var t' := if job.attempt < max then t.(slept := t.slept + Sleep(job.attempt)) else t;
    if !publishOk then Effect(None, None, t'.(lost := t'.lost + 1), r)
    else if job.attempt >= max then Effect(None, Some(Message(DeadQueue, Carries(job), Ready)), t', r)
    else Effect(None, Some(Message(ChannelQueue(job.channel), Carries(job.(attempt := job.attempt + 1)), Ready)), t', r)
  }

  /** The channel worker puts a job back while its control cannot be read, is paused, or is stopped without that
      being recorded. */
  predicate PutsBack(msg: Message, w: WorkerWorld) {
    msg.body.Carries? && IsChannel(msg.queue) &&
    (w.control == Errored || w.control == Paused || (w.control == Stopped && !w.controlDb))
  }

  /** An iteration on that message calls the provider for that delivery. */
  predicate SendsFor(msg: Message, w: WorkerWorld, d: DeliveryId) {
    msg.body.Carries? && msg.body.job.delivery == d && IsChannel(msg.queue) && w.control == Active
  }

  /** The provider calls of the first k iterations for one delivery. */
  function SendsOfBatch(msgs: map<nat, Message>, inbox: seq<nat>, worlds: seq<WorkerWorld>, d: DeliveryId, k: nat): nat
    requires k <= |inbox| == |worlds| && forall i | 0 <= i < |inbox| :: inbox[i] in msgs
  {
    if k == 0 then 0
    else SendsOfBatch(msgs, inbox, worlds, d, k - 1) + if SendsFor(msgs[inbox[k - 1]], worlds[k - 1], d) then 1 else 0
  }

  /** What one iteration of the queue's worker does to a job. */
  function IterationEffect(max: int, msg: Message, t: Tally, r: Option<Row>, w: WorkerWorld): Effect
    requires msg.body.Carries?
  {
    if msg.queue == RetryQueue then RetryEffect(max, msg, t, r, w.publishOk)
    else if msg.queue == DeadQueue then BurialEffect(t, r, w.storeDb)
    else WorkerEffect(msg, t, r, w)
  }

  // What becomes of a job in one iteration, as its tenant, its channel and its history see it.

  /** A channel worker keeps the job exactly while the queue control fails, is paused, or is stopped without
      that being recorded; it calls the provider exactly when the control is active; and the job is settled as
      sent, as blocked or as lost, or passed to the retry queue with everything but the attempt number unchanged. */
  lemma WorkerOutcome(msg: Message, t: Tally, r: Option<Row>, w: WorkerWorld)
    requires msg.body.Carries?
    ensures var e := WorkerEffect(msg, t, r, w); var job := msg.body.job;
            var kept := w.control == Errored || w.control == Paused || (w.control == Stopped && !w.controlDb);
            var delivered := w.control == Active && w.sendOk && w.storeDb && w.recordDb && r.Some?;
            var failed := w.control == Active && !delivered;
            && e.after == (if kept then Some(msg) else None)
            && e.tally.sends == t.sends + (if w.control == Active then 1 else 0)
            && e.tally.sent == t.sent + (if delivered then 1 else 0)
            && e.tally.blocked == t.blocked + (if w.control == Stopped && w.controlDb then 1 else 0)
            && e.tally.lost == t.lost + (if failed && !w.publishOk then 1 else 0) && e.tally.dead == t.dead
            && (e.spawn.Some? <==> failed && w.publishOk)
            && (e.spawn.Some? ==> e.spawn.value.queue == RetryQueue && e.spawn.value.stage == Ready
                                  && e.spawn.value.body.Carries? && e.spawn.value.body.job == job.(attempt := job.attempt + 1))
  {
  }

  /** The retry worker never keeps a job: below the limit it goes back, one attempt later and after a wait, to the
      queue that serves its channel, from the limit on to the dead queue as it is; or it is lost. */
  lemma RetryOutcome(max: int, msg: Message, t: Tally, r: Option<Row>, publishOk: bool)
    requires msg.body.Carries?
    ensures var e := RetryEffect(max, msg, t, r, publishOk); var job := msg.body.job;
            && e.after == None && e.row == r && (e.spawn.Some? <==> publishOk)
            && (e.spawn.Some? && job.attempt < max ==>
                  Serves(e.spawn.value.queue, job.channel) && e.spawn.value.body == Carries(job.(attempt := job.attempt + 1)))
            && (e.spawn.Some? && job.attempt >= max ==> e.spawn.value == Message(DeadQueue, msg.body, Ready))
            && e.tally == t.(lost := t.lost + (if publishOk then 0 else 1),
                             slept := t.slept + (if job.attempt < max then Sleep(job.attempt) else 0))
  {
  }

  /** The dead-letter worker settles every job as dead; its row says so if it is there and the write succeeds. */
  lemma BurialOutcome(t: Tally, r: Option<Row>, dbOk: bool)
    ensures var e := BurialEffect(t, r, dbOk);
            && e.after == None && e.spawn == None && e.tally.dead == t.dead + 1 && e.tally.sends == t.sends
            && (r.Some? ==> e.row.Some? && e.row.value.attempts == r.value.attempts && e.row.value.status == if dbOk then Dead else r.value.status)
            && (r.None? ==> e.row == None)
  {
  }

  lemma IterationOutcome(max: int, msg: Message, t: Tally, r: Option<Row>, w: WorkerWorld)
    requires msg.body.Carries? && msg.queue != SchedulerQueue
    ensures var e := IterationEffect(max, msg, t, r, w);
            && e.after == (if PutsBack(msg, w) then Some(msg) else None)
            && e.tally.sends == t.sends + if SendsFor(msg, w, msg.body.job.delivery) then 1 else 0
  {
    hide WorkerEffect, RetryEffect, BurialEffect;
    WorkerOutcome(msg, t, r, w);
    RetryOutcome(max, msg, t, r, w.publishOk);
    BurialOutcome(t, r, w.storeDb);
  }

  lemma RetryLeaves(max: int, st: State, id: nat, publishOk: bool)
    requires id in st.msgs && id < st.next && st.msgs[id].body.Carries? && st.msgs[id].body.job.delivery in st.tallies
    ensures var job := st.msgs[id].body.job; var d := job.delivery;
            var st' := Applied(st, id, d, RetryEffect(max, st.msgs[id], st.tallies[d], RowOf(st, d), publishOk));
            && id !in st'.msgs && (!publishOk ==> st'.msgs.Keys <= st.msgs.Keys)
            && (publishOk ==>
                  && st.next in st'.msgs
                  && (job.attempt < max ==>
                        Serves(st'.msgs[st.next].queue, job.channel) && st'.msgs[st.next].body == Carries(job.(attempt := job.attempt + 1)))
                  && (job.attempt >= max ==> st'.msgs[st.next] == Message(DeadQueue, Carries(job), Ready)))
  {
    hide Applied, RetryEffect, Serves;
    var d := st.msgs[id].body.job.delivery;
    RetryOutcome(max, st.msgs[id], st.tallies[d], RowOf(st, d), publishOk);
    AppliedMessages(st, id, d, RetryEffect(max, st.msgs[id], st.tallies[d], RowOf(st, d), publishOk));
  }

  /** Where an effect leaves the handled and the published message. */
  lemma AppliedMessages(st: State, id: nat, d: DeliveryId, e: Effect)
    requires id in st.msgs && id < st.next
    ensures var st' := Applied(st, id, d, e);
            && (e.after.None? ==> id !in st'.msgs)
            && (e.spawn.Some? ==> st.next in st'.msgs && st'.msgs[st.next] == e.spawn.value)
            && (e.spawn.None? ==> st'.msgs.Keys <= st.msgs.Keys)
  {
  }

  class Platform {
    const max: int                                // MaxDeliveryTries
    var msgs: map<nat, Message>
    var next: nat
    var rows: map<DeliveryId, Row>
    var tallies: map<DeliveryId, Tally>

    ghost function View(): State
      reads this
    {
      State(msgs, next, rows, tallies)
    }

    constructor (max: int)
      ensures this.max == max && View() == INIT
    {
      this.max := max;
      msgs, next, rows, tallies := map[], 0, map[], map[];
    }

    /** The handler holding message `id` has made the legal run `run` since `start`, and all it has done
        so far is the effect `e` on the message and its delivery's history and row. */
    ghost predicate Tracks(start: State, run: seq<Step>, id: nat, d: DeliveryId, e: Effect)
      reads this
    {
      && id in start.msgs && id < start.next && d in start.tallies
      && start.msgs[id].body.Carries? && start.msgs[id].body.job.delivery == d
      && e.after.Some? && e.after.value.body == start.msgs[id].body
      && (e.row.Some? <==> d in start.rows)
      && Legal(max, start, run) && NoCrash(run)
      && View() == Run(max, start, run) == Applied(start, id, d, e)
      && id in msgs && msgs[id] == e.after.value
    }

    /** Writes an effect to the queues and tables. */
    method Put(id: nat, key: DeliveryId, effect: Effect)
      requires effect.after.Some?
      modifies this
      ensures tallies == old(tallies)[key := effect.tally]
      ensures rows == if effect.row.Some? then old(rows)[key := effect.row.value] else old(rows)
      ensures effect.spawn.None? ==> msgs == old(msgs)[id := effect.after.value] && next == old(next)
      ensures effect.spawn.Some? ==>
                msgs == old(msgs)[id := effect.after.value][old(next) := effect.spawn.value] && next == old(next) + 1
    {
      tallies := tallies[key := effect.tally];
      if effect.row.Some? {
        rows := rows[key := effect.row.value];
      }
      msgs := msgs[id := effect.after.value];
      if effect.spawn.Some? {
        msgs := msgs[next := effect.spawn.value];
        next := next + 1;
      }
    }

    /** One atomic broker or database operation of that handler, short of the acknowledgement. */
    method Perform(id: nat, a: Action, ghost start: State, ghost run: seq<Step>, ghost d: DeliveryId, ghost e: Effect)
      returns (ghost run': seq<Step>, ghost e': Effect)
      requires Tracks(start, run, id, d, e) && e.spawn.None? && Can(a, e.after.value) && a != Settle && a != Crash
      modifies this
      ensures e' == Act(max, a, e.after.value, e.tally, e.row) && Tracks(start, run', id, d, e')
    {
      hide Act, NoCrash, Applied, Legal, Run, Can;
      run' := run + [On(id, a)];
      e' := Act(max, a, e.after.value, e.tally, e.row);
      StepTracked(max, start, run, id, d, e, a);
      Unfolded(start, id, d, e);
      var msg := msgs[id];
      var key := msg.body.job.delivery;
      var effect := Act(max, a, msg, tallies[key], if key in rows then Some(rows[key]) else None);
      assert effect == e';
      Put(id, key, effect);
      Unfolded(start, id, d, e');
      SameAfter(start, id, d, e, e');
    }

    /** A second effect on the same message and delivery overwrites the first. */
    lemma SameAfter(start: State, id: nat, d: DeliveryId, e: Effect, e': Effect)
      requires id < start.next && e.after.Some? && e'.after.Some? && (e.row.Some? <==> d in start.rows) && (e'.row.Some? <==> d in start.rows)
      ensures start.tallies[d := e.tally][d := e'.tally] == start.tallies[d := e'.tally]
      ensures start.msgs[id := e.after.value][id := e'.after.value] == start.msgs[id := e'.after.value]
      ensures e.row.Some? ==> start.rows[d := e.row.value][d := e'.row.value] == start.rows[d := e'.row.value]
    {
    }

    /** The acknowledgement that ends an iteration, also after the next queue got its copy. */
    method Finish(id: nat, ghost start: State, ghost run: seq<Step>, ghost d: DeliveryId, ghost e: Effect) returns (ghost run': seq<Step>)
      requires Tracks(start, run, id, d, e) && e.after.value.stage.Settling?
      modifies this
      ensures Legal(max, start, run') && View() == Run(max, start, run') && NoCrash(run')
      ensures View() == Applied(start, id, d, Finished(e))
    {
      hide Act, NoCrash, Applied, Legal, Run;
      run' := run + [On(id, Settle)];
      FinishTracked(max, start, run, id, d, e);
      Unfolded(start, id, d, e);
      var msg := msgs[id];
      var key := msg.body.job.delivery;
      tallies := tallies[key := Count(tallies[key], msg.stage.verdict)];
      msgs := msgs - {id};
      FinishedFields(start, id, d, e);
    }

    /** Takes a body that is not a job off its queue without requeueing it. */
    method DropJunk(id: nat) returns (ghost run: seq<Step>)
      requires id in msgs && msgs[id].body.Malformed? && msgs[id].stage == Ready && msgs[id].queue != SchedulerQueue
      modifies this
      ensures Legal(max, old(View()), run) && View() == Run(max, old(View()), run) && NoCrash(run)
      ensures View() == old(View()).(msgs := old(msgs) - {id})
    {
      run := [On(id, Fetch), On(id, Settle)];
      JunkRun(max, View(), id);
      msgs := msgs - {id};
    }

    /** worker.go `handle`: mark the row, send, store the answer, insert the attempt. */
    method Handle(id: nat, w: WorkerWorld, ghost start: State, ghost run: seq<Step>, ghost d: DeliveryId, ghost e: Effect)
      returns (failed: bool, ghost run': seq<Step>, ghost e': Effect)
      requires Tracks(start, run, id, d, e) && e.spawn.None? && e.after.value.stage == Cleared
      modifies this
      ensures Tracks(start, run', id, d, e') && failed == !Delivered(w, e.row)
      ensures e' == Effect(At(e.after.value, if failed then Failing else Settling(AsSent)), None,
                           TallyAfterHandling(w, e.tally, e.row), RowAfterHandling(w, e.row))
    {
      hide Applied, Run, Legal, NoCrash;
      run', e' := Perform(id, Mark(w.markDb), start, run, d, e);
      run', e' := Perform(id, Attempt(w.sendOk), start, run', d, e');
      run', e' := Perform(id, Store(w.storeDb), start, run', d, e');
      if !w.storeDb {
        return true, run', e';
      }
      run', e' := Perform(id, Record(w.recordDb), start, run', d, e');
      failed := msgs[id].stage == Failing;
    }

    /** What tracking says about the current state. */
    lemma Tracked(start: State, run: seq<Step>, id: nat, d: DeliveryId, e: Effect)
      requires Tracks(start, run, id, d, e)
      ensures Legal(max, start, run) && NoCrash(run) && View() == Run(max, start, run) == Applied(start, id, d, e)
    {
    }

    /** A message about to be fetched has had no effect yet. */
    lemma Untouched(id: nat, d: DeliveryId)
      requires id in msgs && id < next && msgs[id].body.Carries? && msgs[id].body.job.delivery == d && d in tallies
      ensures Tracks(View(), [], id, d, Effect(Some(msgs[id]), None, tallies[d], RowOf(View(), d)))
    {
    }

    /** One iteration of worker.go `Run` on a job from a channel queue. */
    method DeliverJob(id: nat, w: WorkerWorld) returns (ghost run: seq<Step>)
      requires id in msgs && id < next && msgs[id].stage == Ready && IsChannel(msgs[id].queue)
      requires msgs[id].body.Carries? && msgs[id].body.job.delivery in tallies
      modifies this
      ensures Legal(max, old(View()), run) && View() == Run(max, old(View()), run) && NoCrash(run)
      ensures var d := old(msgs)[id].body.job.delivery;
              View() == Applied(old(View()), id, d, WorkerEffect(old(msgs)[id], old(tallies)[d], RowOf(old(View()), d), w))
    {
      hide Applied, Run, Legal, NoCrash, Tracks;
      ghost var start, d := View(), msgs[id].body.job.delivery;
      Untouched(id, d);
      ghost var e;
      run, e := Perform(id, Fetch, start, [], d, Effect(Some(msgs[id]), None, tallies[d], RowOf(start, d)));
      run, e := Perform(id, Check(w.control, w.controlDb), start, run, d, e);
      if w.control == Errored || w.control == Paused || (w.control == Stopped && !w.controlDb) {
        Tracked(start, run, id, d, e);
        return;
      }
      if w.control == Active {
        var failed;
        failed, run, e := Handle(id, w, start, run, d, e);
        if failed {
          run, e := Perform(id, HandOn(w.publishOk), start, run, d, e);
        }
      }
      run := Finish(id, start, run, d, e);
    }

    /** One iteration of retry/service.go `RetryLoop` on a job. */
    method RetryJob(id: nat, publishOk: bool) returns (ghost run: seq<Step>)
      requires id in msgs && id < next && msgs[id].stage == Ready && msgs[id].queue == RetryQueue
      requires msgs[id].body.Carries? && msgs[id].body.job.delivery in tallies
      modifies this
      ensures Legal(max, old(View()), run) && View() == Run(max, old(View()), run) && NoCrash(run)
      ensures var d := old(msgs)[id].body.job.delivery;
              View() == Applied(old(View()), id, d, RetryEffect(max, old(msgs)[id], old(tallies)[d], RowOf(old(View()), d), publishOk))
      ensures id !in msgs && (!publishOk ==> msgs.Keys <= old(msgs).Keys)
      ensures publishOk ==>
                var job := old(msgs)[id].body.job;
                && old(next) in msgs
                && (job.attempt < max ==>
                      Serves(msgs[old(next)].queue, job.channel) && msgs[old(next)].body == Carries(job.(attempt := job.attempt + 1)))
                && (job.attempt >= max ==> msgs[old(next)] == Message(DeadQueue, Carries(job), Ready))
    {
      hide Applied, Run, Legal, NoCrash, Tracks, Serves, Sleep;
      ghost var start, d := View(), msgs[id].body.job.delivery;
      Untouched(id, d);
      ghost var e;
      run, e := Perform(id, Fetch, start, [], d, Effect(Some(msgs[id]), None, tallies[d], RowOf(start, d)));
      run, e := Perform(id, HandOn(publishOk), start, run, d, e);
      run := Finish(id, start, run, d, e);
      RetryLeaves(max, start, id, publishOk);
    }

    /** One iteration of retry/service.go `RetryDeadLetters` on a job: acknowledged even if the row was not written. */
    method BuryJob(id: nat, dbOk: bool) returns (ghost run: seq<Step>)
      requires id in msgs && id < next && msgs[id].stage == Ready && msgs[id].queue == DeadQueue
      requires msgs[id].body.Carries? && msgs[id].body.job.delivery in tallies
      modifies this
      ensures Legal(max, old(View()), run) && View() == Run(max, old(View()), run) && NoCrash(run)
      ensures var d := old(msgs)[id].body.job.delivery;
              View() == Applied(old(View()), id, d, BurialEffect(old(tallies)[d], RowOf(old(View()), d), dbOk))
    {
      hide Applied, Run, Legal, NoCrash, Tracks;
      ghost var start, d := View(), msgs[id].body.job.delivery;
      Untouched(id, d);
      ghost var e;
      run, e := Perform(id, Fetch, start, [], d, Effect(Some(msgs[id]), None, tallies[d], RowOf(start, d)));
      run, e := Perform(id, Bury(dbOk), start, run, d, e);
      run := Finish(id, start, run, d, e);
    }

    /** One iteration of the worker that consumes the message's queue, seen from its loop: the invariant and the
        other messages stay, the job is handled by that worker, and its message is gone unless it was put back. */
    method Consume(id: nat, w: WorkerWorld) returns (ghost run: seq<Step>)
      requires Inv(max, View()) && id in msgs && msgs[id].stage == Ready && msgs[id].queue != SchedulerQueue
      modifies this
      ensures Legal(max, old(View()), run) && View() == Run(max, old(View()), run) && NoCrash(run)
      ensures Inv(max, View())
      ensures old(msgs)[id].body.Carries? ==>
                var d := old(msgs)[id].body.job.delivery;
                d in old(tallies) &&
                View() == Applied(old(View()), id, d, IterationEffect(max, old(msgs)[id], old(tallies)[d], RowOf(old(View()), d), w))
      ensures forall i | i in old(msgs) && i != id :: i in msgs && msgs[i] == old(msgs)[i]
      ensures id in msgs <==> PutsBack(old(msgs)[id], w)
      ensures id in msgs ==> msgs[id] == old(msgs)[id]
      ensures old(next) <= next && forall i | i in msgs && i !in old(msgs) :: old(next) <= i
      ensures tallies.Keys == old(tallies).Keys
      ensures forall d <- tallies :: tallies[d].sends == old(tallies)[d].sends + if SendsFor(old(msgs)[id], w, d) then 1 else 0
    {
      hide Applied, Run, Legal, NoCrash, Conserved, WithinBudget, ExactHolders, ExactDead, Pictured, Grounded;
      hide WorkerEffect, RetryEffect, BurialEffect, PutsBack, SendsFor;
      ghost var before, msg := View(), msgs[id];
      if msgs[id].body.Malformed? {
        run := DropJunk(id);
        JunkIsDropped(before, id, w);
      } else {
        ghost var d := msgs[id].body.job.delivery;
        if msgs[id].queue == RetryQueue {
          run := RetryJob(id, w.publishOk);
        } else if msgs[id].queue == DeadQueue {
          run := BuryJob(id, w.storeDb);
        } else {
          run := DeliverJob(id, w);
        }
        IterationOutcome(max, msg, before.tallies[d], RowOf(before, d), w);
        OthersUntouched(before, id, d, IterationEffect(max, msg, before.tallies[d], RowOf(before, d), w));
        SendsOfOthers(before, id, d, IterationEffect(max, msg, before.tallies[d], RowOf(before, d), w), w);
      }
      RunKeepsInv(max, before, run);
    }

    /** The loops of the channel, retry and dead-letter workers over the messages the broker gives them, in
        whatever order their iterations come: the pipeline's invariant survives, each message of the batch is gone
        unless its worker put it back, and the provider was called once per iteration that its control let pass. */
    method RunWorkers(inbox: seq<nat>, worlds: seq<WorkerWorld>) returns (ghost run: seq<Step>)
      requires Inv(max, View()) && |inbox| == |worlds|
      requires forall i | 0 <= i < |inbox| :: inbox[i] in msgs && msgs[inbox[i]].stage == Ready && msgs[inbox[i]].queue != SchedulerQueue
      requires forall i, j | 0 <= i < j < |inbox| :: inbox[i] != inbox[j]
      modifies this
      ensures Legal(max, old(View()), run) && View() == Run(max, old(View()), run) && NoCrash(run)
      ensures Inv(max, View())
      ensures forall i | 0 <= i < |inbox| ::
                && inbox[i] in old(msgs) && (inbox[i] in msgs <==> PutsBack(old(msgs)[inbox[i]], worlds[i]))
                && (inbox[i] in msgs ==> msgs[inbox[i]] == old(msgs)[inbox[i]])
      ensures tallies.Keys == old(tallies).Keys
      ensures forall d <- tallies :: tallies[d].sends == old(tallies)[d].sends + SendsOfBatch(old(msgs), inbox, worlds, d, |inbox|)
    {
      hide Run, Legal, Inv, NoCrash, PutsBack, SendsFor, Applied, IterationEffect;
      run := [];
      NoStep(max, View());
      IdsBelowNext(max, View());
      for k := 0 to |inbox|
        invariant Legal(max, old(View()), run) && View() == Run(max, old(View()), run) && NoCrash(run)
        invariant Inv(max, View()) && tallies.Keys == old(tallies).Keys
        invariant forall i | k <= i < |inbox| :: inbox[i] in msgs && msgs[inbox[i]] == old(msgs)[inbox[i]]
        invariant forall i | 0 <= i < k :: inbox[i] in msgs <==> PutsBack(old(msgs)[inbox[i]], worlds[i])
        invariant forall i | 0 <= i < k && inbox[i] in msgs :: msgs[inbox[i]] == old(msgs)[inbox[i]]
        invariant forall i | 0 <= i < |inbox| :: inbox[i] < next
        invariant forall d <- tallies :: tallies[d].sends == old(tallies)[d].sends + SendsOfBatch(old(msgs), inbox, worlds, d, k)
      {
        ghost var before := View();
        ghost var more := Consume(inbox[k], worlds[k]);
        RunConcat(max, old(View()), run, more);
        NoCrashConcat(run, more);
        run := run + more;
      }
    }
  }
}
