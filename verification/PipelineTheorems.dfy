/** Guarantees over every run of the delivery pipeline, for any configured limit `max`. */
module PipelineTheorems {
  import opened Common
  import opened Backoff
  import opened Pipeline
  import opened PipelineSums
  import opened PipelineLocal
  import opened PipelineSafety

  lemma InitKeepsInv(max: int)
    ensures Inv(max, INIT)
  {
  }

  lemma NothingLostYet(d: DeliveryId)
    ensures Unlost(INIT, d)
  {
  }

  lemma RunFromInit(max: int, run: seq<Step>)
    requires Legal(max, INIT, run)
    ensures Inv(max, Run(max, INIT, run))
  {
    RunKeepsInv(max, INIT, run);
  }

  // ---------- nothing is lost ----------

  /** Some queued or unacknowledged message still answers for the delivery. */
  ghost predicate Live(st: State, d: DeliveryId) {
    exists id :: id in st.msgs && Holds(st.msgs[id]) && st.msgs[id].body.job.delivery == d
  }

  /** The delivery has not been lost and is not about to be. */
  ghost predicate Unlost(st: State, d: DeliveryId) {
    && (forall id | id in st.msgs && st.msgs[id].body.Carries? && st.msgs[id].body.job.delivery == d ::
          st.msgs[id].stage != Settling(AsLost))
    && TallyOf(st, d).lost == 0
  }

  /** The step is a publish that fails while handing on a job of the delivery. */
  predicate FailsToHandOn(st: State, s: Step, d: DeliveryId) {
    s.On? && s.action == HandOn(false) && s.id in st.msgs && st.msgs[s.id].body.Carries? && st.msgs[s.id].body.job.delivery == d
  }

  predicate AlwaysHandedOn(max: int, st: State, run: seq<Step>, d: DeliveryId)
    requires Legal(max, st, run)
    decreases |run|
  {
    run == [] || (!FailsToHandOn(st, run[0], d) && AlwaysHandedOn(max, Next(max, st, run[0]), run[1..], d))
  }

  function TallyFor(st: State, id: nat): Tally
    requires id in st.msgs
  {
    if st.msgs[id].body.Malformed? then NO_TALLY else TallyOf(st, st.msgs[id].body.job.delivery)
  }

  function RowFor(st: State, id: nat): Option<Row>
    requires id in st.msgs
  {
    if st.msgs[id].body.Malformed? then None else RowOf(st, st.msgs[id].body.job.delivery)
  }

  lemma LossNeedsFailedPublish(max: int, a: Action, msg: Message, t: Tally, r: Option<Row>)
    requires Can(a, msg) && Shape(max, msg) && msg.stage != Settling(AsLost) && a != HandOn(false)
    ensures var e := Act(max, a, msg, t, r);
            && e.tally.lost == t.lost
            && (e.after.Some? ==> e.after.value.stage != Settling(AsLost))
            && (e.spawn.Some? ==> e.spawn.value.stage != Settling(AsLost))
  {
  }

  /** What an effect on any message does to the loss of one delivery. */
  lemma EffectKeepsUnlost(st: State, id: nat, e: Effect, d: DeliveryId)
    requires Numbered(st) && id in st.msgs && st.msgs[id].body.Carries? && Unlost(st, d)
    requires Faithful(st.msgs[id], RowOf(st, st.msgs[id].body.job.delivery), e)
    requires st.msgs[id].body.job.delivery == d ==>
               && e.tally.lost == 0
               && (e.after.Some? ==> e.after.value.stage != Settling(AsLost))
               && (e.spawn.Some? ==> e.spawn.value.stage != Settling(AsLost))
    ensures Unlost(Applied(st, id, st.msgs[id].body.job.delivery, e), d)
  {
  }

  lemma StepKeepsUnlost(max: int, st: State, s: Step, d: DeliveryId)
    requires Inv(max, st) && Enabled(st, s) && Unlost(st, d) && !FailsToHandOn(st, s, d)
    ensures Unlost(Next(max, st, s), d)
  {
    hide Conserved, WithinBudget, ExactHolders, ExactDead, Pictured, Grounded, Shape;
    if s.On? {
      var msg := st.msgs[s.id];
      if msg.body.Carries? {
        hide Act, Applied, Unlost;
        var x := msg.body.job.delivery;
        var e := Act(max, s.action, msg, TallyOf(st, x), RowOf(st, x));
        ActIsFaithful(max, s.action, msg, TallyOf(st, x), RowOf(st, x));
        if x == d {
          NotLostYet(st, s.id, d);
          LossNeedsFailedPublish(max, s.action, msg, TallyOf(st, x), RowOf(st, x));
        }
        EffectKeepsUnlost(st, s.id, e, d);
      }
    }
  }

  lemma NotLostYet(st: State, id: nat, d: DeliveryId)
    requires Unlost(st, d) && id in st.msgs && st.msgs[id].body.Carries? && st.msgs[id].body.job.delivery == d
    ensures st.msgs[id].stage != Settling(AsLost) && TallyOf(st, d).lost == 0
  {
  }

  lemma {:induction false} RunKeepsUnlost(max: int, st: State, run: seq<Step>, d: DeliveryId)
    requires Inv(max, st) && Legal(max, st, run) && Unlost(st, d) && AlwaysHandedOn(max, st, run, d)
    ensures Unlost(Run(max, st, run), d)
    decreases |run|
  {
    if run != [] {
      hide Inv, Unlost, FailsToHandOn;
      StepKeepsUnlost(max, st, run[0], d);
      StepKeepsInv(max, st, run[0]);
      RunKeepsUnlost(max, Next(max, st, run[0]), run[1..], d);
    }
  }

  lemma HolderMeansLive(max: int, st: State, d: DeliveryId)
    requires Total(Holders, max, Some(d), st) > 0
    ensures exists id :: id in st.msgs && Holds(st.msgs[id]) && st.msgs[id].body.job.delivery == d
  {
    var id := SumWitness(Holders, max, Some(d), st.msgs, st.next);
    assert Holds(st.msgs[id]);
  }

  /** Holders and settlements balance, so a delivery without a holder is settled. */
  lemma Answered(max: int, st: State, d: DeliveryId)
    requires Conserved(max, st) && d in st.tallies
    ensures var t := st.tallies[d];
            && Total(Holders, max, Some(d), st) + Settled(t) == 1 + t.dupes
            && (Total(Holders, max, Some(d), st) == 0 ==> t.sent > 0 || t.blocked > 0 || t.dead > 0 || t.lost > 0)
  {
  }

  /** Through any crashes, redeliveries and database failures, a published delivery is live or was
      acknowledged as sent (with a `sent` attempt row), blocked or dead-lettered; it is only lost by a failed
      publish of its own job. Holders and settlements together number one, plus one per duplicate. */
  lemma NothingIsLost(max: int, run: seq<Step>, d: DeliveryId)
    requires Legal(max, INIT, run) && d in Run(max, INIT, run).tallies
    ensures var st := Run(max, INIT, run); var t := st.tallies[d];
            && Total(Holders, max, Some(d), st) + Settled(t) == 1 + t.dupes
            && (Live(st, d) || t.sent > 0 || t.blocked > 0 || t.dead > 0 || t.lost > 0)
            && (t.sent > 0 ==> HasSentAttempt(RowOf(st, d)))
            && (AlwaysHandedOn(max, INIT, run, d) ==> t.lost == 0)
  {
    hide Legal, Run, Total, Settled, Conserved, WithinBudget, ExactHolders, ExactDead, Pictured, Shaped, Known, Numbered;
    RunFromInit(max, run);
    var st := Run(max, INIT, run);
    Answered(max, st, d);
    if Total(Holders, max, Some(d), st) > 0 {
      HolderMeansLive(max, st, d);
      assert Live(st, d);
    }
    if AlwaysHandedOn(max, INIT, run, d) {
      InitKeepsInv(max);
      NothingLostYet(d);
      RunKeepsUnlost(max, INIT, run, d);
    }
  }

  // ---------- attempt numbers ----------

  /** Channel queues only ever hold even attempts, the retry and dead queues odd ones, and no attempt
      number passes the 64-bit range while the limit is in it. */
  lemma AttemptParity(max: int, run: seq<Step>, id: nat)
    requires Legal(max, INIT, run) && id in Run(max, INIT, run).msgs && Run(max, INIT, run).msgs[id].body.Carries?
    ensures var msg := Run(max, INIT, run).msgs[id]; var a := msg.body.job.attempt;
            && (IsChannel(msg.queue) <==> a % 2 == 0)
            && (msg.queue == DeadQueue ==> a >= max)
            && 0 <= a <= TopAttempt(max)
            && (max <= MAX_INT64 ==> a <= MAX_INT64)
  {
    RunFromInit(max, run);
  }

  // ---------- provider sends ----------

  /** A delivery is never sent more often than its budget, once more per crash; without crashes a
      dead-lettered delivery was sent exactly that often, and the retry worker slept (4^k - 1)/3 minutes
      for it in all, k being half the limit, if and only if the limit is at most 29, and less above. */
  lemma SendsAreBounded(max: int, run: seq<Step>, d: DeliveryId)
    requires Legal(max, INIT, run) && d in Run(max, INIT, run).tallies
    ensures var t := Run(max, INIT, run).tallies[d]; var k := Budget(max) - 1;
            && t.sends <= Budget(max) * (1 + t.crashes)
            && (t.crashes == 0 && t.dead > 0 ==>
                  && t.sends == Budget(max) && t.slept <= (Pow2(2 * k) - 1) / 3 * MINUTE
                  && (t.slept == (Pow2(2 * k) - 1) / 3 * MINUTE <==> max <= 29))
    ensures Budget(max) == if max <= 0 then 1 else max / 2 + 1
  {
    hide TotalSlept, Pow2, Conserved, ExactHolders, Pictured, Grounded, Shaped, Known, Numbered, Total;
    RunFromInit(max, run);
    TotalWaitIff(max);
  }

  // ---------- termination ----------

  predicate Injects(s: Step) { s.Publish? || s.Junk? || (s.On? && s.action == Crash) }

  predicate PutsBack(s: Step) { s.On? && Requeues(s.action) }

  function Tax(max: int, s: Step): nat {
    if Injects(s) then 11 * Budget(max) + 4 else if PutsBack(s) then 2 else if s.Commit? then 1 else 0
  }

  function Taxes(max: int, run: seq<Step>): nat {
    if run == [] then 0 else Tax(max, run[0]) + Taxes(max, run[1..])
  }

  lemma StepPaysWork(max: int, st: State, s: Step)
    requires Inv(max, st) && Enabled(st, s)
    ensures 1 + Total(Work, max, None, Next(max, st, s)) <= Total(Work, max, None, st) + Tax(max, s)
  {
    match s
    case Publish(job) =>
      TotalAfterNew(Work, max, None, st, Next(max, st, s), Republished(ChannelQueue(job.channel), job));
    case Commit(_) =>
    case Junk(q) =>
      TotalAfterNew(Work, max, None, st, Next(max, st, s), Message(q, Malformed, Ready));
    case On(id, a) =>
      var e := Act(max, a, st.msgs[id], TallyFor(st, id), RowFor(st, id));
      TotalAfterPlaced(Work, max, None, st, id, e);
      ActPaysWork(max, a, st.msgs[id], TallyFor(st, id), RowFor(st, id));
      assert Next(max, st, s).msgs == Placed(st, id, e).msgs && Next(max, st, s).next == Placed(st, id, e).next;
  }

  lemma {:induction false} RunPaysWork(max: int, st: State, run: seq<Step>)
    requires Inv(max, st) && Legal(max, st, run)
    ensures |run| + Total(Work, max, None, Run(max, st, run)) <= Total(Work, max, None, st) + Taxes(max, run)
    decreases |run|
  {
    if run != [] {
      StepPaysWork(max, st, run[0]);
      StepKeepsInv(max, st, run[0]);
      RunPaysWork(max, Next(max, st, run[0]), run[1..]);
    }
  }

  function CountOf(p: Step -> bool, run: seq<Step>): nat {
    if run == [] then 0 else (if p(run[0]) then 1 else 0) + CountOf(p, run[1..])
  }

  lemma {:induction false} TaxesByCount(max: int, run: seq<Step>)
    ensures Taxes(max, run) ==
      (11 * Budget(max) + 4) * CountOf(Injects, run) + 2 * CountOf(PutsBack, run) + CountOf((s: Step) => s.Commit?, run)
  {
    if run != [] {
      TaxesByCount(max, run[1..]);
      Distribute(11 * Budget(max) + 4, CountOf(Injects, run[1..]));
    }
  }

  lemma Distribute(k: int, n: int)
    ensures k * (1 + n) == k + k * n
  {
  }

  /** The retry loop terminates: a run is no longer than a fixed multiple of the messages and crashes
      injected into it, plus two per requeue and one per committed row. */
  lemma RunLengthIsBounded(max: int, run: seq<Step>)
    requires Legal(max, INIT, run)
    ensures |run| <= (11 * Budget(max) + 4) * CountOf(Injects, run) + 2 * CountOf(PutsBack, run) + CountOf((s: Step) => s.Commit?, run)
  {
    SumZero(Work, max, None, INIT.msgs, 0);
    RunPaysWork(max, INIT, run);
    TaxesByCount(max, run);
  }

  /** No message is ever stuck: its handler can always go on without a crash. */
  lemma Progress(max: int, run: seq<Step>, id: nat) returns (a: Action)
    requires Legal(max, INIT, run) && id in Run(max, INIT, run).msgs
    requires Run(max, INIT, run).msgs[id].queue != SchedulerQueue
    ensures a != Crash && !Requeues(a) && Enabled(Run(max, INIT, run), On(id, a))
  {
    hide Conserved, WithinBudget, ExactHolders, ExactDead, Pictured, Grounded;
    RunFromInit(max, run);
    var msg := Run(max, INIT, run).msgs[id];
    match msg.stage
    case Ready => a := Fetch;
    case Fetched =>
      a := if msg.body.Malformed? then Settle else if IsChannel(msg.queue) then Check(Active, true)
           else if msg.queue == RetryQueue then HandOn(true) else Bury(true);
    case Cleared => a := Mark(true);
    case Marked => a := Attempt(true);
    case Tried(_) => a := Store(true);
    case Stored(_) => a := Record(true);
    case Failing => a := HandOn(true);
    case Settling(_) => a := Settle;
  }

  /** No worker has anything left to do but crash or put a message back. */
  ghost predicate Quiescent(st: State) {
    forall id, a | Enabled(st, On(id, a)) :: a == Crash || Requeues(a)
  }

  lemma LiveMeansBusy(max: int, run: seq<Step>, d: DeliveryId)
    requires Legal(max, INIT, run) && Live(Run(max, INIT, run), d)
    ensures !Quiescent(Run(max, INIT, run))
  {
    var st := Run(max, INIT, run);
    var id :| id in st.msgs && Holds(st.msgs[id]) && st.msgs[id].body.job.delivery == d;
    JobsAreNotScheduled(max, run, id);
    var a := Progress(max, run, id);
    assert Enabled(st, On(id, a)) && a != Crash && !Requeues(a);
  }

  /** When the workers come to rest, every published delivery is settled: sent, blocked, dead, or lost by a
      failed publish of its own job. By `RunLengthIsBounded` they do, unless new work or crashes keep coming. */
  lemma RestMeansSettled(max: int, run: seq<Step>, d: DeliveryId)
    requires Legal(max, INIT, run) && d in Run(max, INIT, run).tallies
    ensures var st := Run(max, INIT, run); var t := st.tallies[d];
            Quiescent(st) ==>
              && !Live(st, d) && (t.sent > 0 || t.blocked > 0 || t.dead > 0 || t.lost > 0)
              && (AlwaysHandedOn(max, INIT, run, d) ==> t.sent > 0 || t.blocked > 0 || t.dead > 0)
  {
    NothingIsLost(max, run, d);
    if Live(Run(max, INIT, run), d) {
      LiveMeansBusy(max, run, d);
    }
  }

  /** The scheduler queue never holds a job. */
  lemma JobsAreNotScheduled(max: int, run: seq<Step>, id: nat)
    requires Legal(max, INIT, run) && id in Run(max, INIT, run).msgs && Run(max, INIT, run).msgs[id].body.Carries?
    ensures Run(max, INIT, run).msgs[id].queue != SchedulerQueue
  {
    RunFromInit(max, run);
  }

  // ---------- delivery and attempt rows ----------

  /** Without a crash or database failure, and as long as every worker that had something to write found the
      row committed: attempt rows number the sends (one behind while an answer is being recorded), at most the
      last is `sent`, `delivered_at` is set exactly with status `sent`, and `dead` means a spent budget of
      failures. Until the row is committed the delivery is live and sent at most once. */
  lemma RowLifecycle(max: int, run: seq<Step>, d: DeliveryId)
    requires Legal(max, INIT, run) && Spotless(Run(max, INIT, run), d)
    ensures var st := Run(max, INIT, run); var t := st.tallies[d];
            if d !in st.rows then Live(st, d) && t.sends <= 1
            else
              var r := st.rows[d];
              && (|r.attempts| == t.sends || |r.attempts| + 1 == t.sends)
              && (!Live(st, d) ==> |r.attempts| == t.sends)
              && (NoneSent(r.attempts) || SentLast(r.attempts))
              && (r.delivered <==> r.status == Sent)
              && (SentLast(r.attempts) ==> r.status == Sent)
              && (!Live(st, d) ==> (t.sent > 0 <==> r.status == Sent) && (t.blocked > 0 <==> r.status == Blocked)
                                   && (t.dead > 0 <==> r.status == Dead))
              && (!Live(st, d) && t.sent > 0 ==> SentLast(r.attempts))
              && (r.status == Dead ==> |r.attempts| == Budget(max) && NoneSent(r.attempts))
  {
    RunFromInit(max, run);
    var st := Run(max, INIT, run);
    if Settled(st.tallies[d]) == 0 {
      HolderMeansLive(max, st, d);
      var id := SumWitness(Holders, max, Some(d), st.msgs, st.next);
      HolderRow(max, st, id);
    } else {
      SettledIsNotLive(max, st, d);
    }
  }

  lemma SettledIsNotLive(max: int, st: State, d: DeliveryId)
    requires Inv(max, st) && Clean(st, d)
    ensures Settled(st.tallies[d]) > 0 <==> !Live(st, d)
  {
    if Settled(st.tallies[d]) == 0 {
      HolderMeansLive(max, st, d);
    } else {
      forall id | id in st.msgs && Holds(st.msgs[id])
        ensures st.msgs[id].body.job.delivery != d
      {
        if st.msgs[id].body.job.delivery == d {
          CleanHolderIsAlone(max, st, id, id);
        }
      }
    }
  }

  lemma HolderRow(max: int, st: State, id: nat)
    requires Inv(max, st) && id in st.msgs && Holds(st.msgs[id]) && Spotless(st, st.msgs[id].body.job.delivery)
    ensures var d := st.msgs[id].body.job.delivery; var t := st.tallies[d]; var r := Seen(RowOf(st, d));
            && (d !in st.rows ==> t.sends <= 1)
            && (|r.attempts| == t.sends || |r.attempts| + 1 == t.sends)
            && (NoneSent(r.attempts) || SentLast(r.attempts))
            && (r.delivered <==> r.status == Sent)
            && (SentLast(r.attempts) ==> r.status == Sent)
            && (r.status == Dead ==> |r.attempts| == Budget(max) && NoneSent(r.attempts))
  {
    var msg := st.msgs[id];
    if msg.stage == Settling(AsDead) {
      DeadHasSpentBudget(max, msg, st.tallies[msg.body.job.delivery]);
    }
  }

  /** Which faultless deliveries end with a row that tells the truth, one attempt row per send and the status
      of the verdict: exactly those of which no worker had anything to write before the row was committed. */
  lemma RowEndsRightIff(max: int, run: seq<Step>, d: DeliveryId)
    requires Legal(max, INIT, run) && Faultless(Run(max, INIT, run), d)
    requires !Live(Run(max, INIT, run), d) && d in Run(max, INIT, run).rows
    ensures var st := Run(max, INIT, run); EndsRight(st.tallies[d], st.rows[d]) <==> !st.tallies[d].missed
  {
    RunFromInit(max, run);
    SettledIsNotLive(max, Run(max, INIT, run), d);
  }

  /** `sent`, `blocked` and `dead` are final: once a delivery without a crash is settled and its row
      committed, no step changes that row, whatever the database did before. */
  lemma SettledStepIsFinal(max: int, st: State, s: Step, d: DeliveryId)
    requires Inv(max, st) && Enabled(st, s) && Clean(st, d) && d in st.rows && Settled(st.tallies[d]) > 0
    requires Clean(Next(max, st, s), d)
    ensures var st' := Next(max, st, s); d in st'.rows && st'.rows[d] == st.rows[d] && st'.tallies[d] == st.tallies[d]
  {
    if s.On? && st.msgs[s.id].body.Carries? && st.msgs[s.id].body.job.delivery == d {
      if Holds(st.msgs[s.id]) {
        CleanHolderIsAlone(max, st, s.id, s.id);
      } else {
        ActFlags(max, s.action, st.msgs[s.id], st.tallies[d], RowOf(st, d));
        NonHolderIsInert(max, s.action, st.msgs[s.id], st.tallies[d], RowOf(st, d));
      }
    }
  }

  lemma {:induction false} CrashesOnlyGrow(max: int, st: State, run: seq<Step>, d: DeliveryId)
    requires Inv(max, st) && Legal(max, st, run) && d in st.tallies
    ensures d in Run(max, st, run).tallies && Run(max, st, run).tallies[d].crashes >= st.tallies[d].crashes
    decreases |run|
  {
    if run != [] {
      var s := run[0];
      if s.On? {
        ActFlags(max, s.action, st.msgs[s.id], TallyFor(st, s.id), RowFor(st, s.id));
      }
      StepKeepsInv(max, st, s);
      CrashesOnlyGrow(max, Next(max, st, s), run[1..], d);
    }
  }

  lemma {:induction false} SettledRowIsFinal(max: int, st: State, run: seq<Step>, d: DeliveryId)
    requires Inv(max, st) && Legal(max, st, run) && Clean(st, d) && d in st.rows && Settled(st.tallies[d]) > 0
    requires Clean(Run(max, st, run), d)
    ensures d in Run(max, st, run).rows && Run(max, st, run).rows[d] == st.rows[d]
    decreases |run|
  {
    if run != [] {
      var st' := Next(max, st, run[0]);
      StepKeepsInv(max, st, run[0]);
      assert d in st'.tallies;
      CrashesOnlyGrow(max, st', run[1..], d);
      SettledStepIsFinal(max, st, run[0], d);
      SettledRowIsFinal(max, st', run[1..], d);
    }
  }

  // ---------- a commit that comes too late ----------

  lemma RunFirst(max: int, st: State, s: Step, rest: seq<Step>)
    requires Enabled(st, s) && Legal(max, Next(max, st, s), rest)
    ensures Legal(max, st, [s] + rest) && Run(max, st, [s] + rest) == Run(max, Next(max, st, s), rest)
  {
    assert ([s] + rest)[1..] == rest;
  }

  /** The state with one message, for a job whose row is not committed. */
  function Alone(job: Job, stage: Stage, t: Tally): State {
    State(map[0 := Message(ChannelQueue(job.channel), Carries(job), stage)], 1, map[], map[job.delivery := t])
  }

  /** What an action on the only message of an uncommitted delivery leads to. */
  predicate Leads(max: int, job: Job, stage: Stage, t: Tally, a: Action, stage': Stage, t': Tally) {
    var msg := Message(ChannelQueue(job.channel), Carries(job), stage);
    Can(a, msg) && Act(max, a, msg, t, None) == Effect(Some(msg.(stage := stage')), None, t', None)
  }

  lemma AloneFirst(max: int, job: Job, stage: Stage, t: Tally, a: Action, stage': Stage, t': Tally, rest: seq<Step>)
    requires Leads(max, job, stage, t, a, stage', t') && Legal(max, Alone(job, stage', t'), rest)
    ensures Legal(max, Alone(job, stage, t), [On(0, a)] + rest)
    ensures Run(max, Alone(job, stage, t), [On(0, a)] + rest) == Run(max, Alone(job, stage', t'), rest)
  {
    hide Act, Can, Legal, Run, ChannelQueue;
    assert Enabled(Alone(job, stage, t), On(0, a));
    assert Next(max, Alone(job, stage, t), On(0, a)) == Alone(job, stage', t');
    RunFirst(max, Alone(job, stage, t), On(0, a), rest);
  }

  function LateCommit(job: Job): seq<Step> {
    [Publish(job)] + ([On(0, Fetch)] + ([On(0, Check(Active, true))] + ([On(0, Mark(true))] + ([On(0, Attempt(true))] +
    ([On(0, Store(true))] + ([On(0, Record(true))] + ([Commit(job.delivery)] + ([On(0, HandOn(true))] + []))))))))
  }

  /** The commit can lose the race with nothing going wrong: the provider accepts the message, yet afterwards
      the row is that of a delivery never attempted, and the job waits in the retry queue. */
  lemma CommitCanLoseTheRace(max: int, job: Job)
    requires job.attempt == 0
    ensures Legal(max, INIT, LateCommit(job))
    ensures var st := Run(max, INIT, LateCommit(job)); var d := job.delivery;
            && Faultless(st, d) && st.tallies[d].sends == 1 && st.tallies[d].missed
            && d in st.rows && st.rows[d] == FRESH_ROW
            && 1 in st.msgs && st.msgs[1] == Message(RetryQueue, Carries(job.(attempt := 1)), Ready)
  {
    var end := AfterLateCommit(max, job);
    SentBeforeCommit(max, job, [Commit(job.delivery)] + ([On(0, HandOn(true))] + []));
  }

  lemma AfterLateCommit(max: int, job: Job) returns (end: State)
    requires job.attempt == 0
    ensures var t := NO_TALLY.(sends := 1, missed := true); var last := [Commit(job.delivery)] + ([On(0, HandOn(true))] + []);
            && Legal(max, Alone(job, Failing, t), last) && Run(max, Alone(job, Failing, t), last) == end
            && end.tallies == map[job.delivery := t] && end.rows == map[job.delivery := FRESH_ROW]
            && 1 in end.msgs && end.msgs[1] == Message(RetryQueue, Carries(job.(attempt := 1)), Ready)
  {
    var t := NO_TALLY.(sends := 1, missed := true);
    var committed := Next(max, Alone(job, Failing, t), Commit(job.delivery));
    end := Next(max, committed, On(0, HandOn(true)));
    NoSteps(max, end);
    RunFirst(max, committed, On(0, HandOn(true)), []);
    RunFirst(max, Alone(job, Failing, t), Commit(job.delivery), [On(0, HandOn(true))] + []);
  }

  lemma SendingLeads(max: int, job: Job, sent: Tally, missed: Tally)
    requires sent == NO_TALLY.(sends := 1) && missed == sent.(missed := true)
    ensures Leads(max, job, Ready, NO_TALLY, Fetch, Fetched, NO_TALLY)
    ensures Leads(max, job, Fetched, NO_TALLY, Check(Active, true), Cleared, NO_TALLY)
    ensures Leads(max, job, Cleared, NO_TALLY, Mark(true), Marked, NO_TALLY)
    ensures Leads(max, job, Marked, NO_TALLY, Attempt(true), Tried(true), sent)
    ensures Leads(max, job, Tried(true), sent, Store(true), Stored(true), missed)
    ensures Leads(max, job, Stored(true), missed, Record(true), Failing, missed)
  {
  }

  lemma PublishFirst(max: int, job: Job, rest: seq<Step>)
    requires job.attempt == 0 && Legal(max, Alone(job, Ready, NO_TALLY), rest)
    ensures Legal(max, INIT, [Publish(job)] + rest)
    ensures Run(max, INIT, [Publish(job)] + rest) == Run(max, Alone(job, Ready, NO_TALLY), rest)
  {
    hide Legal, Run;
    assert Enabled(INIT, Publish(job)) && Next(max, INIT, Publish(job)) == Alone(job, Ready, NO_TALLY);
    RunFirst(max, INIT, Publish(job), rest);
  }

  /** Publishing, sending and failing to record, all before the commit. */
  lemma SentBeforeCommit(max: int, job: Job, rest: seq<Step>)
    requires job.attempt == 0 && Legal(max, Alone(job, Failing, NO_TALLY.(sends := 1, missed := true)), rest)
    ensures var run := [Publish(job)] + ([On(0, Fetch)] + ([On(0, Check(Active, true))] + ([On(0, Mark(true))] +
              ([On(0, Attempt(true))] + ([On(0, Store(true))] + ([On(0, Record(true))] + rest))))));
            Legal(max, INIT, run) && Run(max, INIT, run) == Run(max, Alone(job, Failing, NO_TALLY.(sends := 1, missed := true)), rest)
  {
    hide Leads, Alone, Legal, Run;
    var sent := NO_TALLY.(sends := 1);
    var missed := sent.(missed := true);
    SendingLeads(max, job, sent, missed);
    AloneFirst(max, job, Stored(true), missed, Record(true), Failing, missed, rest);
    var r6 := [On(0, Record(true))] + rest;
    AloneFirst(max, job, Tried(true), sent, Store(true), Stored(true), missed, r6);
    var r5 := [On(0, Store(true))] + r6;
    AloneFirst(max, job, Marked, NO_TALLY, Attempt(true), Tried(true), sent, r5);
    var r4 := [On(0, Attempt(true))] + r5;
    AloneFirst(max, job, Cleared, NO_TALLY, Mark(true), Marked, NO_TALLY, r4);
    var r3 := [On(0, Mark(true))] + r4;
    AloneFirst(max, job, Fetched, NO_TALLY, Check(Active, true), Cleared, NO_TALLY, r3);
    var r2 := [On(0, Check(Active, true))] + r3;
    AloneFirst(max, job, Ready, NO_TALLY, Fetch, Fetched, NO_TALLY, r2);
    PublishFirst(max, job, [On(0, Fetch)] + r2);
  }

  lemma NoSteps(max: int, st: State)
    ensures Legal(max, st, []) && Run(max, st, []) == st
  {
  }

  // ---------- rolled-back sends ----------

  /** A job whose delivery row is never committed (its request failed after publishing) can be sent, but
      never settles as sent: without crashes it ends blocked, lost or, after exactly its budget of sends, dead. */
  lemma RolledBackJobIsNeverSettledAsSent(max: int, run: seq<Step>, d: DeliveryId)
    requires Legal(max, INIT, run)
    requires d in Run(max, INIT, run).tallies && d !in Run(max, INIT, run).rows
    ensures var st := Run(max, INIT, run); var t := st.tallies[d];
            && t.sent == 0
            && t.sends <= Budget(max) * (1 + t.crashes)
            && (t.crashes == 0 && !Live(st, d) ==>
                  t.blocked + t.dead + t.lost == 1 && (t.blocked + t.lost == 0 ==> t.sends == Budget(max)))
  {
    RunFromInit(max, run);
    var st := Run(max, INIT, run);
    if Total(Holders, max, Some(d), st) > 0 {
      HolderMeansLive(max, st, d);
    }
  }
}
