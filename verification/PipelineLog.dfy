/** What a delivery's row, its messages and its history say about the steps of a run: a row is the replay of
    the statements that reached the database, and nothing is sent or settled without its cause. */
module PipelineLog {
  import opened Common
  import opened Pipeline
  import opened PipelineSums
  import opened PipelineLocal
  import opened PipelineSafety
  import opened PipelineTheorems

  predicate IsOf(st: State, s: Step, d: DeliveryId) {
    match s
    case Publish(job) => job.delivery == d
    case Commit(x) => x == d
    case Junk(_) => false
    case On(id, _) => id in st.msgs && st.msgs[id].body.Carries? && st.msgs[id].body.job.delivery == d
  }

  /** The steps of a run that concern one delivery. */
  function Log(max: int, st: State, run: seq<Step>, d: DeliveryId): seq<Step>
    requires Legal(max, st, run)
    decreases |run|
  {
    if run == [] then []
    else (if IsOf(st, run[0], d) then [run[0]] else []) + Log(max, Next(max, st, run[0]), run[1..], d)
  }

  // ---------- readings from the log alone ----------

  /** What the provider last answered to the worker of message `id`. */
  function Answer(log: seq<Step>, id: nat): Option<bool> {
    if log == [] then None
    else
      match log[|log| - 1]
      case On(i, Attempt(ok)) => if i == id then Some(ok) else Answer(log[..|log| - 1], id)
      case _ => Answer(log[..|log| - 1], id)
  }

  /** What the queue control last said of message `id` since it was fetched. */
  function Decision(log: seq<Step>, id: nat): Option<Control> {
    if log == [] then None
    else
      match log[|log| - 1]
      case On(i, Check(control, _)) => if i == id then Some(control) else Decision(log[..|log| - 1], id)
      case On(i, Fetch) => if i == id then None else Decision(log[..|log| - 1], id)
      case _ => Decision(log[..|log| - 1], id)
  }

  /** One statement on an existing row; a failed one does nothing. */
  function Written(row: Row, a: Action, sent: bool): Row {
    match a
    case Check(Paused, true) => row.(status := Queued)
    case Check(Stopped, true) => row.(status := Blocked)
    case Mark(true) => row.(status := Sending)
    case Store(true) => row.(status := if sent then Sent else Failed, delivered := sent)
    case Record(true) => row.(attempts := row.attempts + [sent])
    case Bury(true) => row.(status := Dead)
    case _ => row
  }

  /** The row as the statements leave it, those before the commit finding none. */
  function Replayed(log: seq<Step>): Option<Row> {
    if log == [] then None
    else
      var init, before := log[..|log| - 1], Replayed(log[..|log| - 1]);
      match log[|log| - 1]
      case Commit(_) => Some(Row(Queued, false, []))
      case On(id, a) => if before.None? then None else Some(Written(before.value, a, Answer(init, id) == Some(true)))
      case _ => before
  }

  function HowMany(log: seq<Step>, p: Action -> bool): nat {
    if log == [] then 0
    else HowMany(log[..|log| - 1], p) + if log[|log| - 1].On? && p(log[|log| - 1].action) then 1 else 0
  }

  predicate CallsProvider(a: Action) { a.Attempt? }

  predicate Crashes(a: Action) { a == Crash }

  /** A failed statement that the worker does not repeat. */
  predicate FailsToWrite(a: Action) { a == Store(false) || a == Record(false) || a == Bury(false) }

  /** A worker had an accepted send, an attempt, a block or a burial to write and found no row. */
  function MissedRow(log: seq<Step>): bool {
    log != [] &&
    var init := log[..|log| - 1];
    MissedRow(init) ||
    match log[|log| - 1]
    case On(id, a) =>
      Replayed(init).None? && (a == Check(Stopped, true) || (a == Store(true) && Answer(init, id) == Some(true)) || a == Record(true) || a == Bury(true))
    case _ => false
  }

  function PublishedJob(log: seq<Step>): Option<Job> {
    if log == [] then None
    else if log[|log| - 1].Publish? then Some(log[|log| - 1].job)
    else PublishedJob(log[..|log| - 1])
  }

  predicate IsCause(a: Action, v: Verdict) {
    match v
    case AsSent => a == Attempt(true)
    case AsBlocked => a.Check? && a.control == Stopped
    case AsDead => a.Bury?
    case AsLost => a == HandOn(false)
    case AsHandedOn => a == HandOn(true)
  }

  ghost predicate Caused(log: seq<Step>, v: Verdict) { exists i | 0 <= i < |log| :: log[i].On? && IsCause(log[i].action, v) }

  lemma OneMore(log: seq<Step>, s: Step)
    ensures (log + [s])[..|log|] == log && (log + [s])[|log|] == s
    ensures forall v :: Caused(log + [s], v) <==> Caused(log, v) || (s.On? && IsCause(s.action, v))
  {
    assert (log + [s])[..|log|] == log;
    forall v ensures Caused(log + [s], v) <==> Caused(log, v) || (s.On? && IsCause(s.action, v)) {
      if Caused(log, v) {
        var i :| 0 <= i < |log| && log[i].On? && IsCause(log[i].action, v);
        assert (log + [s])[i] == log[i];
      }
      assert (log + [s])[|log|] == s;
    }
  }

  lemma {:induction false} AcceptedIsCause(log: seq<Step>, id: nat)
    ensures Answer(log, id) == Some(true) ==> Caused(log, AsSent)
  {
    if log != [] {
      AcceptedIsCause(log[..|log| - 1], id);
      OneMore(log[..|log| - 1], log[|log| - 1]);
      assert log == log[..|log| - 1] + [log[|log| - 1]];
    }
  }

  // ---------- the state follows the log ----------

  /** A message carries the published job, but for the attempt number, and stands where its log says. */
  ghost predicate MessageFollows(msg: Message, id: nat, log: seq<Step>)
    requires msg.body.Carries?
  {
    && PublishedJob(log) == Some(msg.body.job.(attempt := 0))
    && match msg.stage
       case Cleared => Decision(log, id) == Some(Active)
       case Marked => Decision(log, id) == Some(Active)
       case Tried(ok) => Answer(log, id) == Some(ok)
       case Stored(ok) => Answer(log, id) == Some(ok)
       case Settling(v) => Caused(log, v)
       case _ => true
  }

  ghost predicate TallyFollows(t: Tally, log: seq<Step>) {
    && t.sends == HowMany(log, CallsProvider) && t.crashes == HowMany(log, Crashes) && t.faults == HowMany(log, FailsToWrite)
    && t.missed == MissedRow(log)
    && (t.sent > 0 ==> Caused(log, AsSent)) && (t.blocked > 0 ==> Caused(log, AsBlocked))
    && (t.dead > 0 ==> Caused(log, AsDead)) && (t.lost > 0 ==> Caused(log, AsLost))
  }

  ghost predicate Follows(st: State, d: DeliveryId, log: seq<Step>) {
    && RowOf(st, d) == Replayed(log)
    && TallyFollows(TallyOf(st, d), log)
    && (forall id | id in st.msgs && st.msgs[id].body.Carries? && st.msgs[id].body.job.delivery == d :: MessageFollows(st.msgs[id], id, log))
  }

  // One action, seen from its message.

  lemma ActRowFollows(max: int, a: Action, msg: Message, id: nat, t: Tally, r: Option<Row>, log: seq<Step>)
    requires Can(a, msg) && msg.body.Carries? && r == Replayed(log) && MessageFollows(msg, id, log)
    ensures Act(max, a, msg, t, r).row == Replayed(log + [On(id, a)])
  {
    hide HandedOn, Caused;
    OneMore(log, On(id, a));
  }

  lemma ActTallyFollows(max: int, a: Action, msg: Message, id: nat, t: Tally, r: Option<Row>, log: seq<Step>)
    requires Can(a, msg) && msg.body.Carries? && r == Replayed(log) && TallyFollows(t, log) && MessageFollows(msg, id, log)
    ensures TallyFollows(Act(max, a, msg, t, r).tally, log + [On(id, a)])
  {
    hide HandedOn, Caused, Replayed;
    OneMore(log, On(id, a));
  }

  lemma ActMessageFollows(max: int, a: Action, msg: Message, id: nat, t: Tally, r: Option<Row>, log: seq<Step>)
    requires Can(a, msg) && msg.body.Carries? && MessageFollows(msg, id, log)
    ensures var e := Act(max, a, msg, t, r); var log' := log + [On(id, a)];
            && (e.after.Some? ==> e.after.value.body == msg.body && MessageFollows(e.after.value, id, log'))
            && (e.spawn.Some? ==> e.spawn.value.body.Carries? && forall i :: MessageFollows(e.spawn.value, i, log'))
  {
    hide Caused, Replayed;
    OneMore(log, On(id, a));
    AcceptedIsCause(log, id);
  }

  /** Another message of the delivery is not concerned. */
  lemma OtherFollows(msg: Message, other: nat, log: seq<Step>, id: nat, a: Action)
    requires msg.body.Carries? && MessageFollows(msg, other, log) && id != other
    ensures MessageFollows(msg, other, log + [On(id, a)])
  {
    OneMore(log, On(id, a));
  }

  lemma OnFollows(max: int, st: State, id: nat, a: Action, d: DeliveryId, log: seq<Step>)
    requires Numbered(st) && Enabled(st, On(id, a)) && IsOf(st, On(id, a), d) && Follows(st, d, log)
    ensures Follows(Next(max, st, On(id, a)), d, log + [On(id, a)])
  {
    hide Act, Can, MessageFollows, TallyFollows, Replayed;
    var msg, log' := st.msgs[id], log + [On(id, a)];
    var e := Act(max, a, msg, TallyOf(st, d), RowOf(st, d));
    ActRowFollows(max, a, msg, id, TallyOf(st, d), RowOf(st, d), log);
    ActTallyFollows(max, a, msg, id, TallyOf(st, d), RowOf(st, d), log);
    ActMessageFollows(max, a, msg, id, TallyOf(st, d), RowOf(st, d), log);
    ActKeepsDelivery(max, a, msg, TallyOf(st, d), RowOf(st, d));
    var st' := Next(max, st, On(id, a));
    assert RowOf(st', d) == e.row && TallyOf(st', d) == e.tally;
    forall i | i in st'.msgs && st'.msgs[i].body.Carries? && st'.msgs[i].body.job.delivery == d
      ensures MessageFollows(st'.msgs[i], i, log')
    {
      if i != id && i in st.msgs {
        OtherFollows(st.msgs[i], i, log, id, a);
      }
    }
  }

  lemma OtherStepFollows(max: int, st: State, s: Step, d: DeliveryId, log: seq<Step>)
    requires Numbered(st) && Enabled(st, s) && !IsOf(st, s, d) && Follows(st, d, log)
    ensures Follows(Next(max, st, s), d, log)
  {
    hide Act, Can, MessageFollows, TallyFollows, Replayed;
    if s.On? {
      ActKeepsDelivery(max, s.action, st.msgs[s.id], TallyFor(st, s.id), RowFor(st, s.id));
    }
  }

  lemma PublishFollows(max: int, st: State, job: Job, log: seq<Step>)
    requires Numbered(st) && Known(st) && Enabled(st, Publish(job)) && Follows(st, job.delivery, log)
    ensures Follows(Next(max, st, Publish(job)), job.delivery, log + [Publish(job)])
  {
    OneMore(log, Publish(job));
  }

  lemma CommitFollows(max: int, st: State, d: DeliveryId, log: seq<Step>)
    requires Enabled(st, Commit(d)) && Follows(st, d, log)
    ensures Follows(Next(max, st, Commit(d)), d, log + [Commit(d)])
  {
    OneMore(log, Commit(d));
  }

  lemma StepFollows(max: int, st: State, s: Step, d: DeliveryId, log: seq<Step>)
    requires Numbered(st) && Known(st) && Enabled(st, s) && Follows(st, d, log)
    ensures Follows(Next(max, st, s), d, log + if IsOf(st, s, d) then [s] else [])
  {
    hide Follows, Next;
    if !IsOf(st, s, d) {
      OtherStepFollows(max, st, s, d, log);
      assert log + [] == log;
    } else {
      match s
      case Publish(job) => PublishFollows(max, st, job, log);
      case Commit(_) => CommitFollows(max, st, d, log);
      case On(id, a) => OnFollows(max, st, id, a, d, log);
    }
  }

  lemma {:induction false} RunFollows(max: int, st: State, run: seq<Step>, d: DeliveryId, log: seq<Step>)
    requires Inv(max, st) && Legal(max, st, run) && Follows(st, d, log)
    ensures Follows(Run(max, st, run), d, log + Log(max, st, run, d))
    decreases |run|
  {
    hide Follows, Inv;
    if run == [] {
      assert log + [] == log;
    } else {
      var st', own := Next(max, st, run[0]), if IsOf(st, run[0], d) then [run[0]] else [];
      assert Numbered(st) && Known(st) by { InvParts(max, st); }
      StepFollows(max, st, run[0], d, log);
      StepKeepsInv(max, st, run[0]);
      RunFollows(max, st', run[1..], d, log + own);
      assert log + own + Log(max, st', run[1..], d) == log + (own + Log(max, st', run[1..], d));
    }
  }

  lemma InvParts(max: int, st: State)
    requires Inv(max, st)
    ensures Numbered(st) && Known(st) && Shaped(max, st)
  {
  }

  lemma FollowsFromInit(max: int, run: seq<Step>, d: DeliveryId)
    requires Legal(max, INIT, run)
    ensures Follows(Run(max, INIT, run), d, Log(max, INIT, run, d)) && Shaped(max, Run(max, INIT, run))
  {
    InitKeepsInv(max);
    RunFollows(max, INIT, run, d, []);
    RunKeepsInv(max, INIT, run);
    assert [] + Log(max, INIT, run, d) == Log(max, INIT, run, d);
  }

  // ---------- the guarantees ----------

  /** Whatever crashes, fails or comes twice: the row is the replay of the statements that succeeded since its
      commit, each answer stored and recorded being the provider's last to that worker. */
  lemma RowIsReplayed(max: int, run: seq<Step>, d: DeliveryId)
    requires Legal(max, INIT, run)
    ensures RowOf(Run(max, INIT, run), d) == Replayed(Log(max, INIT, run, d))
  {
    FollowsFromInit(max, run, d);
  }

  /** The provider is only called for a message that the queue control let pass since it was fetched. */
  lemma SentOnlyWhenActive(max: int, run: seq<Step>, id: nat, ok: bool)
    requires Legal(max, INIT, run) && Enabled(Run(max, INIT, run), On(id, Attempt(ok)))
    ensures var body := Run(max, INIT, run).msgs[id].body;
            body.Carries? && Decision(Log(max, INIT, run, body.job.delivery), id) == Some(Active)
  {
    var st := Run(max, INIT, run);
    var d := if st.msgs[id].body.Carries? then st.msgs[id].body.job.delivery else "";
    FollowsFromInit(max, run, d);
  }

  /** Every settlement has its cause among the delivery's steps: `sent` an accepted send, `blocked` a stopped
      queue, `dead` a burial, a loss a failed publish. The history counts the sends, the crashes and the failed
      writes, and remembers exactly the writes that found no row. */
  lemma VerdictsAreCaused(max: int, run: seq<Step>, d: DeliveryId)
    requires Legal(max, INIT, run)
    ensures var t, log := TallyOf(Run(max, INIT, run), d), Log(max, INIT, run, d);
            && t.sends == HowMany(log, CallsProvider) && t.crashes == HowMany(log, Crashes) && t.faults == HowMany(log, FailsToWrite)
            && t.missed == MissedRow(log)
            && (t.sent > 0 ==> exists i | 0 <= i < |log| :: log[i].On? && log[i].action == Attempt(true))
            && (t.blocked > 0 ==> exists i | 0 <= i < |log| :: log[i].On? && log[i].action.Check? && log[i].action.control == Stopped)
            && (t.dead > 0 ==> exists i | 0 <= i < |log| :: log[i].On? && log[i].action.Bury?)
            && (t.lost > 0 ==> exists i | 0 <= i < |log| :: log[i].On? && log[i].action == HandOn(false))
  {
    hide Follows, TallyFollows, Log, HowMany, MissedRow, Shaped, Legal, Run;
    var st, log := Run(max, INIT, run), Log(max, INIT, run, d);
    FollowsFromInit(max, run, d);
    TallyFollowsLog(st, d, log);
    CausesOf(TallyOf(st, d), log);
  }

  lemma TallyFollowsLog(st: State, d: DeliveryId, log: seq<Step>)
    requires Follows(st, d, log)
    ensures TallyFollows(TallyOf(st, d), log)
  {
  }

  lemma CausesOf(t: Tally, log: seq<Step>)
    requires TallyFollows(t, log)
    ensures t.sends == HowMany(log, CallsProvider) && t.crashes == HowMany(log, Crashes) && t.faults == HowMany(log, FailsToWrite)
    ensures t.missed == MissedRow(log)
    ensures t.sent > 0 ==> exists i | 0 <= i < |log| :: log[i].On? && log[i].action == Attempt(true)
    ensures t.blocked > 0 ==> exists i | 0 <= i < |log| :: log[i].On? && log[i].action.Check? && log[i].action.control == Stopped
    ensures t.dead > 0 ==> exists i | 0 <= i < |log| :: log[i].On? && log[i].action.Bury?
    ensures t.lost > 0 ==> exists i | 0 <= i < |log| :: log[i].On? && log[i].action == HandOn(false)
  {
    hide HowMany, MissedRow;
  }

  lemma {:induction false} LogIsFromRun(max: int, st: State, run: seq<Step>, d: DeliveryId)
    requires Legal(max, st, run)
    ensures forall s <- Log(max, st, run, d) :: s in run
    decreases |run|
  {
    if run != [] {
      LogIsFromRun(max, Next(max, st, run[0]), run[1..], d);
    }
  }

  lemma {:induction false} PublishedIsInLog(log: seq<Step>)
    ensures PublishedJob(log).Some? ==> Publish(PublishedJob(log).value) in log
  {
    if log != [] {
      PublishedIsInLog(log[..|log| - 1]);
    }
  }

  /** In every reachable state a queued or unacknowledged job is one that was published, with nothing changed but
      its attempt number, and it is in the retry queue, the dead queue or the queue whose worker serves its channel. */
  lemma JobsReachTheirWorker(max: int, run: seq<Step>, id: nat)
    requires Legal(max, INIT, run) && id in Run(max, INIT, run).msgs && Run(max, INIT, run).msgs[id].body.Carries?
    ensures var msg := Run(max, INIT, run).msgs[id];
            && Publish(msg.body.job.(attempt := 0)) in run
            && (msg.queue == RetryQueue || msg.queue == DeadQueue || Serves(msg.queue, msg.body.job.channel))
  {
    var d := Run(max, INIT, run).msgs[id].body.job.delivery;
    FollowsFromInit(max, run, d);
    PublishedIsInLog(Log(max, INIT, run, d));
    LogIsFromRun(max, INIT, run, d);
  }
}
