/** Invariants of every run of the delivery pipeline, and the guarantees that follow. */
module PipelineSafety {
  import opened Common
  import opened Backoff
  import opened Pipeline
  import opened PipelineSums
  import opened PipelineLocal

  ghost predicate Known(st: State) {
    forall id | id in st.msgs :: st.msgs[id].body.Carries? ==> st.msgs[id].body.job.delivery in st.tallies
  }

  ghost predicate Shaped(max: int, st: State) { forall id | id in st.msgs :: Shape(max, st.msgs[id]) }

  /** Every published delivery is answered for once, plus once per duplicate. */
  ghost predicate Conserved(max: int, st: State) {
    forall d | d in st.tallies ::
      var t := st.tallies[d];
      Total(Holders, max, Some(d), st) + Settled(t) == 1 + t.dupes && t.dupes <= t.crashes
  }

  /** The sends allowed to a delivery: a budget for each life between crashes. */
  function Allowed(max: int, crashes: nat): nat { Budget(max) * (1 + crashes) }

  lemma AllowedSteps(max: int, crashes: nat)
    ensures Allowed(max, 0) == Budget(max)
    ensures Allowed(max, crashes + 1) == Allowed(max, crashes) + Budget(max)
  {
    assert Budget(max) * (1 + (crashes + 1)) == Budget(max) * (1 + crashes) + Budget(max);
  }

  ghost predicate WithinBudget(max: int, st: State) {
    forall d | d in st.tallies ::
      st.tallies[d].sends + Total(Sends, max, Some(d), st) <= Allowed(max, st.tallies[d].crashes)
  }

  ghost predicate Clean(st: State, d: DeliveryId) {
    d in st.tallies && st.tallies[d].crashes == 0
  }

  ghost predicate Faultless(st: State, d: DeliveryId) {
    Clean(st, d) && st.tallies[d].faults == 0
  }

  /** Faultless, and every worker that had something to write found the row committed. */
  ghost predicate Spotless(st: State, d: DeliveryId) {
    Faultless(st, d) && !st.tallies[d].missed
  }

  ghost predicate ExactHolders(max: int, st: State) {
    forall id | id in st.msgs && Holds(st.msgs[id]) ::
      var d := st.msgs[id].body.job.delivery;
      Clean(st, d) ==> Exact(max, st.msgs[id], st.tallies[d])
  }

  ghost predicate ExactDead(max: int, st: State) {
    forall d | Clean(st, d) ::
      st.tallies[d].dead > 0 ==> st.tallies[d].sends == Budget(max) && st.tallies[d].slept == TotalSlept(Budget(max) - 1)
  }

  ghost predicate Pictured(st: State) {
    && (forall id | id in st.msgs && Holds(st.msgs[id]) ::
          var d := st.msgs[id].body.job.delivery;
          Faultless(st, d) ==> Depicts(st.msgs[id], st.tallies[d], RowOf(st, d)))
    && (forall d | Faultless(st, d) :: Settled(st.tallies[d]) > 0 ==> Ends(st.tallies[d], RowOf(st, d)))
  }

  ghost predicate Grounded(st: State) {
    && (forall d | d in st.rows && d !in st.tallies :: st.rows[d] == FRESH_ROW)
    && (forall id | id in st.msgs && st.msgs[id].body.Carries? :: Backed(st.msgs[id], RowOf(st, st.msgs[id].body.job.delivery)))
    && (forall d | d in st.tallies && st.tallies[d].sent > 0 :: HasSentAttempt(RowOf(st, d)))
  }

  ghost predicate Inv(max: int, st: State) {
    && Numbered(st) && Known(st) && Shaped(max, st)
    && Conserved(max, st) && WithinBudget(max, st)
    && ExactHolders(max, st) && ExactDead(max, st)
    && Pictured(st) && Grounded(st)
  }

  // ---------- uniqueness ----------

  /** Without a crash a delivery has one holder or one settlement, never two of either. */
  lemma CleanHolderIsAlone(max: int, st: State, id: nat, other: nat)
    requires Numbered(st) && Conserved(max, st)
    requires id in st.msgs && Holds(st.msgs[id]) && Clean(st, st.msgs[id].body.job.delivery)
    ensures other in st.msgs && Holds(st.msgs[other]) && st.msgs[other].body.job.delivery == st.msgs[id].body.job.delivery ==> other == id
    ensures Settled(st.tallies[st.msgs[id].body.job.delivery]) == 0
  {
    var d := Some(st.msgs[id].body.job.delivery);
    SumCoversTwo(Holders, max, d, st.msgs, st.next, id, id);
    if other in st.msgs {
      SumCoversTwo(Holders, max, d, st.msgs, st.next, id, other);
    }
  }

  // ---------- one step ----------

  /** An effect that stays with the delivery of the message it came from. */
  predicate Faithful(msg: Message, r: Option<Row>, e: Effect) {
    && msg.body.Carries?
    && (e.after.Some? ==> e.after.value.body == msg.body)
    && (e.spawn.Some? ==> e.spawn.value.body.Carries? && e.spawn.value.body.job.delivery == msg.body.job.delivery)
    && Grown(r, e.row)
  }

  /** What a faithful effect does to the sums of every delivery. */
  lemma EffectSums(k: Measure, max: int, st: State, id: nat, e: Effect, sel: Option<DeliveryId>)
    requires Numbered(st) && id in st.msgs && st.msgs[id].body.Carries?
    requires Faithful(st.msgs[id], RowOf(st, st.msgs[id].body.job.delivery), e)
    ensures var d := st.msgs[id].body.job.delivery; var st' := Applied(st, id, d, e);
            && Numbered(st')
            && Total(k, max, sel, st') + Weigh(k, max, sel, st.msgs[id])
               == Total(k, max, sel, st) + WeighOption(k, max, sel, e.after) + WeighOption(k, max, sel, e.spawn)
            && (sel.Some? && sel.value != d ==> Total(k, max, sel, st') == Total(k, max, sel, st))
  {
    TotalAfterPlaced(k, max, sel, st, id, e);
    assert Applied(st, id, st.msgs[id].body.job.delivery, e).msgs == Placed(st, id, e).msgs;
  }

  lemma JunkSums(k: Measure, max: int, st: State, id: nat, a: Action, sel: Option<DeliveryId>)
    requires Numbered(st) && Enabled(st, On(id, a)) && st.msgs[id].body.Malformed? && Shape(max, st.msgs[id])
    ensures var st' := Next(max, st, On(id, a)); var e := Act(max, a, st.msgs[id], NO_TALLY, None);
            && Numbered(st') && st'.rows == st.rows && st'.tallies == st.tallies
            && (sel.Some? ==> Total(k, max, sel, st') == Total(k, max, sel, st))
            && Total(k, max, sel, st') + Weigh(k, max, sel, st.msgs[id])
               == Total(k, max, sel, st) + WeighOption(k, max, sel, e.after) + WeighOption(k, max, sel, e.spawn)
            && e.spawn.None? && (e.after.Some? ==> e.after.value.body.Malformed?)
  {
    TotalAfterPlaced(k, max, sel, st, id, Act(max, a, st.msgs[id], NO_TALLY, None));
  }

  lemma EffectKeepsShaped(max: int, st: State, id: nat, e: Effect)
    requires Numbered(st) && Known(st) && Shaped(max, st) && id in st.msgs && st.msgs[id].body.Carries?
    requires Faithful(st.msgs[id], RowOf(st, st.msgs[id].body.job.delivery), e)
    requires (e.after.Some? ==> Shape(max, e.after.value)) && (e.spawn.Some? ==> Shape(max, e.spawn.value))
    ensures var st' := Applied(st, id, st.msgs[id].body.job.delivery, e); Numbered(st') && Known(st') && Shaped(max, st')
  {
  }

  lemma EffectKeepsGrounded(st: State, id: nat, d: DeliveryId, e: Effect)
    requires Numbered(st) && Known(st) && Grounded(st) && id in st.msgs && st.msgs[id].body.Carries? && st.msgs[id].body.job.delivery == d
    requires Faithful(st.msgs[id], RowOf(st, d), e)
    requires (e.after.Some? ==> Backed(e.after.value, e.row)) && (e.spawn.Some? ==> Backed(e.spawn.value, e.row))
    requires e.tally.sent > TallyOf(st, d).sent ==> HasSentAttempt(e.row)
    ensures Grounded(Applied(st, id, d, e))
  {
    var st' := Applied(st, id, d, e);
    if HasSentAttempt(RowOf(st, d)) {
      GrownKeepsSentAttempt(RowOf(st, d), e.row);
    }
    assert RowOf(st', d) == e.row;
    forall i | i in st'.msgs && st'.msgs[i].body.Carries?
      ensures Backed(st'.msgs[i], RowOf(st', st'.msgs[i].body.job.delivery))
    {
      if i != id && i != st.next {
        assert st'.msgs[i] == st.msgs[i];
      }
    }
  }

  lemma EffectKeepsConserved(max: int, st: State, id: nat, e: Effect)
    requires Inv(max, st) && id in st.msgs && st.msgs[id].body.Carries?
    requires Faithful(st.msgs[id], RowOf(st, st.msgs[id].body.job.delivery), e)
    requires var d := st.msgs[id].body.job.delivery; var t := TallyOf(st, d);
             && WeighOption(Holders, max, Some(d), e.after) + WeighOption(Holders, max, Some(d), e.spawn) + Settled(e.tally) + t.dupes
                == Weigh(Holders, max, Some(d), st.msgs[id]) + Settled(t) + e.tally.dupes
             && e.tally.dupes - t.dupes <= e.tally.crashes - t.crashes
    ensures Conserved(max, Applied(st, id, st.msgs[id].body.job.delivery, e))
  {
    var st' := Applied(st, id, st.msgs[id].body.job.delivery, e);
    forall x | x in st'.tallies
      ensures Total(Holders, max, Some(x), st') + Settled(st'.tallies[x]) == 1 + st'.tallies[x].dupes
      ensures st'.tallies[x].dupes <= st'.tallies[x].crashes
    {
      EffectSums(Holders, max, st, id, e, Some(x));
    }
  }

  lemma EffectKeepsWithinBudget(max: int, st: State, id: nat, e: Effect, crash: bool)
    requires Inv(max, st) && id in st.msgs && st.msgs[id].body.Carries?
    requires Faithful(st.msgs[id], RowOf(st, st.msgs[id].body.job.delivery), e)
    requires var d := st.msgs[id].body.job.delivery; var t := TallyOf(st, d);
             && e.tally.sends + WeighOption(Sends, max, Some(d), e.after) + WeighOption(Sends, max, Some(d), e.spawn)
                <= t.sends + Weigh(Sends, max, Some(d), st.msgs[id]) + (if crash then Budget(max) else 0)
             && e.tally.crashes == t.crashes + (if crash then 1 else 0)
    ensures WithinBudget(max, Applied(st, id, st.msgs[id].body.job.delivery, e))
  {
    hide Allowed, Budget, Weigh, Total, Pictured, Grounded, ExactHolders, ExactDead, Shaped, Conserved;
    var d := st.msgs[id].body.job.delivery;
    var st' := Applied(st, id, d, e);
    forall x | x in st'.tallies
      ensures st'.tallies[x].sends + Total(Sends, max, Some(x), st') <= Allowed(max, st'.tallies[x].crashes)
    {
      EffectSums(Sends, max, st, id, e, Some(x));
      if x != d {
        assert st'.tallies[x] == st.tallies[x];
      } else {
        AllowedSteps(max, st.tallies[d].crashes);
      }
    }
  }

  /** A holder that acts without a crash leaves its delivery with at most one holder: its own. */
  lemma HolderAfterEffect(max: int, st: State, id: nat, e: Effect, i: nat)
    requires Inv(max, st) && id in st.msgs && Holds(st.msgs[id]) && Clean(st, st.msgs[id].body.job.delivery)
    requires Faithful(st.msgs[id], RowOf(st, st.msgs[id].body.job.delivery), e)
    ensures var d := st.msgs[id].body.job.delivery; var st' := Applied(st, id, d, e);
            i in st'.msgs && Holds(st'.msgs[i]) && st'.msgs[i].body.job.delivery == d ==>
              (e.after.Some? && i == id && st'.msgs[i] == e.after.value) || (e.spawn.Some? && i == st.next && st'.msgs[i] == e.spawn.value)
  {
    CleanHolderIsAlone(max, st, id, i);
  }

  lemma EffectKeepsExact(max: int, st: State, id: nat, e: Effect)
    requires Inv(max, st) && id in st.msgs && Holds(st.msgs[id]) && Clean(st, st.msgs[id].body.job.delivery)
    requires Faithful(st.msgs[id], RowOf(st, st.msgs[id].body.job.delivery), e)
    requires (e.after.Some? && Holds(e.after.value) ==> Exact(max, e.after.value, e.tally))
          && (e.spawn.Some? ==> Exact(max, e.spawn.value, e.tally))
    requires e.tally.dead > 0 ==> e.tally.sends == Budget(max) && e.tally.slept == TotalSlept(Budget(max) - 1)
    ensures var st' := Applied(st, id, st.msgs[id].body.job.delivery, e); ExactHolders(max, st') && ExactDead(max, st')
  {
    var d := st.msgs[id].body.job.delivery;
    var st' := Applied(st, id, d, e);
    forall i | i in st'.msgs && Holds(st'.msgs[i])
      ensures var x := st'.msgs[i].body.job.delivery; Clean(st', x) ==> Exact(max, st'.msgs[i], st'.tallies[x])
    {
      HolderAfterEffect(max, st, id, e, i);
    }
  }

  lemma EffectKeepsPictured(max: int, st: State, id: nat, e: Effect)
    requires Inv(max, st) && id in st.msgs && Holds(st.msgs[id]) && Faultless(st, st.msgs[id].body.job.delivery)
    requires Faithful(st.msgs[id], RowOf(st, st.msgs[id].body.job.delivery), e)
    requires (e.after.Some? && Holds(e.after.value) ==> Depicts(e.after.value, e.tally, e.row))
          && (e.spawn.Some? ==> Depicts(e.spawn.value, e.tally, e.row))
    requires Settled(e.tally) > 0 ==> Ends(e.tally, e.row)
    ensures Pictured(Applied(st, id, st.msgs[id].body.job.delivery, e))
  {
    hide Depicts, Ends, Conserved, WithinBudget, ExactHolders, ExactDead, Grounded, Shaped;
    var d := st.msgs[id].body.job.delivery;
    var st' := Applied(st, id, d, e);
    assert RowOf(st', d) == e.row;
    forall i | i in st'.msgs && Holds(st'.msgs[i])
      ensures var x := st'.msgs[i].body.job.delivery; Faultless(st', x) ==> Depicts(st'.msgs[i], st'.tallies[x], RowOf(st', x))
    {
      HolderAfterEffect(max, st, id, e, i);
    }
  }

  /** Once the acting delivery is no longer clean, its exact invariants are vacuous. */
  lemma UncleanEffectKeepsExact(max: int, st: State, id: nat, e: Effect)
    requires Inv(max, st) && id in st.msgs && st.msgs[id].body.Carries?
    requires Faithful(st.msgs[id], RowOf(st, st.msgs[id].body.job.delivery), e) && e.tally.crashes > 0
    ensures var st' := Applied(st, id, st.msgs[id].body.job.delivery, e); ExactHolders(max, st') && ExactDead(max, st')
  {
  }

  lemma SpottedEffectKeepsPictured(max: int, st: State, id: nat, e: Effect)
    requires Inv(max, st) && id in st.msgs && st.msgs[id].body.Carries?
    requires Faithful(st.msgs[id], RowOf(st, st.msgs[id].body.job.delivery), e)
    requires e.tally.crashes > 0 || e.tally.faults > 0
    ensures Pictured(Applied(st, id, st.msgs[id].body.job.delivery, e))
  {
  }

  /** Acknowledging a job that was already passed on only removes its message. */
  lemma InertKeepsInv(max: int, st: State, id: nat, e: Effect)
    requires Inv(max, st) && id in st.msgs && NonHolder(st.msgs[id])
    requires var d := st.msgs[id].body.job.delivery; e == Effect(None, None, TallyOf(st, d), RowOf(st, d))
    ensures var st' := Applied(st, id, st.msgs[id].body.job.delivery, e);
            ExactHolders(max, st') && ExactDead(max, st') && Pictured(st')
  {
    var st' := Applied(st, id, st.msgs[id].body.job.delivery, e);
    assert st'.tallies == st.tallies && st'.rows == st.rows && st'.msgs == st.msgs - {id};
  }

  // ---------- one action of a worker ----------

  /** Acknowledging as dead records an exactly spent budget; every other action keeps the dead count. */
  lemma ActKeepsDeadExact(max: int, a: Action, msg: Message, t: Tally, r: Option<Row>)
    requires Can(a, msg) && msg.body.Carries? && Shape(max, msg) && Holds(msg) && a != Crash && Exact(max, msg, t) && t.dead == 0
    ensures var t' := Act(max, a, msg, t, r).tally;
            t'.dead > 0 ==> t'.sends == Budget(max) && t'.slept == TotalSlept(Budget(max) - 1)
  {
    if a == Settle && msg.stage == Settling(AsDead) {
      DeadHasSpentBudget(max, msg, t);
    }
  }

  lemma ActKeepsDepiction(max: int, a: Action, msg: Message, t: Tally, r: Option<Row>)
    requires Can(a, msg) && msg.body.Carries? && Holds(msg) && a != Crash && Depicts(msg, t, r) && Settled(t) == 0
    requires Act(max, a, msg, t, r).tally.faults == t.faults
    ensures var e := Act(max, a, msg, t, r);
            && (e.after.Some? && Holds(e.after.value) ==> Depicts(e.after.value, e.tally, e.row))
            && (e.spawn.Some? ==> Depicts(e.spawn.value, e.tally, e.row))
            && (Settled(e.tally) > 0 ==> Ends(e.tally, e.row))
  {
    hide Act, Picture, Spoiled, Ends;
    ActFlags(max, a, msg, t, r);
    ActKeepsEnding(max, a, msg, t, r);
    if Act(max, a, msg, t, r).tally.missed {
      ActKeepsSpoiled(max, a, msg, t, r);
    } else {
      ActKeepsPicture(max, a, msg, t, r);
    }
  }

  lemma ActIsFaithful(max: int, a: Action, msg: Message, t: Tally, r: Option<Row>)
    requires Can(a, msg) && msg.body.Carries?
    ensures Faithful(msg, r, Act(max, a, msg, t, r))
  {
    ActKeepsDelivery(max, a, msg, t, r);
  }

  lemma ActFlags(max: int, a: Action, msg: Message, t: Tally, r: Option<Row>)
    requires Can(a, msg)
    ensures var t' := Act(max, a, msg, t, r).tally;
            (t.missed ==> t'.missed) && t'.faults >= t.faults && t'.crashes == t.crashes + if a == Crash then 1 else 0
  {
  }

  lemma OnKeepsBasicsAndTotals(max: int, st: State, id: nat, a: Action, t: Tally, r: Option<Row>)
    requires Inv(max, st) && Enabled(st, On(id, a)) && st.msgs[id].body.Carries?
    requires var d := st.msgs[id].body.job.delivery; t == TallyOf(st, d) && r == RowOf(st, d)
    ensures var st' := Applied(st, id, st.msgs[id].body.job.delivery, Act(max, a, st.msgs[id], t, r));
            Numbered(st') && Known(st') && Shaped(max, st') && Grounded(st') && Conserved(max, st') && WithinBudget(max, st')
  {
    var msg := st.msgs[id];
    ActIsFaithful(max, a, msg, t, r);
    ActKeepsShape(max, a, msg, t, r);
    ActKeepsBacked(max, a, msg, t, r);
    EffectKeepsShaped(max, st, id, Act(max, a, msg, t, r));
    EffectKeepsGrounded(st, id, msg.body.job.delivery, Act(max, a, msg, t, r));
    ActConserves(max, a, msg, t, r);
    EffectKeepsConserved(max, st, id, Act(max, a, msg, t, r));
    ActSpendsSends(max, a, msg, t, r);
    EffectKeepsWithinBudget(max, st, id, Act(max, a, msg, t, r), a == Crash);
  }

  lemma OnKeepsExact(max: int, st: State, id: nat, a: Action, t: Tally, r: Option<Row>)
    requires Inv(max, st) && Enabled(st, On(id, a)) && st.msgs[id].body.Carries?
    requires var d := st.msgs[id].body.job.delivery; t == TallyOf(st, d) && r == RowOf(st, d)
    ensures var st' := Applied(st, id, st.msgs[id].body.job.delivery, Act(max, a, st.msgs[id], t, r));
            ExactHolders(max, st') && ExactDead(max, st')
  {
    var msg := st.msgs[id];
    ActIsFaithful(max, a, msg, t, r);
    ActFlags(max, a, msg, t, r);
    if a == Crash || t.crashes > 0 {
      UncleanEffectKeepsExact(max, st, id, Act(max, a, msg, t, r));
    } else if Holds(msg) {
      CleanHolderIsAlone(max, st, id, id);
      ActKeepsExact(max, a, msg, t, r);
      ActKeepsDeadExact(max, a, msg, t, r);
      EffectKeepsExact(max, st, id, Act(max, a, msg, t, r));
    } else {
      NonHolderIsInert(max, a, msg, t, r);
      InertKeepsInv(max, st, id, Act(max, a, msg, t, r));
    }
  }

  lemma OnKeepsPictured(max: int, st: State, id: nat, a: Action, t: Tally, r: Option<Row>)
    requires Inv(max, st) && Enabled(st, On(id, a)) && st.msgs[id].body.Carries?
    requires var d := st.msgs[id].body.job.delivery; t == TallyOf(st, d) && r == RowOf(st, d)
    ensures Pictured(Applied(st, id, st.msgs[id].body.job.delivery, Act(max, a, st.msgs[id], t, r)))
  {
    var msg := st.msgs[id];
    var t' := Act(max, a, msg, t, r).tally;
    ActIsFaithful(max, a, msg, t, r);
    ActFlags(max, a, msg, t, r);
    if t'.crashes > 0 || t'.faults > 0 {
      SpottedEffectKeepsPictured(max, st, id, Act(max, a, msg, t, r));
    } else if Holds(msg) {
      CleanHolderIsAlone(max, st, id, id);
      assert Faultless(st, msg.body.job.delivery);
      ActKeepsDepiction(max, a, msg, t, r);
      EffectKeepsPictured(max, st, id, Act(max, a, msg, t, r));
    } else {
      NonHolderIsInert(max, a, msg, t, r);
      InertKeepsInv(max, st, id, Act(max, a, msg, t, r));
    }
  }

  /** A state that differs in messages without a job, none of them counted, keeps every invariant. */
  lemma SameJobsKeepInv(max: int, st: State, st': State)
    requires Inv(max, st) && st'.rows == st.rows && st'.tallies == st.tallies && Numbered(st')
    requires forall id | id in st'.msgs && st'.msgs[id].body.Carries? :: id in st.msgs && st'.msgs[id] == st.msgs[id]
    requires forall id | id in st'.msgs && st'.msgs[id].body.Malformed? :: Shape(max, st'.msgs[id])
    requires forall d | d in st.tallies ::
               Total(Holders, max, Some(d), st') == Total(Holders, max, Some(d), st) && Total(Sends, max, Some(d), st') == Total(Sends, max, Some(d), st)
    ensures Inv(max, st')
  {
    hide Shape, Exact, Depicts, Ends, Backed, Total, Budget;
    assert Pictured(st');
    assert Grounded(st');
  }

  lemma JunkKeepsInv(max: int, st: State, id: nat, a: Action)
    requires Inv(max, st) && Enabled(st, On(id, a)) && st.msgs[id].body.Malformed?
    ensures Inv(max, Next(max, st, On(id, a)))
  {
    hide Conserved, WithinBudget, ExactHolders, ExactDead, Pictured, Grounded;
    var st' := Next(max, st, On(id, a));
    ActKeepsShape(max, a, st.msgs[id], NO_TALLY, None);
    forall d | d in st.tallies
      ensures Total(Holders, max, Some(d), st') == Total(Holders, max, Some(d), st) && Total(Sends, max, Some(d), st') == Total(Sends, max, Some(d), st)
    {
      JunkSums(Holders, max, st, id, a, Some(d));
      JunkSums(Sends, max, st, id, a, Some(d));
    }
    JunkSums(Holders, max, st, id, a, None);
    SameJobsKeepInv(max, st, st');
  }

  /** A delivery that was never published weighs nothing. */
  lemma UnknownWeighsNothing(k: Measure, max: int, st: State, d: DeliveryId)
    requires Numbered(st) && Known(st) && d !in st.tallies
    ensures Total(k, max, Some(d), st) == 0
  {
    SumZero(k, max, Some(d), st.msgs, st.next);
  }

  lemma PublishSums(k: Measure, max: int, st: State, job: Job, d: DeliveryId)
    requires Inv(max, st) && Enabled(st, Publish(job))
    ensures var st' := Next(max, st, Publish(job));
            Total(k, max, Some(d), st') == Total(k, max, Some(d), st) + Weigh(k, max, Some(d), Republished(ChannelQueue(job.channel), job))
            && Numbered(st')
  {
    TotalAfterNew(k, max, Some(d), st, Next(max, st, Publish(job)), Republished(ChannelQueue(job.channel), job));
  }

  /** A newly published job answers for its delivery and for no other, and its sends are a whole budget. */
  lemma NewJobWeighs(max: int, job: Job, d: DeliveryId)
    requires job.attempt == 0
    ensures var msg := Republished(ChannelQueue(job.channel), job);
            && Weigh(Holders, max, Some(d), msg) == (if d == job.delivery then 1 else 0)
            && Weigh(Sends, max, Some(d), msg) == (if d == job.delivery then Budget(max) else 0)
  {
  }

  lemma NewTally(max: int, st: State, job: Job)
    requires Enabled(st, Publish(job))
    ensures Next(max, st, Publish(job)).tallies == st.tallies[job.delivery := NO_TALLY]
    ensures job.delivery !in st.tallies && job.attempt == 0
  {
  }

  /** What `Conserved` and `WithinBudget` say of a delivery with that many holders and possible sends. */
  predicate Balanced(max: int, holders: nat, possible: nat, t: Tally) {
    && holders + Settled(t) == 1 + t.dupes && t.dupes <= t.crashes
    && t.sends + possible <= Allowed(max, t.crashes)
  }

  ghost predicate BalancedIn(max: int, st: State, d: DeliveryId, t: Tally) {
    Balanced(max, Total(Holders, max, Some(d), st), Total(Sends, max, Some(d), st), t)
  }

  lemma PublishedTotals(max: int, st: State, job: Job)
    requires Inv(max, st) && Enabled(st, Publish(job))
    ensures var st' := Next(max, st, Publish(job));
            && Total(Holders, max, Some(job.delivery), st') == 1
            && Total(Sends, max, Some(job.delivery), st') == Budget(max)
  {
    hide Conserved, WithinBudget, Pictured, Grounded, ExactHolders, ExactDead, Shaped, Known, Numbered;
    hide Total, Next, Weigh, Budget, Republished;
    NewTally(max, st, job);
    NewJobWeighs(max, job, job.delivery);
    PublishSums(Holders, max, st, job, job.delivery);
    PublishSums(Sends, max, st, job, job.delivery);
    UnknownWeighsNothing(Holders, max, st, job.delivery);
    UnknownWeighsNothing(Sends, max, st, job.delivery);
  }

  lemma NewIsBalanced(max: int)
    ensures Balanced(max, 1, Allowed(max, 0), NO_TALLY)
  {
    hide Allowed;
  }

  lemma PublishedIsBalanced(max: int, st: State, job: Job)
    requires Inv(max, st) && Enabled(st, Publish(job))
    ensures BalancedIn(max, Next(max, st, Publish(job)), job.delivery, NO_TALLY)
  {
    hide Inv, Enabled, Next, Total, Budget, Allowed, Balanced;
    PublishedTotals(max, st, job);
    AllowedSteps(max, 0);
    NewIsBalanced(max);
  }

  lemma OthersStayBalanced(max: int, st: State, job: Job, d: DeliveryId)
    requires Inv(max, st) && Enabled(st, Publish(job)) && d in st.tallies
    ensures d != job.delivery && BalancedIn(max, Next(max, st, Publish(job)), d, st.tallies[d])
  {
    hide Pictured, Grounded, ExactHolders, ExactDead, Shaped, Known, Numbered, Total, Next, Weigh, Budget, Allowed, Republished;
    NewTally(max, st, job);
    NewJobWeighs(max, job, d);
    PublishSums(Holders, max, st, job, d);
    PublishSums(Sends, max, st, job, d);
  }

  lemma PublishKeepsTotals(max: int, st: State, job: Job)
    requires Inv(max, st) && Enabled(st, Publish(job))
    ensures var st' := Next(max, st, Publish(job)); Conserved(max, st') && WithinBudget(max, st') && Numbered(st')
  {
    hide Inv, Next, Enabled, Numbered, Total, Budget, Allowed, Settled;
    var st' := Next(max, st, Publish(job));
    NewTally(max, st, job);
    PublishSums(Holders, max, st, job, job.delivery);
    forall d | d in st'.tallies ensures BalancedIn(max, st', d, st'.tallies[d]) {
      if d == job.delivery {
        PublishedIsBalanced(max, st, job);
      } else {
        OthersStayBalanced(max, st, job, d);
      }
    }
  }

  lemma PublishKeepsBasics(max: int, st: State, job: Job)
    requires Inv(max, st) && Enabled(st, Publish(job))
    ensures var st' := Next(max, st, Publish(job)); Known(st') && Shaped(max, st') && Grounded(st')
  {
  }

  lemma PublishKeepsExact(max: int, st: State, job: Job)
    requires Inv(max, st) && Enabled(st, Publish(job))
    ensures var st' := Next(max, st, Publish(job)); ExactHolders(max, st') && ExactDead(max, st')
  {
    hide Pictured, Grounded, Conserved, WithinBudget, Budget, SendsLeft, Sleep, Total;
    assert TotalSlept(0) == 0;
  }

  lemma NewDeliveryKeepsPictured(st: State, st': State, msg: Message, d: DeliveryId, t: Tally)
    requires st' == st.(msgs := st.msgs[st.next := msg], next := st.next + 1, tallies := st.tallies[d := t])
    requires Numbered(st) && Known(st) && Pictured(st) && d !in st.tallies
    requires msg.body.Carries? && msg.body.job.delivery == d && Settled(t) == 0 && Depicts(msg, t, RowOf(st, d))
    ensures Pictured(st')
  {
    hide Depicts, Ends;
  }

  lemma PublishKeepsPictured(max: int, st: State, job: Job)
    requires Numbered(st) && Known(st) && Pictured(st) && Enabled(st, Publish(job))
    requires job.delivery in st.rows ==> st.rows[job.delivery] == FRESH_ROW
    ensures Pictured(Next(max, st, Publish(job)))
  {
    var msg := Republished(ChannelQueue(job.channel), job);
    assert Depicts(msg, NO_TALLY, RowOf(st, job.delivery));
    NewDeliveryKeepsPictured(st, Next(max, st, Publish(job)), msg, job.delivery, NO_TALLY);
  }

  lemma PublishKeepsInv(max: int, st: State, job: Job)
    requires Inv(max, st) && Enabled(st, Publish(job))
    ensures Inv(max, Next(max, st, Publish(job)))
  {
    PublishKeepsTotals(max, st, job);
    PublishKeepsBasics(max, st, job);
    PublishKeepsExact(max, st, job);
    PublishKeepsPictured(max, st, job);
  }

  lemma NewJunkKeepsInv(max: int, st: State, q: Queue)
    requires Inv(max, st)
    ensures Inv(max, Next(max, st, Junk(q)))
  {
    hide Conserved, WithinBudget, ExactHolders, ExactDead, Pictured, Grounded;
    var st' := Next(max, st, Junk(q));
    var msg := Message(q, Malformed, Ready);
    forall d
      ensures Total(Holders, max, Some(d), st') == Total(Holders, max, Some(d), st) && Total(Sends, max, Some(d), st') == Total(Sends, max, Some(d), st)
    {
      TotalAfterNew(Holders, max, Some(d), st, st', msg);
      TotalAfterNew(Sends, max, Some(d), st, st', msg);
    }
    SameJobsKeepInv(max, st, st');
  }

  lemma CommitKeepsPictured(max: int, st: State, d: DeliveryId)
    requires Pictured(st) && Enabled(st, Commit(d))
    ensures Pictured(Next(max, st, Commit(d)))
  {
    var st' := Next(max, st, Commit(d));
    assert forall x :: RowOf(st', x) == if x == d then Some(FRESH_ROW) else RowOf(st, x);
  }

  /** Committing a row changes no published delivery's picture: its job was pictured with a fresh row. */
  lemma CommitKeepsInv(max: int, st: State, d: DeliveryId)
    requires Inv(max, st) && Enabled(st, Commit(d))
    ensures Inv(max, Next(max, st, Commit(d)))
  {
    hide Shape, Exact, Depicts, Ends, Budget, Weigh, Pictured;
    var st' := Next(max, st, Commit(d));
    CommitKeepsPictured(max, st, d);
    assert Conserved(max, st') && WithinBudget(max, st') by {
      assert forall k: Measure, x :: Total(k, max, Some(x), st') == Total(k, max, Some(x), st);
    }
    hide Total, Conserved, WithinBudget;
    assert forall x | x in st.tallies :: RowOf(st, x).Some? ==> RowOf(st', x) == RowOf(st, x);
  }

  lemma OnKeepsInv(max: int, st: State, id: nat, a: Action)
    requires Inv(max, st) && Enabled(st, On(id, a)) && st.msgs[id].body.Carries?
    ensures Inv(max, Next(max, st, On(id, a)))
  {
    hide Act, Applied, Numbered, Known, Shaped, Conserved, WithinBudget, ExactHolders, ExactDead, Pictured, Grounded;
    var d := st.msgs[id].body.job.delivery;
    OnKeepsBasicsAndTotals(max, st, id, a, TallyOf(st, d), RowOf(st, d));
    OnKeepsExact(max, st, id, a, TallyOf(st, d), RowOf(st, d));
    OnKeepsPictured(max, st, id, a, TallyOf(st, d), RowOf(st, d));
  }

  lemma StepKeepsInv(max: int, st: State, s: Step)
    requires Inv(max, st) && Enabled(st, s)
    ensures Inv(max, Next(max, st, s))
  {
    hide Inv, Next;
    match s
    case Publish(job) => PublishKeepsInv(max, st, job);
    case Commit(d) => CommitKeepsInv(max, st, d);
    case Junk(q) => NewJunkKeepsInv(max, st, q);
    case On(id, a) =>
      if st.msgs[id].body.Malformed? {
        JunkKeepsInv(max, st, id, a);
      } else {
        OnKeepsInv(max, st, id, a);
      }
  }

  lemma {:induction false} RunKeepsInv(max: int, st: State, run: seq<Step>)
    requires Inv(max, st) && Legal(max, st, run)
    ensures Inv(max, Run(max, st, run))
    decreases |run|
  {
    if run != [] {
      StepKeepsInv(max, st, run[0]);
      RunKeepsInv(max, Next(max, st, run[0]), run[1..]);
    }
  }
}
