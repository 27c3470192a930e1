/** Weights of messages and their sums over the broker, the tools of the pipeline's invariants. */
module PipelineSums {
  import opened Common
  import opened Pipeline

  /** Holders: messages that answer for their delivery. Sends: provider sends still possible.
      Work: worker actions still possible. */
  datatype Measure = Holders | Sends | Work

  predicate Concerns(sel: Option<DeliveryId>, msg: Message) {
    sel.None? || (msg.body.Carries? && msg.body.job.delivery == sel.value)
  }

  predicate Holds(msg: Message) { msg.body.Carries? && msg.stage != Settling(AsHandedOn) }

  function SendsOf(max: int, msg: Message): nat {
    if msg.body.Malformed? || msg.stage.Settling? then 0
    else
      var a := msg.body.job.attempt;
      if IsChannel(msg.queue) then
        SendsLeft(max, a) - if msg.stage.Tried? || msg.stage.Stored? || msg.stage == Failing then 1 else 0
      else if msg.queue == RetryQueue && a < max then SendsLeft(max, a + 1)
      else 0
  }

  /** A channel round costs at most 8 actions, a retry hop 3, a burial 3. */
  function WorkOf(max: int, msg: Message): nat {
    if msg.stage.Settling? then 1
    else if msg.body.Malformed? then (if msg.stage == Ready then 2 else 1)
    else
      var a := msg.body.job.attempt;
      var fetched := if msg.stage == Ready then 1 else 0;
      if IsChannel(msg.queue) then
        11 * (SendsLeft(max, a) - 1) +
        (match msg.stage
         case Ready => 14
         case Fetched => 13
         case Cleared => 12
         case Marked => 11
         case Tried(_) => 10
         case Stored(_) => 9
         case _ => 8)
      else if msg.queue == RetryQueue then
        5 + fetched + if a < max then 11 * SendsLeft(max, a + 1) else 0
      else 2 + fetched
  }

  function Weigh(k: Measure, max: int, sel: Option<DeliveryId>, msg: Message): nat {
    if !Concerns(sel, msg) then 0
    else match k
      case Holders => if Holds(msg) then 1 else 0
      case Sends => SendsOf(max, msg)
      case Work => WorkOf(max, msg)
  }

  function WeightAt(k: Measure, max: int, sel: Option<DeliveryId>, msgs: map<nat, Message>, id: nat): nat {
    if id in msgs then Weigh(k, max, sel, msgs[id]) else 0
  }

  /** The total weight of the messages numbered below n. */
  function Sum(k: Measure, max: int, sel: Option<DeliveryId>, msgs: map<nat, Message>, n: nat): nat {
    if n == 0 then 0 else Sum(k, max, sel, msgs, n - 1) + WeightAt(k, max, sel, msgs, n - 1)
  }

  lemma {:induction false} SumChange(k: Measure, max: int, sel: Option<DeliveryId>,
                                     msgs: map<nat, Message>, msgs': map<nat, Message>, n: nat, id: nat)
    requires forall i: nat | i < n && i != id :: WeightAt(k, max, sel, msgs, i) == WeightAt(k, max, sel, msgs', i)
    ensures id < n ==> Sum(k, max, sel, msgs', n) + WeightAt(k, max, sel, msgs, id) == Sum(k, max, sel, msgs, n) + WeightAt(k, max, sel, msgs', id)
    ensures id >= n ==> Sum(k, max, sel, msgs', n) == Sum(k, max, sel, msgs, n)
  {
    if n > 0 {
      SumChange(k, max, sel, msgs, msgs', n - 1, id);
    }
  }

  lemma {:induction false} SumCoversTwo(k: Measure, max: int, sel: Option<DeliveryId>, msgs: map<nat, Message>, n: nat, i: nat, j: nat)
    requires i < n && j < n
    ensures i != j ==> WeightAt(k, max, sel, msgs, i) + WeightAt(k, max, sel, msgs, j) <= Sum(k, max, sel, msgs, n)
    ensures i == j ==> WeightAt(k, max, sel, msgs, i) <= Sum(k, max, sel, msgs, n)
  {
    if i < n - 1 && j < n - 1 {
      SumCoversTwo(k, max, sel, msgs, n - 1, i, j);
    } else if i < n - 1 {
      SumCoversTwo(k, max, sel, msgs, n - 1, i, i);
    } else if j < n - 1 {
      SumCoversTwo(k, max, sel, msgs, n - 1, j, j);
    }
  }

  lemma {:induction false} SumZero(k: Measure, max: int, sel: Option<DeliveryId>, msgs: map<nat, Message>, n: nat)
    requires forall i: nat | i < n :: WeightAt(k, max, sel, msgs, i) == 0
    ensures Sum(k, max, sel, msgs, n) == 0
  {
    if n > 0 {
      SumZero(k, max, sel, msgs, n - 1);
    }
  }

  /** A positive sum has a message behind it. */
  lemma {:induction false} SumWitness(k: Measure, max: int, sel: Option<DeliveryId>, msgs: map<nat, Message>, n: nat) returns (id: nat)
    requires Sum(k, max, sel, msgs, n) > 0
    ensures id < n && id in msgs && Weigh(k, max, sel, msgs[id]) > 0
  {
    if WeightAt(k, max, sel, msgs, n - 1) > 0 {
      id := n - 1;
    } else {
      id := SumWitness(k, max, sel, msgs, n - 1);
    }
  }

  function Total(k: Measure, max: int, sel: Option<DeliveryId>, st: State): nat {
    Sum(k, max, sel, st.msgs, st.next)
  }

  predicate Numbered(st: State) { forall id | id in st.msgs :: id < st.next }

  function WeighOption(k: Measure, max: int, sel: Option<DeliveryId>, msg: Option<Message>): nat {
    if msg.Some? then Weigh(k, max, sel, msg.value) else 0
  }

  /** Putting an effect back changes every total by exactly the handled message's weight. */
  lemma TotalAfterPlaced(k: Measure, max: int, sel: Option<DeliveryId>, st: State, id: nat, e: Effect)
    requires Numbered(st) && id in st.msgs
    ensures Numbered(Placed(st, id, e))
    ensures Total(k, max, sel, Placed(st, id, e)) + Weigh(k, max, sel, st.msgs[id])
         == Total(k, max, sel, st) + WeighOption(k, max, sel, e.after) + WeighOption(k, max, sel, e.spawn)
  {
    var st' := Placed(st, id, e);
    SumChange(k, max, sel, st.msgs, st'.msgs, st.next, id);
  }

  /** Adding a message under the next number adds its weight. */
  lemma TotalAfterNew(k: Measure, max: int, sel: Option<DeliveryId>, st: State, st': State, msg: Message)
    requires Numbered(st) && st'.msgs == st.msgs[st.next := msg] && st'.next == st.next + 1
    ensures Numbered(st')
    ensures Total(k, max, sel, st') == Total(k, max, sel, st) + Weigh(k, max, sel, msg)
  {
    SumChange(k, max, sel, st.msgs, st'.msgs, st.next, st.next);
  }
}
