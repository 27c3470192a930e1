/** Accepting notifications and routing scheduled ones (notifications/service.go). `Send` publishes its
    jobs before it commits; the scheduler commits every row on its own and stops at the first failure. */
module Notifications {
  import opened Common
  import Pipeline
  import Text

  datatype Request = Request(channels: seq<string>, data: map<string, string>, recipient: map<string, string>,
                             scheduleType: string, sendAt: Option<int>)  // None: not an RFC 3339 time

  datatype Note = Note(tenant: string, channels: seq<string>, payload: map<string, string>)
  datatype Delivery = Delivery(notification: nat, channel: string)
  datatype JobStatus = Pending | Routed
  datatype ScheduledJob = ScheduledJob(notification: nat, due: int, status: JobStatus)
  datatype Publication = Publication(queue: Pipeline.Queue, notification: nat, delivery: nat, channel: string, payload: map<string, string>)

  /** Committed rows, the jobs handed to the broker in order, and the next unused row id. */
  datatype Store = Store(notes: map<nat, Note>, deliveries: map<nat, Delivery>, scheduled: map<nat, ScheduledJob>,
                         published: seq<Publication>, nextId: nat)

  datatype Outcome = Accepted(notification: nat) | Refused

  /** Recipient fields override data fields of the same name. */
  function Payload(data: map<string, string>, recipient: map<string, string>): map<string, string> { data + recipient }

  function JobFor(n: nat, note: Note, delivery: nat, channel: string): Publication {
    Publication(Pipeline.ChannelQueue(channel), n, delivery, channel, note.payload)
  }

  // Row ids at and above `nextId` are unused.

  predicate NotesBelow(notes: map<nat, Note>, next: nat) { forall k | k in notes :: k < next }

  predicate DeliveriesBelow(deliveries: map<nat, Delivery>, next: nat) {
    forall k | k in deliveries :: k < next && deliveries[k].notification < next
  }

  predicate ScheduledBelow(scheduled: map<nat, ScheduledJob>, notes: map<nat, Note>, next: nat) {
    forall k | k in scheduled :: k < next && scheduled[k].notification in notes
  }

  predicate PublishedBelow(published: seq<Publication>, next: nat) {
    forall i | 0 <= i < |published| :: published[i].delivery < next && published[i].notification < next
  }

  predicate UnusedIds(st: Store) {
    && NotesBelow(st.notes, st.nextId) && DeliveriesBelow(st.deliveries, st.nextId)
    && ScheduledBelow(st.scheduled, st.notes, st.nextId) && PublishedBelow(st.published, st.nextId)
  }

  predicate IsScheduled(req: Request) { Text.Lower(req.scheduleType) == "scheduled" }

  /** The jobs for `count` channels from index `from` on, under consecutive delivery ids. */
  function Jobs(n: nat, note: Note, from: nat, first: nat, count: nat): (jobs: seq<Publication>)
    requires from + count <= |note.channels|
    ensures |jobs| == count
  {
    seq(count, i requires 0 <= i < count => JobFor(n, note, first + i, note.channels[from + i]))
  }

  /** The first `count` delivery rows of one request. */
  function Rows(n: nat, note: Note, first: nat, count: nat): map<nat, Delivery>
    requires count <= |note.channels|
  {
    if count == 0 then map[] else Rows(n, note, first, count - 1)[first + count - 1 := Delivery(n, note.channels[count - 1])]
  }

  lemma {:induction false} RowsDomain(n: nat, note: Note, first: nat, count: nat)
    requires count <= |note.channels|
    ensures forall k :: k in Rows(n, note, first, count) <==> first <= k < first + count
    ensures forall k | k in Rows(n, note, first, count) :: Rows(n, note, first, count)[k] == Delivery(n, note.channels[k - first])
    ensures |Rows(n, note, first, count)| == count
  {
    if count > 0 {
      RowsDomain(n, note, first, count - 1);
      assert first + count - 1 !in Rows(n, note, first, count - 1);
    }
  }

  /** The checks `Send` makes before it opens its transaction. */
  predicate Admitted(tenant: string, active: bool, req: Request, checks: seq<bool>) {
    && tenant != "" && req.channels != [] && active && (forall i | 0 <= i < |checks| :: checks[i])
    && (IsScheduled(req) ==> req.sendAt.Some?)
  }

  /** The transaction of a scheduled request: begin, insert the notification and its job, commit. */
  function SendTimed(st: Store, note: Note, due: int, left: nat): (Store, Outcome) {
    var n := st.nextId;
    var st' := st.(nextId := n + 2);
    if left < 4 then (st', Refused)
    else (st'.(notes := st.notes[n := note], scheduled := st.scheduled[n + 1 := ScheduledJob(n, due, Pending)]), Accepted(n))
  }

  /** The transaction of an instant request: begin, insert the notification, three operations per channel, commit. */
  function SendInstant(st: Store, note: Note, left: nat): (Store, Outcome)
    requires left >= 2
  {
    var n := st.nextId;
    var all := |note.channels|;
    var st' := st.(nextId := n + 1 + Min(all, left / 3), published := st.published + Jobs(n, note, 0, n + 1, Min(all, (left - 2) / 3)));
    if left < 3 + 3 * all then (st', Refused)
    else (st'.(notes := st.notes[n := note], deliveries := st.deliveries + Rows(n, note, n + 1, all)), Accepted(n))
  }

  function NoteFor(tenant: string, req: Request): Note { Note(tenant, req.channels, Payload(req.data, req.recipient)) }

  /** `Send` when `left` database and broker operations succeed before the first failure. */
  function Sending(st: Store, tenant: string, active: bool, req: Request, checks: seq<bool>, left: nat): (Store, Outcome) {
    if !Admitted(tenant, active, req, checks) || left < 2 then (st, Refused)
    else if IsScheduled(req) then SendTimed(st, NoteFor(tenant, req), req.sendAt.value, left)
    else SendInstant(st, NoteFor(tenant, req), left)
  }

  // ---------- the scheduler ----------

  const BATCH: nat := 100

  predicate IsDue(st: Store, now: int, j: nat) { j in st.scheduled && st.scheduled[j].status == Pending && st.scheduled[j].due <= now }

  /** The pending jobs of a store, by due time. */
  function PendingJobs(st: Store): map<nat, int> {
    map j | j in st.scheduled && st.scheduled[j].status == Pending :: st.scheduled[j].due
  }

  /** What `ORDER BY due_at ASC LIMIT 100` may return of the pending jobs, whatever it does with ties. */
  ghost predicate IsBatch(pending: map<nat, int>, now: int, batch: seq<nat>) {
    && (forall i | 0 <= i < |batch| :: batch[i] in pending && pending[batch[i]] <= now)
    && (forall i, j | 0 <= i < j < |batch| :: batch[i] != batch[j] && pending[batch[i]] <= pending[batch[j]])
    && |batch| <= BATCH
    && (forall j | j in pending && pending[j] <= now && j !in batch ::
          |batch| == BATCH && forall i | 0 <= i < |batch| :: pending[batch[i]] <= pending[j])
  }

  /** A pass that still has `left` operations before the first one that fails. */
  datatype Pass = Pass(st: Store, left: nat, ok: bool)

  function WithDelivery(st: Store, n: nat, channel: string): Store {
    st.(deliveries := st.deliveries[st.nextId := Delivery(n, channel)], nextId := st.nextId + 1)
  }

  /** Routes the channels from index `from` on: insert the row, look up the control, publish. */
  function RouteChannels(st: Store, n: nat, note: Note, from: nat, left: nat): Pass
    requires from <= |note.channels|
    decreases |note.channels| - from
  {
    if from == |note.channels| then Pass(st, left, true)
    else if left == 0 then Pass(st, 0, false)
    else
      var st' := WithDelivery(st, n, note.channels[from]);
      if left <= 2 then Pass(st', 0, false)
      else RouteChannels(st'.(published := st'.published + [JobFor(n, note, st.nextId, note.channels[from])]), n, note, from + 1, left - 3)
  }

  function RouteJob(st: Store, j: nat, left: nat): Pass
    requires j in st.scheduled && st.scheduled[j].notification in st.notes
  {
    var n := st.scheduled[j].notification;
    var p := RouteChannels(st, n, st.notes[n], 0, left);
    if !p.ok then p
    else if p.left == 0 then Pass(p.st, 0, false)
    else Pass(p.st.(scheduled := p.st.scheduled[j := st.scheduled[j].(status := Routed)]), p.left - 1, true)
  }

  predicate Routable(st: Store, batch: seq<nat>) {
    forall i | 0 <= i < |batch| :: batch[i] in st.scheduled && st.scheduled[batch[i]].notification in st.notes
  }

  lemma {:induction false} RouteChannelsKeepsTables(st: Store, n: nat, note: Note, from: nat, left: nat)
    requires from <= |note.channels|
    ensures var p := RouteChannels(st, n, note, from, left); p.st.scheduled == st.scheduled && p.st.notes == st.notes
    decreases |note.channels| - from
  {
    if from < |note.channels| && left > 2 {
      var st' := WithDelivery(st, n, note.channels[from]);
      RouteChannelsKeepsTables(st'.(published := st'.published + [JobFor(n, note, st.nextId, note.channels[from])]), n, note, from + 1, left - 3);
    }
  }

  lemma RouteJobTables(st: Store, j: nat, left: nat)
    requires j in st.scheduled && st.scheduled[j].notification in st.notes
    ensures var p := RouteJob(st, j, left);
            p.st.notes == st.notes
            && p.st.scheduled == if p.ok then st.scheduled[j := st.scheduled[j].(status := Routed)] else st.scheduled
  {
    var n := st.scheduled[j].notification;
    RouteChannelsKeepsTables(st, n, st.notes[n], 0, left);
  }

  function RouteBatch(st: Store, batch: seq<nat>, left: nat): Pass
    requires Routable(st, batch)
    decreases |batch|
  {
    if batch == [] then Pass(st, left, true)
    else
      var p := RouteJob(st, batch[0], left);
      RouteJobTables(st, batch[0], left);
      if p.ok then RouteBatch(p.st, batch[1..], p.left) else p
  }

  // ---------- the service ----------

  class Service {
    var notes: map<nat, Note>
    var deliveries: map<nat, Delivery>
    var scheduled: map<nat, ScheduledJob>
    var published: seq<Publication>
    var nextId: nat

    ghost function View(): Store
      reads this
    {
      Store(notes, deliveries, scheduled, published, nextId)
    }

    /** `Send`: `checks[i]` tells whether feature, channel and rate limit admit the i-th channel. The
        transaction's rows only become visible at the commit, the published jobs stay whatever happens. */
    method Send(tenant: string, active: bool, req: Request, checks: seq<bool>, left: nat) returns (r: Outcome)
      requires |checks| == |req.channels|
      modifies this
      ensures (View(), r) == Sending(old(View()), tenant, active, req, checks, left)
    {
      if tenant == "" || req.channels == [] || !active {
        return Refused;
      }
      for i := 0 to |checks|
        invariant forall k | 0 <= k < i :: checks[k]
      {
        if !checks[i] {
          return Refused;
        }
      }
      if IsScheduled(req) && req.sendAt.None? {
        return Refused;
      }
      if left < 2 {                                   // begin, insert the notification
        return Refused;
      }
      var note := Note(tenant, req.channels, Payload(req.data, req.recipient));
      var n := nextId;
      nextId := nextId + 1;
      if IsScheduled(req) {
        nextId := nextId + 1;
        if left < 4 {                                 // insert the job, commit
          return Refused;
        }
        notes, scheduled := notes[n := note], scheduled[n + 1 := ScheduledJob(n, req.sendAt.value, Pending)];
        return Accepted(n);
      }
      var staged: map<nat, Delivery> := map[];
      for i := 0 to |req.channels|
        invariant nextId == n + 1 + i && left >= 2 + 3 * i
        invariant notes == old(notes) && deliveries == old(deliveries) && scheduled == old(scheduled)
        invariant published == old(published) + Jobs(n, note, 0, n + 1, i)
        invariant staged == Rows(n, note, n + 1, i)
      {
        if left < 3 + 3 * i {                         // insert the delivery row
          return Refused;
        }
        var delivery := nextId;
        nextId := nextId + 1;
        staged := staged[delivery := Delivery(n, req.channels[i])];
        if left < 5 + 3 * i {                         // look up the control, publish
          return Refused;
        }
        published := published + [JobFor(n, note, delivery, req.channels[i])];
      }
      if left < 3 + 3 * |req.channels| {              // commit
        return Refused;
      }
      notes, deliveries := notes[n := note], deliveries + staged;
      return Accepted(n);
    }

    /** Routes one due job: a row and a publication per channel, then its status. */
    method RouteOne(j: nat, left: nat) returns (ok: bool, rest: nat)
      requires j in scheduled && scheduled[j].notification in notes
      modifies this
      ensures var p := RouteJob(old(View()), j, left); View() == p.st && ok == p.ok && rest == p.left
    {
      var n := scheduled[j].notification;
      var note := notes[n];
      ghost var start := View();
      rest := left;
      for c := 0 to |note.channels|
        invariant notes == start.notes && scheduled == start.scheduled
        invariant RouteChannels(start, n, note, 0, left) == RouteChannels(View(), n, note, c, rest)
      {
        if rest == 0 {
          return false, 0;
        }
        var delivery := nextId;
        deliveries := deliveries[delivery := Delivery(n, note.channels[c])];
        nextId := nextId + 1;
        if rest <= 2 {
          return false, 0;
        }
        published := published + [JobFor(n, note, delivery, note.channels[c])];
        rest := rest - 3;
      }
      if rest == 0 {
        return false, 0;
      }
      scheduled := scheduled[j := scheduled[j].(status := Routed)];
      return true, rest - 1;
    }

    /** `RouteDueScheduled` on the batch its query returned; `left` operations succeed before the first failure. */
    method RouteDueScheduled(now: int, batch: seq<nat>, left: nat) returns (ok: bool)
      requires UnusedIds(View()) && IsBatch(PendingJobs(View()), now, batch)
      modifies this
      ensures Routable(old(View()), batch)
      ensures var p := RouteBatch(old(View()), batch, left); View() == p.st && ok == p.ok
    {
      hide RouteJob;
      ghost var start := View();
      assert batch[0..] == batch;
      var rest := left;
      for i := 0 to |batch|
        invariant notes == start.notes && Routable(start, batch) && Routable(View(), batch[i..])
        invariant RouteBatch(start, batch, left) == RouteBatch(View(), batch[i..], rest)
        invariant forall k | i <= k < |batch| :: batch[k] in scheduled && scheduled[batch[k]] == start.scheduled[batch[k]]
      {
        assert batch[i..][0] == batch[i] && batch[i..][1..] == batch[i + 1..];
        RouteJobTables(View(), batch[i], rest);
        ok, rest := RouteOne(batch[i], rest);
        if !ok {
          return;
        }
      }
      ok := true;
    }
  }
}
