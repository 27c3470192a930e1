/** Guarantees of accepting and scheduling notifications, whatever fails on the way. */
module NotificationTheorems {
  import opened Common
  import opened Notifications
  import Pipeline
  import Text

  // ---------- Send ----------

  /** What `Send` has published, all of it under ids that were unused before. */
  function Added(st: Store, tenant: string, active: bool, req: Request, checks: seq<bool>, left: nat): seq<Publication> {
    if !Admitted(tenant, active, req, checks) || left < 2 || IsScheduled(req) then []
    else Jobs(st.nextId, NoteFor(tenant, req), 0, st.nextId + 1, Min(|req.channels|, (left - 2) / 3))
  }

  lemma AddedJobs(st: Store, tenant: string, active: bool, req: Request, checks: seq<bool>, left: nat)
    ensures var added := Added(st, tenant, active, req, checks, left);
            |added| <= |req.channels| && forall i | 0 <= i < |added| ::
              added[i].delivery == st.nextId + 1 + i && added[i].notification == st.nextId && added[i].channel == req.channels[i]
  {
    hide Admitted, IsScheduled;
    var added := Added(st, tenant, active, req, checks, left);
    forall i | 0 <= i < |added|
      ensures added[i].delivery == st.nextId + 1 + i && added[i].notification == st.nextId && added[i].channel == req.channels[i]
    {
      assert added[i] == JobFor(st.nextId, NoteFor(tenant, req), st.nextId + 1 + i, req.channels[0 + i]);
    }
  }

  lemma JobsBelow(published: seq<Publication>, n: nat, note: Note, first: nat, count: nat, next: nat)
    requires count <= |note.channels| && PublishedBelow(published, first) && n < first && first + count <= next
    ensures PublishedBelow(published + Jobs(n, note, 0, first, count), next)
  {
    var jobs := Jobs(n, note, 0, first, count);
    assert forall i | 0 <= i < count :: jobs[i] == JobFor(n, note, first + i, note.channels[i]);
  }

  lemma RowsBelow(deliveries: map<nat, Delivery>, n: nat, note: Note, first: nat, count: nat)
    requires count <= |note.channels| && DeliveriesBelow(deliveries, first) && n < first
    ensures var all := deliveries + Rows(n, note, first, count);
            && DeliveriesBelow(all, first + count)
            && (forall k | k in deliveries :: k in all && all[k] == deliveries[k])
            && forall k: nat :: k in all <==> k in deliveries || first <= k < first + count
  {
    hide Rows;
    RowsDomain(n, note, first, count);
  }

  lemma InstantKeepsIds(st: Store, note: Note, left: nat)
    requires UnusedIds(st) && left >= 2
    ensures UnusedIds(SendInstant(st, note, left).0)
    ensures forall k | k in st.deliveries :: k in SendInstant(st, note, left).0.deliveries && SendInstant(st, note, left).0.deliveries[k] == st.deliveries[k]
  {
    hide DeliveriesBelow, PublishedBelow, Rows, Jobs;
    var n := st.nextId;
    var st' := SendInstant(st, note, left).0;
    BelowGrows(st.deliveries, n, n + 1);
    PublishedBelowGrows(st.published, n, n + 1);
    JobsBelow(st.published, n, note, n + 1, Min(|note.channels|, (left - 2) / 3), st'.nextId);
    RowsBelow(st.deliveries, n, note, n + 1, |note.channels|);
    BelowGrows(st.deliveries, n + 1, st'.nextId);
  }

  lemma PublishedBelowGrows(published: seq<Publication>, next: nat, next': nat)
    requires PublishedBelow(published, next) && next <= next'
    ensures PublishedBelow(published, next')
  {
  }

  /** Ids below one bound are below every larger one. */
  lemma BelowGrows(deliveries: map<nat, Delivery>, next: nat, next': nat)
    requires DeliveriesBelow(deliveries, next) && next <= next'
    ensures DeliveriesBelow(deliveries, next')
  {
  }

  lemma SendKeepsIds(st: Store, tenant: string, active: bool, req: Request, checks: seq<bool>, left: nat)
    requires UnusedIds(st)
    ensures var st' := Sending(st, tenant, active, req, checks, left).0;
            && UnusedIds(st') && st'.published == st.published + Added(st, tenant, active, req, checks, left)
            && (forall k | k in st.deliveries :: k in st'.deliveries && st'.deliveries[k] == st.deliveries[k])
  {
    if Admitted(tenant, active, req, checks) && left >= 2 && !IsScheduled(req) {
      InstantKeepsIds(st, NoteFor(tenant, req), left);
    }
  }

  /** A request, instant or scheduled, is accepted exactly when an active tenant names at least one channel, all
      checks pass, the time of a scheduled one is well formed, and every operation of its transaction succeeds:
      four for a scheduled one, three and three per channel for an instant one. */
  lemma SendAcceptsIff(st: Store, tenant: string, active: bool, req: Request, checks: seq<bool>, left: nat)
    ensures var scheduled := Text.Lower(req.scheduleType) == "scheduled";
            Sending(st, tenant, active, req, checks, left).1.Accepted? <==>
              && tenant != "" && active && |req.channels| > 0 && false !in checks && (scheduled ==> req.sendAt.Some?)
              && left >= if scheduled then 4 else 3 + 3 * |req.channels|
  {
  }

  /** A refused request leaves no row. What it published stays: a job for each channel whose publish came before the
      operation that failed, none of them with a delivery row. */
  lemma RefusedSendLeavesNoRow(st: Store, tenant: string, active: bool, req: Request, checks: seq<bool>, left: nat)
    requires UnusedIds(st) && Sending(st, tenant, active, req, checks, left).1.Refused?
    ensures var st' := Sending(st, tenant, active, req, checks, left).0; var before := |st.published|;
            && st'.notes == st.notes && st'.deliveries == st.deliveries && st'.scheduled == st.scheduled
            && before <= |st'.published| <= before + |req.channels| && st'.published[..before] == st.published
            && (forall i | before <= i < |st'.published| ::
                  st'.published[i].delivery !in st'.deliveries && st'.published[i].channel == req.channels[i - before])
            && (Admitted(tenant, active, req, checks) && !IsScheduled(req) && left >= 2 ==>
                  var k := |st'.published| - before; 2 + 3 * k <= left && (k < |req.channels| ==> left < 5 + 3 * k))
  {
    var added := Added(st, tenant, active, req, checks, left);
    SendKeepsIds(st, tenant, active, req, checks, left);
    AddedJobs(st, tenant, active, req, checks, left);
  }

  /** The request's note: its tenant and channels, and the data with the recipient's fields in place of those of
      the same name. */
  ghost predicate IsNoteOf(note: Note, tenant: string, req: Request) {
    && note.tenant == tenant && note.channels == req.channels
    && (forall k :: k in note.payload <==> k in req.data || k in req.recipient)
    && (forall k <- req.recipient :: note.payload[k] == req.recipient[k])
    && (forall k <- req.data | k !in req.recipient :: note.payload[k] == req.data[k])
  }

  /** An accepted instant request has one committed row and one published job per channel entry, in order. */
  lemma AcceptedSendPublishesEachChannel(st: Store, tenant: string, active: bool, req: Request, checks: seq<bool>, left: nat)
    requires UnusedIds(st) && Sending(st, tenant, active, req, checks, left).1.Accepted? && !IsScheduled(req)
    ensures var (st', r) := Sending(st, tenant, active, req, checks, left); var n := r.notification; var before := |st.published|;
            && n !in st.notes && n in st'.notes && st'.notes == st.notes[n := st'.notes[n]] && IsNoteOf(st'.notes[n], tenant, req)
            && st'.scheduled == st.scheduled && st.published <= st'.published
            && |st'.published| == before + |req.channels|
            && (forall k: nat :: k in st'.deliveries <==> k in st.deliveries || n + 1 <= k < n + 1 + |req.channels|)
            && forall i | 0 <= i < |req.channels| ::
                 var p := st'.published[before + i];
                 p.delivery == n + 1 + i && p.delivery !in st.deliveries && Published(st', n, p, req.channels[i], st'.notes[n])
  {
    FreshIds(st);
    SendAcceptsIff(st, tenant, active, req, checks, left);
    assert Sending(st, tenant, active, req, checks, left) == SendInstant(st, NoteFor(tenant, req), left);
    hide Sending, Admitted, IsScheduled, SendInstant, JobFor, Published, NotesBelow, ScheduledBelow, PublishedBelow;
    InstantTables(st, NoteFor(tenant, req), left);
    InstantRows(st, NoteFor(tenant, req), left);
    forall i | 0 <= i < |req.channels| {
      InstantPublishes(st, NoteFor(tenant, req), left, i);
    }
  }

  predicate HasRow(deliveries: map<nat, Delivery>, p: Publication, n: nat, channel: string) {
    p.delivery in deliveries && deliveries[p.delivery] == Delivery(n, channel)
  }

  /** Jobs and rows made under the same ids belong together. */
  lemma JobsHaveRows(deliveries: map<nat, Delivery>, n: nat, note: Note, first: nat, i: nat)
    requires DeliveriesBelow(deliveries, first) && i < |note.channels|
    ensures var p := Jobs(n, note, 0, first, |note.channels|)[i];
            p == JobFor(n, note, first + i, note.channels[i]) && p.delivery !in deliveries
            && HasRow(deliveries + Rows(n, note, first, |note.channels|), p, n, note.channels[i])
  {
    hide Rows;
    RowAt(n, note, first, |note.channels|, i);
  }

  lemma {:induction false} RowAt(n: nat, note: Note, first: nat, count: nat, i: nat)
    requires i < count <= |note.channels|
    ensures first + i in Rows(n, note, first, count) && Rows(n, note, first, count)[first + i] == Delivery(n, note.channels[i])
  {
    if i < count - 1 {
      RowAt(n, note, first, count - 1, i);
    }
  }

  lemma InstantRows(st: Store, note: Note, left: nat)
    requires left >= 3 + 3 * |note.channels| && DeliveriesBelow(st.deliveries, st.nextId)
    ensures forall k: nat :: k in SendInstant(st, note, left).0.deliveries <==>
              k in st.deliveries || st.nextId + 1 <= k < st.nextId + 1 + |note.channels|
  {
    hide Rows, Jobs;
    BelowGrows(st.deliveries, st.nextId, st.nextId + 1);
    hide DeliveriesBelow;
    RowsBelow(st.deliveries, st.nextId, note, st.nextId + 1, |note.channels|);
  }

  lemma InstantTables(st: Store, note: Note, left: nat)
    requires left >= 3 + 3 * |note.channels|
    ensures var (st', r) := SendInstant(st, note, left);
            r == Accepted(st.nextId) && st'.notes == st.notes[st.nextId := note] && st'.scheduled == st.scheduled
            && st.published <= st'.published && |st'.published| == |st.published| + |note.channels|
  {
    hide Rows;
  }

  lemma InstantPublishes(st: Store, note: Note, left: nat, i: nat)
    requires left >= 3 + 3 * |note.channels| && DeliveriesBelow(st.deliveries, st.nextId) && i < |note.channels|
    ensures var st' := SendInstant(st, note, left).0; var n := st.nextId; var before := |st.published|;
            && |st'.published| == before + |note.channels|
            && (var p := st'.published[before + i];
                p == JobFor(n, note, n + 1 + i, note.channels[i]) && p.delivery !in st.deliveries && Published(st', n, p, note.channels[i], note))
  {
    hide Rows, Jobs;
    var n, all := st.nextId, |note.channels|;
    BelowGrows(st.deliveries, n, n + 1);
    hide DeliveriesBelow;
    assert Min(all, (left - 2) / 3) == all;
    JobsHaveRows(st.deliveries, n, note, n + 1, i);
    var jobs := Jobs(n, note, 0, n + 1, all);
    assert SendInstant(st, note, left).0.published == st.published + jobs;
    assert (st.published + jobs)[|st.published| + i] == jobs[i];
  }

  lemma FreshIds(st: Store)
    requires UnusedIds(st)
    ensures forall k | st.nextId <= k :: k !in st.notes && k !in st.deliveries && k !in st.scheduled
  {
  }

  /** An accepted scheduled request leaves a pending job and has published nothing. */
  lemma AcceptedScheduledSendPublishesNothing(st: Store, tenant: string, active: bool, req: Request, checks: seq<bool>, left: nat)
    requires UnusedIds(st) && Sending(st, tenant, active, req, checks, left).1.Accepted? && IsScheduled(req)
    ensures var (st', r) := Sending(st, tenant, active, req, checks, left); var n := r.notification;
            && n !in st.notes && n in st'.notes && st'.notes == st.notes[n := st'.notes[n]] && IsNoteOf(st'.notes[n], tenant, req)
            && st'.published == st.published && st'.deliveries == st.deliveries && n + 1 !in st.scheduled
            && req.sendAt.Some? && st'.scheduled == st.scheduled[n + 1 := ScheduledJob(n, req.sendAt.value, Pending)]
  {
    FreshIds(st);
  }

  // ---------- what a routed job leaves behind ----------

  /** The publications of one notification, in order. */
  function OfNote(published: seq<Publication>, n: nat): seq<Publication> {
    if published == [] then []
    else OfNote(published[..|published| - 1], n) +
         if published[|published| - 1].notification == n then [published[|published| - 1]] else []
  }

  lemma {:induction false} OfNoteConcat(a: seq<Publication>, b: seq<Publication>, n: nat)
    ensures OfNote(a + b, n) == OfNote(a, n) + OfNote(b, n)
  {
    if b == [] {
      assert a + b == a;
    } else {
      var k := |b| - 1;
      OfNoteConcat(a, b[..k], n);
      assert (a + b)[..|a + b| - 1] == a + b[..k];
    }
  }

  lemma {:induction false} OfNoteUniform(b: seq<Publication>, n: nat, m: nat)
    requires forall i | 0 <= i < |b| :: b[i].notification == m
    ensures OfNote(b, n) == if n == m then b else []
  {
    if b != [] {
      OfNoteUniform(b[..|b| - 1], n, m);
    }
  }

  /** A job for that channel of the note, in the queue whose worker serves it, with its delivery row. */
  predicate Published(st: Store, n: nat, p: Publication, channel: string, note: Note) {
    && p.notification == n && p.channel == channel && p.payload == note.payload && Pipeline.Serves(p.queue, channel)
    && p.delivery in st.deliveries && st.deliveries[p.delivery].notification == n && st.deliveries[p.delivery].channel == channel
  }

  /** The last publications of the notification are its channel list in order, each with its row. */
  predicate Complete(st: Store, n: nat, note: Note) {
    var mine := OfNote(st.published, n);
    && |mine| >= |note.channels|
    && forall i | 0 <= i < |note.channels| :: Published(st, n, mine[|mine| - |note.channels| + i], note.channels[i], note)
  }

  ghost predicate SchedulerInv(st: Store) {
    && UnusedIds(st)
    && (forall i, j | i in st.scheduled && j in st.scheduled && i != j :: st.scheduled[i].notification != st.scheduled[j].notification)
    && (forall j | j in st.scheduled && st.scheduled[j].status == Routed ::
          Complete(st, st.scheduled[j].notification, st.notes[st.scheduled[j].notification]))
  }

  /** A pass over the channels publishes a prefix of them in order, the whole list when nothing fails. */
  lemma {:induction false} RouteChannelsPublishes(st: Store, n: nat, note: Note, from: nat, left: nat) returns (count: nat)
    requires from <= |note.channels|
    ensures from + count <= |note.channels| && count == Min(|note.channels| - from, left / 3)
    ensures var p := RouteChannels(st, n, note, from, left);
            && st.nextId + count <= p.st.nextId
            && p.st.published == st.published + Jobs(n, note, from, st.nextId, count)
            && (p.ok ==> from + count == |note.channels| && p.st.nextId == st.nextId + count)
    decreases |note.channels| - from
  {
    count := 0;
    if from < |note.channels| && left > 2 {
      var st1 := WithDelivery(st, n, note.channels[from]);
      var job := JobFor(n, note, st.nextId, note.channels[from]);
      var st2 := st1.(published := st1.published + [job]);
      var rest := RouteChannelsPublishes(st2, n, note, from + 1, left - 3);
      count := rest + 1;
      assert Jobs(n, note, from, st.nextId, count) == [job] + Jobs(n, note, from + 1, st2.nextId, rest);
    }
  }

  /** It only adds rows, under consecutive unused ids: one per channel in order. */
  lemma {:induction false} RouteChannelsAddsRows(st: Store, n: nat, note: Note, from: nat, left: nat)
    requires from <= |note.channels| && DeliveriesBelow(st.deliveries, st.nextId) && n < st.nextId
    ensures var p := RouteChannels(st, n, note, from, left).st;
            && DeliveriesBelow(p.deliveries, p.nextId) && p.nextId == st.nextId + Min(|note.channels| - from, (left + 2) / 3)
            && (forall k: nat :: k in p.deliveries <==> k in st.deliveries || st.nextId <= k < p.nextId)
            && (forall k | k in st.deliveries :: p.deliveries[k] == st.deliveries[k])
            && (forall k | st.nextId <= k < p.nextId :: p.deliveries[k] == Delivery(n, note.channels[from + (k - st.nextId)]))
    decreases |note.channels| - from
  {
    if from < |note.channels| && left > 2 {
      var st1 := WithDelivery(st, n, note.channels[from]);
      var st2 := st1.(published := st1.published + [JobFor(n, note, st.nextId, note.channels[from])]);
      RouteChannelsAddsRows(st2, n, note, from + 1, left - 3);
    }
  }

  lemma CompleteSurvives(st: Store, st': Store, n: nat, note: Note, added: seq<Publication>, m: nat)
    requires Complete(st, n, note) && st'.published == st.published + added && n != m
    requires forall i | 0 <= i < |added| :: added[i].notification == m
    requires forall k | k in st.deliveries :: k in st'.deliveries && st'.deliveries[k] == st.deliveries[k]
    ensures Complete(st', n, note)
  {
    OfNoteConcat(st.published, added, n);
    OfNoteUniform(added, n, m);
  }

  lemma BelowStays(st: Store, next: nat)
    requires NotesBelow(st.notes, st.nextId) && ScheduledBelow(st.scheduled, st.notes, st.nextId) && st.nextId <= next
    ensures NotesBelow(st.notes, next) && ScheduledBelow(st.scheduled, st.notes, next)
    ensures forall j | j in st.scheduled :: ScheduledBelow(st.scheduled[j := st.scheduled[j].(status := Routed)], st.notes, next)
  {
  }

  /** Routing the channels of a note that is already stored only adds publications of that note. */
  lemma ChannelsAdd(st: Store, n: nat, left: nat) returns (count: nat)
    requires UnusedIds(st) && n in st.notes
    ensures count == Min(|st.notes[n].channels|, left / 3)
    ensures var note := st.notes[n]; var p := RouteChannels(st, n, note, 0, left);
            && PublishedBelow(p.st.published, p.st.nextId) && DeliveriesBelow(p.st.deliveries, p.st.nextId) && st.nextId <= p.st.nextId
            && p.st.published == st.published + Jobs(n, note, 0, st.nextId, count)
            && (forall k | k in st.deliveries :: k in p.st.deliveries && p.st.deliveries[k] == st.deliveries[k])
            && (p.ok ==> count == |note.channels| && p.st.nextId == st.nextId + count)
  {
    hide RouteChannels, ScheduledBelow, Jobs;
    count := RouteChannelsPublishes(st, n, st.notes[n], 0, left);
    RouteChannelsAddsRows(st, n, st.notes[n], 0, left);
    JobsBelow(st.published, n, st.notes[n], st.nextId, count, RouteChannels(st, n, st.notes[n], 0, left).st.nextId);
  }

  /** When nothing fails there is exactly one row per channel entry, the one its publication names. */
  lemma ChannelsAllRouted(st: Store, n: nat, note: Note, left: nat)
    requires DeliveriesBelow(st.deliveries, st.nextId) && n < st.nextId && RouteChannels(st, n, note, 0, left).ok
    ensures var p := RouteChannels(st, n, note, 0, left);
            && (forall k: nat :: k in p.st.deliveries <==> k in st.deliveries || st.nextId <= k < st.nextId + |note.channels|)
            && forall i | 0 <= i < |note.channels| ::
                 var job := Jobs(n, note, 0, st.nextId, |note.channels|)[i];
                 job.delivery == st.nextId + i && Published(p.st, n, job, note.channels[i], note)
  {
    hide RouteChannels;
    var count := RouteChannelsPublishes(st, n, note, 0, left);
    RouteChannelsAddsRows(st, n, note, 0, left);
    forall i | 0 <= i < |note.channels|
      ensures var job := Jobs(n, note, 0, st.nextId, |note.channels|)[i];
              job.delivery == st.nextId + i && Published(RouteChannels(st, n, note, 0, left).st, n, job, note.channels[i], note)
    {
      assert Jobs(n, note, 0, st.nextId, |note.channels|)[i] == JobFor(n, note, st.nextId + i, note.channels[0 + i]);
      assert RouteChannels(st, n, note, 0, left).st.deliveries[st.nextId + i] == Delivery(n, note.channels[0 + (st.nextId + i - st.nextId)]);
    }
  }

  /** A job for one of the note's channels, with its payload, in the queue whose worker serves that channel. */
  predicate IsJobOf(p: Publication, note: Note) {
    Pipeline.Serves(p.queue, p.channel) && p.channel in note.channels && p.payload == note.payload
  }

  /** What routing one job adds: publications of its own notification; when nothing fails, exactly one
      publication and one row per channel entry. */
  lemma RouteJobAdds(st: Store, j: nat, left: nat) returns (added: seq<Publication>)
    requires UnusedIds(st) && j in st.scheduled
    ensures var p := RouteJob(st, j, left); var n := st.scheduled[j].notification; var note := st.notes[n];
            && UnusedIds(p.st) && p.st.published == st.published + added
            && |added| == Min(|note.channels|, left / 3)
            && (forall i | 0 <= i < |added| ::
                  added[i].notification == n && added[i].channel == note.channels[i] && IsJobOf(added[i], note))
            && (forall k | k in st.deliveries :: k in p.st.deliveries && p.st.deliveries[k] == st.deliveries[k])
            && (p.ok ==> |added| == |note.channels| && p.st.nextId == st.nextId + |added|
                         && (forall k: nat :: k in p.st.deliveries <==> k in st.deliveries || st.nextId <= k < st.nextId + |note.channels|)
                         && forall i | 0 <= i < |added| :: added[i].delivery == st.nextId + i && Published(p.st, n, added[i], note.channels[i], note))
  {
    hide RouteChannels, PublishedBelow, NotesBelow, DeliveriesBelow;
    var n := st.scheduled[j].notification;
    NotesAreUsed(st, n);
    var count := ChannelsAdd(st, n, left);
    added := Jobs(n, st.notes[n], 0, st.nextId, count);
    assert forall i | 0 <= i < |added| :: added[i] == JobFor(n, st.notes[n], st.nextId + i, st.notes[n].channels[i]);
    if RouteChannels(st, n, st.notes[n], 0, left).ok {
      ChannelsAllRouted(st, n, st.notes[n], left);
    }
    RouteChannelsKeepsTables(st, n, st.notes[n], 0, left);
    BelowStays(st, RouteChannels(st, n, st.notes[n], 0, left).st.nextId);
  }

  lemma NotesAreUsed(st: Store, n: nat)
    requires NotesBelow(st.notes, st.nextId)
    ensures n in st.notes ==> n < st.nextId
  {
  }

  /** A job routed without failure is complete, and has gained one publication per channel entry. */
  lemma RoutedIsComplete(st: Store, j: nat, left: nat)
    requires UnusedIds(st) && j in st.scheduled && RouteJob(st, j, left).ok
    ensures var st' := RouteJob(st, j, left).st; var n := st.scheduled[j].notification; var note := st.notes[n];
            Complete(st', n, note) && |OfNote(st'.published, n)| == |OfNote(st.published, n)| + |note.channels|
  {
    hide RouteJob, UnusedIds;
    var n := st.scheduled[j].notification;
    var added := RouteJobAdds(st, j, left);
    OfNoteConcat(st.published, added, n);
    OfNoteUniform(added, n, n);
  }

  lemma RouteJobKeepsInv(st: Store, j: nat, left: nat)
    requires SchedulerInv(st) && j in st.scheduled && st.scheduled[j].status == Pending
    ensures SchedulerInv(RouteJob(st, j, left).st)
  {
    hide RouteJob, UnusedIds, Complete;
    BelongsToNote(st);
    var n := st.scheduled[j].notification;
    var added := RouteJobAdds(st, j, left);
    RouteJobTables(st, j, left);
    var p := RouteJob(st, j, left);
    forall i | i in p.st.scheduled && p.st.scheduled[i].status == Routed
      ensures Complete(p.st, p.st.scheduled[i].notification, p.st.notes[p.st.scheduled[i].notification])
    {
      if i != j {
        CompleteSurvives(st, p.st, st.scheduled[i].notification, st.notes[st.scheduled[i].notification], added, n);
      } else {
        RoutedIsComplete(st, j, left);
      }
    }
  }

  lemma BelongsToNote(st: Store)
    requires UnusedIds(st)
    ensures forall j | j in st.scheduled :: st.scheduled[j].notification in st.notes && st.scheduled[j].notification < st.nextId
  {
  }

  lemma {:induction false} RouteBatchKeepsInv(st: Store, batch: seq<nat>, left: nat)
    requires SchedulerInv(st) && Routable(st, batch)
    requires forall i | 0 <= i < |batch| :: st.scheduled[batch[i]].status == Pending
    requires forall i, j | 0 <= i < j < |batch| :: batch[i] != batch[j]
    ensures SchedulerInv(RouteBatch(st, batch, left).st)
    decreases |batch|
  {
    if batch != [] {
      RouteJobKeepsInv(st, batch[0], left);
      RouteJobTables(st, batch[0], left);
      var p := RouteJob(st, batch[0], left);
      if p.ok {
        RouteBatchKeepsInv(p.st, batch[1..], p.left);
      }
    }
  }

  lemma SendKeepsInv(st: Store, tenant: string, active: bool, req: Request, checks: seq<bool>, left: nat)
    requires SchedulerInv(st)
    ensures SchedulerInv(Sending(st, tenant, active, req, checks, left).0)
  {
    hide Complete, UnusedIds, Admitted, IsScheduled, Rows, Jobs;
    var added := Added(st, tenant, active, req, checks, left);
    SendKeepsIds(st, tenant, active, req, checks, left);
    AddedJobs(st, tenant, active, req, checks, left);
    FreshIds(st);
    BelongsToNote(st);
    var st' := Sending(st, tenant, active, req, checks, left).0;
    forall j | j in st'.scheduled && st'.scheduled[j].status == Routed
      ensures Complete(st', st'.scheduled[j].notification, st'.notes[st'.scheduled[j].notification])
    {
      CompleteSurvives(st, st', st.scheduled[j].notification, st.notes[st.scheduled[j].notification], added, st.nextId);
    }
  }

  // ---------- every history of requests and scheduler passes ----------

  datatype Event =
    | Request(tenant: string, active: bool, req: Notifications.Request, checks: seq<bool>, left: nat)
    | SchedulerPass(now: int, batch: seq<nat>, left: nat)

  const EMPTY := Store(map[], map[], map[], [], 0)

  ghost predicate Possible(st: Store, e: Event) {
    e.SchedulerPass? ==> Routable(st, e.batch) && IsBatch(PendingJobs(st), e.now, e.batch)
  }

  ghost function After(st: Store, e: Event): Store
    requires Possible(st, e)
  {
    match e
    case Request(tenant, active, req, checks, left) => Sending(st, tenant, active, req, checks, left).0
    case SchedulerPass(_, batch, left) => RouteBatch(st, batch, left).st
  }

  ghost predicate PossibleHistory(st: Store, events: seq<Event>)
    decreases |events|
  {
    events == [] || (Possible(st, events[0]) && PossibleHistory(After(st, events[0]), events[1..]))
  }

  ghost function History(st: Store, events: seq<Event>): Store
    requires PossibleHistory(st, events)
    decreases |events|
  {
    if events == [] then st else History(After(st, events[0]), events[1..])
  }

  lemma {:induction false} HistoryKeepsInv(st: Store, events: seq<Event>)
    requires SchedulerInv(st) && PossibleHistory(st, events)
    ensures SchedulerInv(History(st, events))
    decreases |events|
  {
    if events != [] {
      match events[0] {
        case Request(tenant, active, req, checks, left) => SendKeepsInv(st, tenant, active, req, checks, left);
        case SchedulerPass(_, batch, left) => RouteBatchKeepsInv(st, batch, left);
      }
      HistoryKeepsInv(After(st, events[0]), events[1..]);
    }
  }

  /** Whatever failed in whatever pass, a job is only marked routed once every listed channel has a
      delivery row and a published job. */
  lemma RoutedMeansPublished(events: seq<Event>, j: nat)
    requires PossibleHistory(EMPTY, events)
    requires j in History(EMPTY, events).scheduled && History(EMPTY, events).scheduled[j].status == Routed
    ensures var st := History(EMPTY, events); var n := st.scheduled[j].notification;
            n in st.notes && Complete(st, n, st.notes[n])
  {
    HistoryKeepsInv(EMPTY, events);
  }

  // ---------- every job reaches the worker of its channel ----------

  /** Each publication so far is in a queue that serves its channel, and fits the note it belongs to, if that was
      committed. */
  ghost predicate AllServed(st: Store) {
    forall i | 0 <= i < |st.published| ::
      var p := st.published[i];
      Pipeline.Serves(p.queue, p.channel) && (p.notification in st.notes ==> IsJobOf(p, st.notes[p.notification]))
  }

  lemma AddedAreJobs(st: Store, tenant: string, active: bool, req: Request, checks: seq<bool>, left: nat)
    ensures var added := Added(st, tenant, active, req, checks, left);
            forall i | 0 <= i < |added| :: IsJobOf(added[i], NoteFor(tenant, req))
  {
    hide Admitted, IsScheduled;
    var added := Added(st, tenant, active, req, checks, left);
    forall i | 0 <= i < |added| ensures IsJobOf(added[i], NoteFor(tenant, req)) {
      assert added[i] == JobFor(st.nextId, NoteFor(tenant, req), st.nextId + 1 + i, req.channels[0 + i]);
    }
  }

  lemma SendKeepsServed(st: Store, tenant: string, active: bool, req: Request, checks: seq<bool>, left: nat)
    requires UnusedIds(st) && AllServed(st)
    ensures AllServed(Sending(st, tenant, active, req, checks, left).0)
  {
    hide Admitted, IsScheduled, Rows, IsJobOf;
    var st' := Sending(st, tenant, active, req, checks, left).0;
    var added := Added(st, tenant, active, req, checks, left);
    SendKeepsIds(st, tenant, active, req, checks, left);
    AddedJobs(st, tenant, active, req, checks, left);
    AddedAreJobs(st, tenant, active, req, checks, left);
    FreshIds(st);
    assert st'.notes == st.notes || st'.notes == st.notes[st.nextId := NoteFor(tenant, req)];
    assert st'.published == st.published + added;
    hide Sending, Added;
    forall i | 0 <= i < |st'.published|
      ensures var p := st'.published[i];
              Pipeline.Serves(p.queue, p.channel) && (p.notification in st'.notes ==> IsJobOf(p, st'.notes[p.notification]))
    {
      if i < |st.published| {
        assert st'.published[i] == st.published[i] && st.published[i].notification < st.nextId;
      } else {
        assert st'.published[i] == added[i - |st.published|];
        JobIsServed(st'.published[i], NoteFor(tenant, req));
      }
    }
  }

  lemma JobIsServed(p: Publication, note: Note)
    requires IsJobOf(p, note)
    ensures Pipeline.Serves(p.queue, p.channel)
  {
  }

  lemma {:induction false} PassKeepsServed(st: Store, batch: seq<nat>, left: nat)
    requires UnusedIds(st) && Routable(st, batch) && AllServed(st)
    ensures AllServed(RouteBatch(st, batch, left).st)
    decreases |batch|
  {
    if batch != [] {
      hide RouteJob, UnusedIds;
      var p := RouteJob(st, batch[0], left);
      var added := RouteJobAdds(st, batch[0], left);
      RouteJobTables(st, batch[0], left);
      assert AllServed(p.st);
      if p.ok {
        PassKeepsServed(p.st, batch[1..], p.left);
      }
    }
  }

  lemma {:induction false} HistoryKeepsServed(st: Store, events: seq<Event>)
    requires SchedulerInv(st) && PossibleHistory(st, events) && AllServed(st)
    ensures AllServed(History(st, events))
    decreases |events|
  {
    hide SchedulerInv, AllServed, UnusedIds, Sending, RouteBatch;
    if events != [] {
      StepKeepsSchedulerInv(st, events[0]);
      match events[0] {
        case Request(tenant, active, req, checks, left) => SendKeepsServed(st, tenant, active, req, checks, left);
        case SchedulerPass(_, batch, left) => PassKeepsServed(st, batch, left);
      }
      HistoryKeepsServed(After(st, events[0]), events[1..]);
    }
  }

  /** Over every history, whatever failed in it: each published job is in the queue whose worker serves its
      channel, and if its notification was committed, the channel is one of those listed and the payload is its own. */
  lemma EveryPublicationIsServed(events: seq<Event>, i: nat)
    requires PossibleHistory(EMPTY, events) && i < |History(EMPTY, events).published|
    ensures var st := History(EMPTY, events); var p := st.published[i];
            && Pipeline.Serves(p.queue, p.channel)
            && (p.notification in st.notes ==>
                  p.channel in st.notes[p.notification].channels && p.payload == st.notes[p.notification].payload)
  {
    HistoryKeepsServed(EMPTY, events);
  }

  // ---------- when a pass succeeds ----------

  /** Operations a pass over the batch needs: three per channel entry and one per job. */
  function Needs(st: Store, batch: seq<nat>): nat
    requires Routable(st, batch)
  {
    if batch == [] then 0
    else 3 * |st.notes[st.scheduled[batch[0]].notification].channels| + 1 + Needs(st, batch[1..])
  }

  lemma {:induction false} ChannelsSucceedIff(st: Store, n: nat, note: Note, from: nat, left: nat)
    requires from <= |note.channels|
    ensures var p := RouteChannels(st, n, note, from, left); var needed := 3 * (|note.channels| - from);
            (p.ok <==> left >= needed) && (p.ok ==> p.left == left - needed)
    decreases |note.channels| - from
  {
    if from < |note.channels| && left > 2 {
      var st1 := WithDelivery(st, n, note.channels[from]);
      var st2 := st1.(published := st1.published + [JobFor(n, note, st.nextId, note.channels[from])]);
      ChannelsSucceedIff(st2, n, note, from + 1, left - 3);
    }
  }

  /** A pass succeeds exactly when none of its operations fails. */
  lemma {:induction false} PassSucceedsIff(st: Store, batch: seq<nat>, left: nat)
    requires Routable(st, batch)
    ensures RouteBatch(st, batch, left).ok <==> left >= Needs(st, batch)
    decreases |batch|
  {
    if batch != [] {
      hide RouteChannels;
      var n := st.scheduled[batch[0]].notification;
      ChannelsSucceedIff(st, n, st.notes[n], 0, left);
      RouteJobTables(st, batch[0], left);
      var p := RouteJob(st, batch[0], left);
      if p.ok {
        PassSucceedsIff(p.st, batch[1..], p.left);
        SameNeeds(st, p.st, batch[1..]);
      }
    }
  }

  lemma {:induction false} SameNeeds(st: Store, st': Store, batch: seq<nat>)
    requires Routable(st, batch) && Routable(st', batch) && st'.notes == st.notes
    requires forall j | j in st.scheduled && j in st'.scheduled :: st'.scheduled[j].notification == st.scheduled[j].notification
    ensures Needs(st', batch) == Needs(st, batch)
  {
    if batch != [] {
      SameNeeds(st, st', batch[1..]);
    }
  }

  /** Notification and channel of each publication. */
  function Tags(published: seq<Publication>): (tags: seq<(nat, string)>)
    ensures |tags| == |published| && forall i | 0 <= i < |tags| :: tags[i] == (published[i].notification, published[i].channel)
  {
    seq(|published|, i requires 0 <= i < |published| => (published[i].notification, published[i].channel))
  }

  function JobTags(st: Store, j: nat): (tags: seq<(nat, string)>)
    requires j in st.scheduled && st.scheduled[j].notification in st.notes
    ensures |tags| == |st.notes[st.scheduled[j].notification].channels|
  {
    var n := st.scheduled[j].notification;
    seq(|st.notes[n].channels|, i requires 0 <= i < |st.notes[n].channels| => (n, st.notes[n].channels[i]))
  }

  /** What a whole pass should publish: job by job, channel by channel. */
  function BatchTags(st: Store, batch: seq<nat>): seq<(nat, string)>
    requires Routable(st, batch)
  {
    if batch == [] then [] else JobTags(st, batch[0]) + BatchTags(st, batch[1..])
  }

  lemma {:induction false} SameTags(st: Store, st': Store, batch: seq<nat>)
    requires Routable(st, batch) && Routable(st', batch) && st'.notes == st.notes
    requires forall j | j in st.scheduled && j in st'.scheduled :: st'.scheduled[j].notification == st.scheduled[j].notification
    ensures BatchTags(st', batch) == BatchTags(st, batch)
  {
    if batch != [] {
      SameTags(st, st', batch[1..]);
    }
  }

  lemma JobPublishes(st: Store, j: nat, left: nat) returns (k: nat)
    requires UnusedIds(st) && j in st.scheduled
    ensures var p := RouteJob(st, j, left);
            && st.scheduled[j].notification in st.notes && UnusedIds(p.st)
            && k <= |JobTags(st, j)| && Tags(p.st.published) == Tags(st.published) + JobTags(st, j)[..k]
            && (p.ok ==> k == |JobTags(st, j)|)
  {
    BelongsToNote(st);
    hide RouteJob, UnusedIds, Published, IsJobOf;
    var added := RouteJobAdds(st, j, left);
    k := |added|;
  }

  lemma Prefixes<T>(s: seq<T>, first: seq<T>, rest: seq<T>, k: nat)
    requires k <= |first| + |rest|
    ensures k <= |first| ==> s + first[..k] == s + (first + rest)[..k]
    ensures k >= |first| ==> s + first[..|first|] + rest[..k - |first|] == s + (first + rest)[..k]
  {
    if k <= |first| {
      assert first[..k] == (first + rest)[..k];
    } else {
      assert first + rest[..k - |first|] == (first + rest)[..k];
    }
    assert first[..|first|] == first;
  }

  /** Whatever fails in it, a pass publishes the jobs of its batch one after the other, in the batch's order, and
      each job's channels in order, up to the place where it fails. */
  lemma {:induction false} PassPublishesInOrder(st: Store, batch: seq<nat>, left: nat) returns (k: nat)
    requires UnusedIds(st) && Routable(st, batch)
    ensures var p := RouteBatch(st, batch, left);
            && k <= |BatchTags(st, batch)| && Tags(p.st.published) == Tags(st.published) + BatchTags(st, batch)[..k]
            && (p.ok ==> k == |BatchTags(st, batch)|)
    decreases |batch|
  {
    k := 0;
    if batch != [] {
      hide RouteJob, UnusedIds, JobTags, Tags;
      k := JobPublishes(st, batch[0], left);
      RouteJobTables(st, batch[0], left);
      var p := RouteJob(st, batch[0], left);
      var first, rest := JobTags(st, batch[0]), BatchTags(st, batch[1..]);
      if p.ok {
        var more := PassPublishesInOrder(p.st, batch[1..], p.left);
        SameTags(st, p.st, batch[1..]);
        k := k + more;
        Prefixes(Tags(st.published), first, rest, k);
      } else {
        Prefixes(Tags(st.published), first, rest, k);
      }
    }
  }

  // ---------- due times and fairness ----------

  /** A pass only publishes for jobs that were pending and due. */
  lemma {:induction false} NothingIsRoutedEarly(st: Store, now: int, batch: seq<nat>, left: nat, i: nat)
    requires SchedulerInv(st) && Routable(st, batch)
    requires forall k | 0 <= k < |batch| :: IsDue(st, now, batch[k])
    requires forall k, l | 0 <= k < l < |batch| :: batch[k] != batch[l]
    requires |st.published| <= i < |RouteBatch(st, batch, left).st.published|
    ensures exists j | j in batch :: IsDue(st, now, j) && st.scheduled[j].notification == RouteBatch(st, batch, left).st.published[i].notification
    ensures st.published <= RouteBatch(st, batch, left).st.published
    decreases |batch|
  {
    if batch != [] {
      hide Complete;
      var p := RouteJob(st, batch[0], left);
      var added := RouteJobAdds(st, batch[0], left);
      RouteJobTables(st, batch[0], left);
      RouteJobKeepsInv(st, batch[0], left);
      assert batch[0] in batch;
      if p.ok && i >= |p.st.published| {
        NothingIsRoutedEarly(p.st, now, batch[1..], p.left, i);
      } else if p.ok {
        RouteBatchExtends(p.st, batch[1..], p.left);
      }
    }
  }

  lemma {:induction false} RouteBatchExtends(st: Store, batch: seq<nat>, left: nat)
    requires UnusedIds(st) && Routable(st, batch)
    ensures st.published <= RouteBatch(st, batch, left).st.published
    decreases |batch|
  {
    if batch != [] {
      var p := RouteJob(st, batch[0], left);
      var added := RouteJobAdds(st, batch[0], left);
      RouteJobTables(st, batch[0], left);
      if p.ok {
        RouteBatchExtends(p.st, batch[1..], p.left);
      }
    }
  }

  /** A pass in which nothing fails routes exactly its batch. */
  lemma {:induction false} CleanPassRoutesBatch(st: Store, batch: seq<nat>, left: nat)
    requires Routable(st, batch) && RouteBatch(st, batch, left).ok
    ensures var after := RouteBatch(st, batch, left).st.scheduled;
            after.Keys == st.scheduled.Keys
            && forall j | j in st.scheduled :: after[j] == if j in batch then st.scheduled[j].(status := Routed) else st.scheduled[j]
    decreases |batch|
  {
    if batch != [] {
      hide RouteJob;
      RouteJobTables(st, batch[0], left);
      var p := RouteJob(st, batch[0], left);
      CleanPassRoutesBatch(p.st, batch[1..], p.left);
      assert forall j :: j in batch <==> j == batch[0] || j in batch[1..];
    }
  }

  /** One more publication of other notifications leaves those of n as they are. */
  lemma OtherNotesStay(st: Store, j: nat, left: nat, n: nat)
    requires UnusedIds(st) && j in st.scheduled && st.scheduled[j].notification != n
    ensures OfNote(RouteJob(st, j, left).st.published, n) == OfNote(st.published, n)
  {
    hide RouteJob, UnusedIds;
    var added := RouteJobAdds(st, j, left);
    OfNoteConcat(st.published, added, n);
    OfNoteUniform(added, n, st.scheduled[j].notification);
  }

  /** Each new publication has a new delivery row of its own, and there are no other new rows. */
  ghost predicate GrewByPairs(st: Store, st': Store) {
    && st.published <= st'.published
    && var n := |st'.published| - |st.published|;
    && st'.nextId == st.nextId + n
    && (forall k: nat :: k in st'.deliveries <==> k in st.deliveries || st.nextId <= k < st.nextId + n)
    && (forall k | k in st.deliveries :: st'.deliveries[k] == st.deliveries[k])
    && forall k | |st.published| <= k < |st'.published| ::
         var p := st'.published[k];
         && p.delivery == st.nextId + (k - |st.published|) && p.delivery in st'.deliveries
         && st'.deliveries[p.delivery] == Delivery(p.notification, p.channel)
  }

  lemma GrewTwice(st: Store, mid: Store, st': Store)
    requires GrewByPairs(st, mid) && GrewByPairs(mid, st')
    ensures GrewByPairs(st, st')
  {
    forall k | |st.published| <= k < |mid.published|
      ensures var p := st'.published[k];
              && p == mid.published[k] && p.delivery in st'.deliveries && st'.deliveries[p.delivery] == mid.deliveries[p.delivery]
    {
    }
  }

  lemma CleanJobGrows(st: Store, j: nat, left: nat)
    requires UnusedIds(st) && j in st.scheduled && RouteJob(st, j, left).ok
    ensures GrewByPairs(st, RouteJob(st, j, left).st)
  {
    BelongsToNote(st);
    hide RouteJob, UnusedIds;
    var added := RouteJobAdds(st, j, left);
    var st' := RouteJob(st, j, left).st;
    assert forall k | |st.published| <= k < |st'.published| :: st'.published[k] == added[k - |st.published|];
  }

  lemma {:induction false} CleanPassGrows(st: Store, batch: seq<nat>, left: nat)
    requires UnusedIds(st) && Routable(st, batch) && RouteBatch(st, batch, left).ok
    ensures GrewByPairs(st, RouteBatch(st, batch, left).st)
    decreases |batch|
  {
    hide RouteJob, GrewByPairs, UnusedIds;
    if batch == [] {
      GrewNot(st);
    } else {
      var p := RouteJob(st, batch[0], left);
      var added := RouteJobAdds(st, batch[0], left);
      RouteJobTables(st, batch[0], left);
      CleanJobGrows(st, batch[0], left);
      CleanPassGrows(p.st, batch[1..], p.left);
      GrewTwice(st, p.st, RouteBatch(p.st, batch[1..], p.left).st);
    }
  }

  lemma GrewNot(st: Store)
    ensures GrewByPairs(st, st)
  {
  }

  /** When nothing fails, every job of the batch gets exactly one publication and one delivery row per channel
      entry, the notifications of all other jobs get none, and no other row appears. */
  lemma {:induction false} CleanPassDeliversOnce(st: Store, batch: seq<nat>, left: nat, j: nat)
    requires SchedulerInv(st) && Routable(st, batch) && RouteBatch(st, batch, left).ok && j in st.scheduled
    requires forall i | 0 <= i < |batch| :: st.scheduled[batch[i]].status == Pending
    requires forall i, k | 0 <= i < k < |batch| :: batch[i] != batch[k]
    ensures var st' := RouteBatch(st, batch, left).st; var n := st.scheduled[j].notification; var note := st.notes[n];
            if j in batch then |OfNote(st'.published, n)| == |OfNote(st.published, n)| + |note.channels| && Complete(st', n, note)
            else OfNote(st'.published, n) == OfNote(st.published, n)
    ensures GrewByPairs(st, RouteBatch(st, batch, left).st)
    decreases |batch|
  {
    CleanPassGrows(st, batch, left);
    hide RouteJob, UnusedIds, Complete, GrewByPairs, SchedulerInv, Published;
    if j !in batch {
      InvParts(st, j, j);
      PassLeavesOthers(st, batch, left, j);
    } else if batch[0] == j {
      FirstIsDelivered(st, batch, left);
    } else {
      InvParts(st, batch[0], j);
      OtherNotesStay(st, batch[0], left, st.scheduled[j].notification);
      RouteJobTables(st, batch[0], left);
      RouteJobKeepsInv(st, batch[0], left);
      var p := RouteJob(st, batch[0], left);
      CleanPassDeliversOnce(p.st, batch[1..], p.left, j);
    }
  }

  lemma FirstIsDelivered(st: Store, batch: seq<nat>, left: nat)
    requires SchedulerInv(st) && Routable(st, batch) && RouteBatch(st, batch, left).ok && batch != []
    requires forall i | 0 <= i < |batch| :: st.scheduled[batch[i]].status == Pending
    requires forall i, k | 0 <= i < k < |batch| :: batch[i] != batch[k]
    ensures var st' := RouteBatch(st, batch, left).st; var n := st.scheduled[batch[0]].notification;
            n in st.notes && |OfNote(st'.published, n)| == |OfNote(st.published, n)| + |st.notes[n].channels| && Complete(st', n, st.notes[n])
  {
    hide RouteJob, UnusedIds, Complete, SchedulerInv, Published, OfNote;
    var j := batch[0];
    InvParts(st, j, j);
    RouteJobTables(st, j, left);
    RouteJobKeepsInv(st, j, left);
    RoutedIsComplete(st, j, left);
    var p := RouteJob(st, j, left);
    PassLeavesOthers(p.st, batch[1..], p.left, j);
    RoutedStaysComplete(p.st, batch[1..], p.left, j);
  }

  lemma InvParts(st: Store, i: nat, j: nat)
    requires SchedulerInv(st) && i in st.scheduled && j in st.scheduled
    ensures UnusedIds(st) && st.scheduled[i].notification in st.notes && st.scheduled[j].notification in st.notes
    ensures i != j ==> st.scheduled[i].notification != st.scheduled[j].notification
  {
    BelongsToNote(st);
  }

  lemma RoutedStaysComplete(st: Store, batch: seq<nat>, left: nat, j: nat)
    requires SchedulerInv(st) && Routable(st, batch) && RouteBatch(st, batch, left).ok
    requires j in st.scheduled && st.scheduled[j].status == Routed
    requires forall i | 0 <= i < |batch| :: st.scheduled[batch[i]].status == Pending
    requires forall i, k | 0 <= i < k < |batch| :: batch[i] != batch[k]
    ensures var st' := RouteBatch(st, batch, left).st;
            st.notes == st'.notes && Complete(st', st.scheduled[j].notification, st.notes[st.scheduled[j].notification])
  {
    hide Complete, UnusedIds;
    RouteBatchKeepsInv(st, batch, left);
    CleanPassRoutesBatch(st, batch, left);
    RouteBatchKeepsNotes(st, batch, left);
  }

  lemma {:induction false} RouteBatchKeepsNotes(st: Store, batch: seq<nat>, left: nat)
    requires Routable(st, batch)
    ensures RouteBatch(st, batch, left).st.notes == st.notes
    decreases |batch|
  {
    if batch != [] {
      RouteJobTables(st, batch[0], left);
      if RouteJob(st, batch[0], left).ok {
        RouteBatchKeepsNotes(RouteJob(st, batch[0], left).st, batch[1..], RouteJob(st, batch[0], left).left);
      }
    }
  }

  function Elements(batch: seq<nat>): set<nat> { set j | j in batch }

  /** The scheduler's passes are rounds on the pending jobs. */
  lemma CleanPassIsRound(st: Store, now: int, batch: seq<nat>, left: nat)
    requires Routable(st, batch) && IsBatch(PendingJobs(st), now, batch) && RouteBatch(st, batch, left).ok
    ensures PendingJobs(RouteBatch(st, batch, left).st) == PendingJobs(st) - Elements(batch)
  {
    CleanPassRoutesBatch(st, batch, left);
    hide RouteBatch, Routable;
    hide IsBatch;
  }

  /** The jobs due no later than `t`. */
  function Ahead(pending: map<nat, int>, t: int): set<nat> { set j | j in pending && pending[j] <= t }

  lemma {:induction false} ElementsCount(batch: seq<nat>)
    requires forall i, j | 0 <= i < j < |batch| :: batch[i] != batch[j]
    ensures |Elements(batch)| == |batch|
  {
    if batch != [] {
      var k := |batch| - 1;
      ElementsCount(batch[..k]);
      assert Elements(batch) == Elements(batch[..k]) + {batch[k]};
    }
  }

  /** A round takes 100 of the jobs due by `t`, or all of them, and takes them in due order. */
  lemma RoundTakesEarliest(pending: map<nat, int>, now: int, batch: seq<nat>, t: int)
    requires IsBatch(pending, now, batch) && t <= now
    ensures var ahead := Ahead(pending, t); var rest := Ahead(pending - Elements(batch), t);
            && rest == ahead - Elements(batch)
            && |rest| == (if |ahead| <= 100 then 0 else |ahead| - 100)
            && forall i, j | i in ahead && i !in rest && j in rest :: pending[i] <= pending[j]
  {
    var ahead := Ahead(pending, t);
    var rest := Ahead(pending - Elements(batch), t);
    assert rest == ahead - Elements(batch);
    ElementsCount(batch);
    if j :| j in rest {
      assert Elements(batch) <= ahead;
      assert rest + Elements(batch) == ahead;
    } else {
      assert ahead <= Elements(batch) && rest == {};
      SubsetSize(ahead, Elements(batch));
    }
  }

  lemma {:induction false} SubsetSize(a: set<nat>, b: set<nat>)
    requires a <= b
    ensures |a| <= |b|
  {
    if a != {} {
      var x :| x in a;
      SubsetSize(a - {x}, b - {x});
    }
  }

  /** A history in which every pass runs at or after `t` without a failure and every scheduled request that is
      accepted meanwhile is due later than `t`. */
  ghost predicate Drains(st: Store, events: seq<Event>, t: int)
    requires PossibleHistory(st, events)
    decreases |events|
  {
    events != [] ==>
      && (match events[0]
          case Request(tenant, active, req, checks, left) =>
            IsScheduled(req) && Sending(st, tenant, active, req, checks, left).1.Accepted? ==> req.sendAt.value > t
          case SchedulerPass(now, batch, left) => now >= t && RouteBatch(st, batch, left).ok)
      && Drains(After(st, events[0]), events[1..], t)
  }

  function Passes(events: seq<Event>): nat {
    if events == [] then 0 else (if events[0].SchedulerPass? then 1 else 0) + Passes(events[1..])
  }

  /** An accepted scheduled request is one more pending job; every other request leaves them as they are. */
  lemma SendingArrives(st: Store, tenant: string, active: bool, req: Request, checks: seq<bool>, left: nat)
    requires UnusedIds(st)
    ensures var (st', r) := Sending(st, tenant, active, req, checks, left);
            if IsScheduled(req) && r.Accepted? then
              req.sendAt.Some? && st.nextId + 1 !in st.scheduled &&
              PendingJobs(st') == PendingJobs(st)[st.nextId + 1 := req.sendAt.value]
            else PendingJobs(st') == PendingJobs(st)
  {
    hide IsScheduled;
    FreshIds(st);
  }

  /** n jobs due by time t are gone after ceil(n/100) failure-free passes at or after t, whatever requests come
      in between, as long as those they schedule are due later. */
  lemma {:induction false} DueJobsDrain(st: Store, events: seq<Event>, t: int)
    requires SchedulerInv(st) && PossibleHistory(st, events) && Drains(st, events, t)
    ensures var n := |Ahead(PendingJobs(st), t)|;
            |Ahead(PendingJobs(History(st, events)), t)| ==
            if n <= 100 * Passes(events) then 0 else n - 100 * Passes(events)
    decreases |events|
  {
    hide SchedulerInv, PendingJobs, Sending, RouteBatch, IsBatch;
    if events != [] {
      var st' := After(st, events[0]);
      StepKeepsSchedulerInv(st, events[0]);
      StepDrains(st, events[0], t, events[1..]);
      hide Ahead;
      DueJobsDrain(st', events[1..], t);
    }
  }

  lemma StepKeepsSchedulerInv(st: Store, e: Event)
    requires SchedulerInv(st) && Possible(st, e)
    ensures SchedulerInv(After(st, e)) && UnusedIds(st)
  {
    match e
    case Request(tenant, active, req, checks, left) => SendKeepsInv(st, tenant, active, req, checks, left);
    case SchedulerPass(_, batch, left) => RouteBatchKeepsInv(st, batch, left);
  }

  lemma StepDrains(st: Store, e: Event, t: int, rest: seq<Event>)
    requires UnusedIds(st) && PossibleHistory(st, [e] + rest) && Drains(st, [e] + rest, t)
    ensures var n, n' := |Ahead(PendingJobs(st), t)|, |Ahead(PendingJobs(After(st, e)), t)|;
            n' == if e.Request? || n <= BATCH then (if e.Request? then n else 0) else n - BATCH
  {
    hide UnusedIds, PendingJobs, Sending, RouteBatch, IsBatch, Routable;
    match e {
      case Request(tenant, active, req, checks, left) =>
        SendingArrives(st, tenant, active, req, checks, left);
        PendingIsScheduled(st, st.nextId + 1);
        assert Ahead(PendingJobs(After(st, e)), t) == Ahead(PendingJobs(st), t);
      case SchedulerPass(now, batch, left) =>
        CleanPassIsRound(st, now, batch, left);
        RoundTakesEarliest(PendingJobs(st), now, batch, t);
    }
  }

  lemma PendingIsScheduled(st: Store, j: nat)
    ensures j in PendingJobs(st) ==> j in st.scheduled
  {
  }

  // ---------- a publication without a row never gets one ----------

  /** Publications are only added, and new rows only under ids unused so far. */
  ghost predicate OnlyNewRows(st: Store, st': Store) {
    && st.nextId <= st'.nextId && st.published <= st'.published
    && forall k: nat | k in st'.deliveries :: k in st.deliveries || st.nextId <= k
  }

  lemma JobAddsNewRows(st: Store, j: nat, left: nat)
    requires UnusedIds(st) && j in st.scheduled
    ensures OnlyNewRows(st, RouteJob(st, j, left).st)
  {
    hide RouteChannels, PublishedBelow, ScheduledBelow;
    BelongsToNote(st);
    var n := st.scheduled[j].notification;
    var _ := RouteChannelsPublishes(st, n, st.notes[n], 0, left);
    RouteChannelsAddsRows(st, n, st.notes[n], 0, left);
  }

  lemma {:induction false} PassAddsNewRows(st: Store, batch: seq<nat>, left: nat)
    requires UnusedIds(st) && Routable(st, batch)
    ensures OnlyNewRows(st, RouteBatch(st, batch, left).st)
    decreases |batch|
  {
    hide RouteJob, UnusedIds;
    if batch != [] {
      JobAddsNewRows(st, batch[0], left);
      var p := RouteJob(st, batch[0], left);
      if p.ok {
        var _ := RouteJobAdds(st, batch[0], left);
        RouteJobTables(st, batch[0], left);
        PassAddsNewRows(p.st, batch[1..], p.left);
      }
    }
  }

  lemma InstantAddsNewRows(st: Store, note: Note, left: nat)
    requires left >= 2
    ensures OnlyNewRows(st, SendInstant(st, note, left).0)
  {
    hide Jobs, Rows;
    RowsDomain(st.nextId, note, st.nextId + 1, |note.channels|);
  }

  lemma TimedAddsNewRows(st: Store, note: Note, due: int, left: nat)
    ensures OnlyNewRows(st, SendTimed(st, note, due, left).0)
  {
  }

  lemma SendAddsNewRows(st: Store, tenant: string, active: bool, req: Request, checks: seq<bool>, left: nat)
    ensures OnlyNewRows(st, Sending(st, tenant, active, req, checks, left).0)
  {
    hide IsScheduled, SendInstant, SendTimed;
    var note := NoteFor(tenant, req);
    if left >= 2 {
      InstantAddsNewRows(st, note, left);
    }
    TimedAddsNewRows(st, note, if req.sendAt.Some? then req.sendAt.value else 0, left);
  }

  lemma {:induction false} HistoryAddsNewRows(st: Store, events: seq<Event>)
    requires SchedulerInv(st) && PossibleHistory(st, events)
    ensures OnlyNewRows(st, History(st, events))
    decreases |events|
  {
    hide SchedulerInv, UnusedIds, Sending, RouteBatch;
    if events != [] {
      StepKeepsSchedulerInv(st, events[0]);
      match events[0] {
        case Request(tenant, active, req, checks, left) => SendAddsNewRows(st, tenant, active, req, checks, left);
        case SchedulerPass(_, batch, left) => PassAddsNewRows(st, batch, left);
      }
      HistoryAddsNewRows(After(st, events[0]), events[1..]);
    }
  }

  /** A job published by a request that was then refused never gets a delivery row, whatever requests and
      passes follow: the pipeline sees it as one whose row is never committed. */
  lemma RefusedJobsNeverGetRows(st: Store, tenant: string, active: bool, req: Request, checks: seq<bool>, left: nat, events: seq<Event>, i: nat)
    requires SchedulerInv(st) && Sending(st, tenant, active, req, checks, left).1.Refused?
    requires var st' := Sending(st, tenant, active, req, checks, left).0;
             PossibleHistory(st', events) && |st.published| <= i < |st'.published|
    ensures var st' := Sending(st, tenant, active, req, checks, left).0; var later := History(st', events);
            i < |later.published| && later.published[i] == st'.published[i] && later.published[i].delivery !in later.deliveries
  {
    var st' := Sending(st, tenant, active, req, checks, left).0;
    SendKeepsInv(st, tenant, active, req, checks, left);
    RefusedSendLeavesNoRow(st, tenant, active, req, checks, left);
    IdsOfPublished(st', i);
    hide SchedulerInv, Sending;
    HistoryAddsNewRows(st', events);
  }

  lemma IdsOfPublished(st: Store, i: nat)
    requires SchedulerInv(st) && i < |st.published|
    ensures st.published[i].delivery < st.nextId
  {
  }

  // ---------- nothing is routed early, in any history ----------

  /** Jobs due at `t` or later have not been touched. */
  ghost predicate Quiet(st: Store, t: int) {
    forall j | j in st.scheduled && st.scheduled[j].due >= t ::
      st.scheduled[j].status == Pending && OfNote(st.published, st.scheduled[j].notification) == []
  }

  lemma {:induction false} PassLeavesOthers(st: Store, batch: seq<nat>, left: nat, j: nat)
    requires SchedulerInv(st) && Routable(st, batch) && j in st.scheduled && j !in batch
    requires forall i | 0 <= i < |batch| :: st.scheduled[batch[i]].status == Pending
    requires forall i, k | 0 <= i < k < |batch| :: batch[i] != batch[k]
    ensures var st' := RouteBatch(st, batch, left).st;
            && j in st'.scheduled && st'.scheduled[j] == st.scheduled[j] && st'.scheduled.Keys == st.scheduled.Keys
            && OfNote(st'.published, st.scheduled[j].notification) == OfNote(st.published, st.scheduled[j].notification)
    decreases |batch|
  {
    if batch != [] {
      hide RouteJob, UnusedIds, Complete;
      var p := RouteJob(st, batch[0], left);
      RouteJobTables(st, batch[0], left);
      OtherNotesStay(st, batch[0], left, st.scheduled[j].notification);
      if p.ok {
        RouteJobKeepsInv(st, batch[0], left);
        PassLeavesOthers(p.st, batch[1..], p.left, j);
      }
    }
  }

  lemma {:induction false} PassKeepsJobs(st: Store, batch: seq<nat>, left: nat)
    requires Routable(st, batch)
    ensures var after := RouteBatch(st, batch, left).st.scheduled;
            after.Keys == st.scheduled.Keys &&
            forall j | j in st.scheduled :: after[j].due == st.scheduled[j].due && after[j].notification == st.scheduled[j].notification
    decreases |batch|
  {
    if batch != [] {
      hide RouteJob;
      RouteJobTables(st, batch[0], left);
      if RouteJob(st, batch[0], left).ok {
        PassKeepsJobs(RouteJob(st, batch[0], left).st, batch[1..], RouteJob(st, batch[0], left).left);
      }
    }
  }

  lemma PassKeepsQuiet(st: Store, now: int, batch: seq<nat>, left: nat, t: int)
    requires SchedulerInv(st) && Possible(st, SchedulerPass(now, batch, left)) && now < t && Quiet(st, t)
    ensures Quiet(RouteBatch(st, batch, left).st, t)
  {
    hide RouteBatch, SchedulerInv, OfNote;
    PassKeepsJobs(st, batch, left);
    forall j | j in st.scheduled && st.scheduled[j].due >= t
      ensures var st' := RouteBatch(st, batch, left).st;
              j in st'.scheduled && st'.scheduled[j].status == Pending && OfNote(st'.published, st.scheduled[j].notification) == []
    {
      assert !IsDue(st, now, j);
      PassLeavesOthers(st, batch, left, j);
    }
  }

  lemma {:induction false} NothingOf(published: seq<Publication>, n: nat)
    requires forall i | 0 <= i < |published| :: published[i].notification != n
    ensures OfNote(published, n) == []
  {
    if published != [] {
      NothingOf(published[..|published| - 1], n);
    }
  }

  lemma SendKeepsQuiet(st: Store, tenant: string, active: bool, req: Request, checks: seq<bool>, left: nat, t: int)
    requires UnusedIds(st) && Quiet(st, t)
    ensures Quiet(Sending(st, tenant, active, req, checks, left).0, t)
  {
    var st' := Sending(st, tenant, active, req, checks, left).0;
    var added := Added(st, tenant, active, req, checks, left);
    SendKeepsIds(st, tenant, active, req, checks, left);
    AddedJobs(st, tenant, active, req, checks, left);
    BelongsToNote(st);
    NothingOf(st.published, st.nextId);
    forall j | j in st.scheduled ensures OfNote(st'.published, st.scheduled[j].notification) == OfNote(st.published, st.scheduled[j].notification) {
      OfNoteConcat(st.published, added, st.scheduled[j].notification);
      OfNoteUniform(added, st.scheduled[j].notification, st.nextId);
    }
    hide OfNote, Added;
  }

  lemma {:induction false} HistoryKeepsQuiet(st: Store, events: seq<Event>, t: int)
    requires SchedulerInv(st) && PossibleHistory(st, events) && Quiet(st, t)
    requires forall e <- events | e.SchedulerPass? :: e.now < t
    ensures Quiet(History(st, events), t)
    decreases |events|
  {
    hide SchedulerInv, Quiet, Sending, RouteBatch, UnusedIds;
    if events != [] {
      StepKeepsSchedulerInv(st, events[0]);
      match events[0] {
        case Request(tenant, active, req, checks, left) => SendKeepsQuiet(st, tenant, active, req, checks, left, t);
        case SchedulerPass(now, batch, left) => PassKeepsQuiet(st, now, batch, left, t);
      }
      HistoryKeepsQuiet(After(st, events[0]), events[1..], t);
    }
  }

  /** Over any history, whatever failed in it: as long as no pass has run at or after its due time, a scheduled
      job is pending and nothing has been published for it. */
  lemma NothingIsRoutedBeforeDue(events: seq<Event>, j: nat)
    requires PossibleHistory(EMPTY, events) && j in History(EMPTY, events).scheduled
    requires forall e <- events | e.SchedulerPass? :: e.now < History(EMPTY, events).scheduled[j].due
    ensures var st := History(EMPTY, events);
            st.scheduled[j].status == Pending && OfNote(st.published, st.scheduled[j].notification) == []
  {
    HistoryKeepsQuiet(EMPTY, events, History(EMPTY, events).scheduled[j].due);
  }
}
