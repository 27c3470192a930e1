/** The fixed-window rate limiter over Redis counters (ratelimit/service.go). Times are integers on one
    clock; INCR and EXPIRE are separate atomic commands, so other callers may come in between. */
module RateLimit {
  import opened Common

  /** A live Redis counter; without a time-to-live it never goes away. */
  datatype Counter = Counter(count: nat, expiry: Option<int>)

  predicate IsLive(key: Option<Counter>, now: int) {
    key.Some? && (key.value.expiry.Some? ==> now < key.value.expiry.value)
  }

  /** INCR: a missing or expired key restarts at 1 without a time-to-live. */
  function Incr(key: Option<Counter>, now: int): Counter {
    if IsLive(key, now) then key.value.(count := key.value.count + 1) else Counter(1, None)
  }

  /** EXPIRE: nothing happens to a missing key. */
  function Expire(key: Option<Counter>, now: int, window: int): Option<Counter> {
    if IsLive(key, now) then Some(key.value.(expiry := Some(now + window))) else key
  }

  // ---------- one key over time ----------

  /** Commands that reach the server, in order: the INCR of a call with some limit, or an EXPIRE. Which
      EXPIREs arrive, and when, is up to the environment. */
  datatype Command = Hit(at: int, limit: int) | Ttl(at: int)

  /** A call within its limit: which life of the key it fell in and what its INCR returned. */
  datatype Grant = Grant(life: nat, count: nat, at: int, limit: int)

  datatype Trace = Trace(key: Option<Counter>, births: seq<int>, grants: seq<Grant>, clock: int)

  function Start(clock: int): Trace { Trace(None, [], [], clock) }

  function Step(window: int, tr: Trace, c: Command): Trace {
    match c
    case Hit(at, limit) =>
      var key := Incr(tr.key, at);
      var births := if IsLive(tr.key, at) && tr.births != [] then tr.births else tr.births + [at];
      var grants := if key.count <= limit then tr.grants + [Grant(|births| - 1, key.count, at, limit)] else tr.grants;
      Trace(Some(key), births, grants, at)
    case Ttl(at) => tr.(key := Expire(tr.key, at, window), clock := at)
  }

  predicate Ordered(clock: int, commands: seq<Command>)
    decreases |commands|
  {
    commands == [] || (clock <= commands[0].at && Ordered(commands[0].at, commands[1..]))
  }

  function Replay(window: int, tr: Trace, commands: seq<Command>): Trace
    decreases |commands|
  {
    if commands == [] then tr else Replay(window, Step(window, tr, commands[0]), commands[1..])
  }

  ghost predicate Spaced(window: int, births: seq<int>) {
    forall i, j | 0 <= i < j < |births| :: births[i] + window <= births[j]
  }

  /** A grant lies in its life, before the next one begins. */
  ghost predicate InLife(births: seq<int>, g: Grant) {
    g.life < |births| && births[g.life] <= g.at && (g.life + 1 < |births| ==> g.at < births[g.life + 1])
  }

  /** The lives of the key begin at least a window apart. */
  ghost predicate SoundLives(window: int, tr: Trace) {
    && Spaced(window, tr.births)
    && (forall i | 0 <= i < |tr.births| :: tr.births[i] <= tr.clock)
    && (tr.births == [] <==> tr.key.None?)
    && (tr.key.Some? ==> tr.key.value.count >= 1)
    && (tr.key.Some? && tr.key.value.expiry.Some? ==> tr.births[|tr.births| - 1] + window <= tr.key.value.expiry.value)
  }

  ghost predicate SoundGrant(tr: Trace, g: Grant) {
    && InLife(tr.births, g) && 1 <= g.count <= g.limit && g.at <= tr.clock && tr.key.Some?
    && (g.count == 1 ==> g.at == tr.births[g.life])
    && (g.life == |tr.births| - 1 ==> g.count <= tr.key.value.count && (tr.key.value.expiry.Some? ==> g.at < tr.key.value.expiry.value))
  }

  ghost predicate SoundGrants(tr: Trace) { forall i | 0 <= i < |tr.grants| :: SoundGrant(tr, tr.grants[i]) }

  ghost predicate Distinct(grants: seq<Grant>) {
    forall i, j | 0 <= i < j < |grants| :: grants[i].life == grants[j].life ==> grants[i].count < grants[j].count
  }

  ghost predicate Sound(window: int, tr: Trace) { SoundLives(window, tr) && SoundGrants(tr) && Distinct(tr.grants) }

  lemma StepSoundLives(window: int, tr: Trace, c: Command)
    requires window > 0 && SoundLives(window, tr) && tr.clock <= c.at
    ensures SoundLives(window, Step(window, tr, c))
  {
  }

  /** An earlier grant stays in its life, whether or not the command begins a new one. */
  lemma GrantStays(window: int, tr: Trace, c: Command, g: Grant)
    requires window > 0 && SoundLives(window, tr) && tr.clock <= c.at && SoundGrant(tr, g)
    ensures SoundGrant(Step(window, tr, c), g)
    ensures c.Hit? ==> g.life < |Step(window, tr, c).births| - 1 || g.count < Step(window, tr, c).key.value.count
  {
    hide Spaced;
  }

  lemma NewGrantIsSound(window: int, tr: Trace, c: Command)
    requires SoundLives(window, tr) && tr.clock <= c.at && c.Hit? && Incr(tr.key, c.at).count <= c.limit
    ensures SoundGrant(Step(window, tr, c), Grant(|Step(window, tr, c).births| - 1, Incr(tr.key, c.at).count, c.at, c.limit))
  {
    hide Spaced;
  }

  lemma StepSound(window: int, tr: Trace, c: Command)
    requires window > 0 && Sound(window, tr) && tr.clock <= c.at
    ensures Sound(window, Step(window, tr, c))
  {
    StepSoundLives(window, tr, c);
    var tr' := Step(window, tr, c);
    forall i | 0 <= i < |tr'.grants|
      ensures SoundGrant(tr', tr'.grants[i])
      ensures i < |tr.grants| && c.Hit? ==> tr'.grants[i].life < |tr'.births| - 1 || tr'.grants[i].count < tr'.key.value.count
    {
      if i < |tr.grants| {
        GrantStays(window, tr, c, tr.grants[i]);
      } else {
        NewGrantIsSound(window, tr, c);
      }
    }
    hide SoundLives, SoundGrant;
    assert SoundGrants(tr');
    assert Distinct(tr'.grants);
  }

  lemma {:induction false} ReplaySound(window: int, tr: Trace, commands: seq<Command>)
    requires window > 0 && Sound(window, tr) && Ordered(tr.clock, commands)
    ensures Sound(window, Replay(window, tr, commands))
    decreases |commands|
  {
    if commands != [] {
      StepSound(window, tr, commands[0]);
      ReplaySound(window, Step(window, tr, commands[0]), commands[1..]);
    }
  }

  /** The grants with limits up to L at positions s. */
  ghost predicate Within(tr: Trace, s: set<nat>, L: nat) {
    forall i | i in s :: i < |tr.grants| && tr.grants[i].limit <= L
  }

  ghost predicate SameLife(tr: Trace, s: set<nat>, life: nat) {
    forall i | i in s :: i < |tr.grants| && tr.grants[i].life == life
  }

  /** Different numbers above `low` and up to L, one per grant: there are at most L - low grants. */
  lemma {:induction false} CountsAreDistinct(tr: Trace, window: int, s: set<nat>, life: nat, low: nat, L: nat)
    requires Sound(window, tr) && SameLife(tr, s, life) && low <= L && (forall i | i in s :: low < tr.grants[i].count <= L)
    ensures |s| <= L - low
    decreases L
  {
    if s != {} {
      var some :| some in s;
      if i :| i in s && tr.grants[i].count == L {
        CountsAreDistinct(tr, window, s - {i}, life, low, L - 1);
      } else {
        CountsAreDistinct(tr, window, s, life, low, L - 1);
      }
    }
  }

  /** Within one life of the key the admitted calls whose limit is at most L number at most L, even when
      channels with different limits share the key and whether or not an EXPIRE was lost. */
  lemma LifeAdmitsAtMostLimit(window: int, clock: int, commands: seq<Command>, s: set<nat>, life: nat, L: nat)
    requires window > 0 && Ordered(clock, commands)
    requires var tr := Replay(window, Start(clock), commands); SameLife(tr, s, life) && Within(tr, s, L)
    ensures |s| <= L
  {
    ReplaySound(window, Start(clock), commands);
    CountsAreDistinct(Replay(window, Start(clock), commands), window, s, life, 0, L);
  }

  /** Less than a window apart, a later life is at most the next one, and then the earlier grant was not
      the one its life began with. */
  lemma LivesAreNeighbours(window: int, tr: Trace, g: Grant, h: Grant)
    requires SoundLives(window, tr) && SoundGrant(tr, g) && SoundGrant(tr, h)
    requires h.at < g.at + window
    ensures h.life <= g.life + 1
    ensures h.life == g.life + 1 ==> g.count > 1
  {
  }

  /** Any half-open interval as long as the window admits at most 2L - 1 calls with limits up to L. */
  lemma WindowAdmitsLessThanTwice(window: int, clock: int, commands: seq<Command>, s: set<nat>, x: int, L: nat)
    requires window > 0 && Ordered(clock, commands)
    requires var tr := Replay(window, Start(clock), commands);
             Within(tr, s, L) && forall i | i in s :: x <= tr.grants[i].at < x + window
    ensures |s| <= if L == 0 then 0 else 2 * L - 1
  {
    ReplaySound(window, Start(clock), commands);
    WindowOfSoundTrace(window, Replay(window, Start(clock), commands), s, x, L);
  }

  lemma WindowOfSoundTrace(window: int, tr: Trace, s: set<nat>, x: int, L: nat)
    requires Sound(window, tr) && Within(tr, s, L) && forall i | i in s :: x <= tr.grants[i].at < x + window
    ensures |s| <= if L == 0 then 0 else 2 * L - 1
  {
    if s != {} {
      var life := EarliestLife(tr, s);
      forall i, k | i in s && k in s && tr.grants[k].life == life
        ensures tr.grants[i].life <= life + 1 && 0 < tr.grants[i].count <= L
        ensures tr.grants[i].life == life + 1 ==> tr.grants[k].count > 1
      {
        LivesAreNeighbours(window, tr, tr.grants[k], tr.grants[i]);
        GrantWithin(tr, tr.grants[i]);
      }
      hide SoundLives, SoundGrant, Distinct;
      TwoLives(window, tr, s, life, L);
    }
  }

  lemma TwoLives(window: int, tr: Trace, s: set<nat>, life: nat, L: nat)
    requires Sound(window, tr) && L > 0
    requires forall i | i in s :: i < |tr.grants| && life <= tr.grants[i].life <= life + 1 && 0 < tr.grants[i].count <= L
    requires forall i, k | i in s && k in s && tr.grants[k].life == life && tr.grants[i].life == life + 1 :: tr.grants[k].count > 1
    ensures |s| <= 2 * L - 1
  {
    hide SoundLives, SoundGrant, Distinct, SoundGrants;
    var first := set i | i in s && tr.grants[i].life == life;
    var second := set i | i in s && tr.grants[i].life == life + 1;
    if k :| k in second {
      assert forall i | i in first :: tr.grants[i].count > 1;
      CountsAreDistinct(tr, window, first, life, 1, L);
    } else {
      CountsAreDistinct(tr, window, first, life, 0, L);
    }
    CountsAreDistinct(tr, window, second, life + 1, 0, L);
    assert s == first + second && first !! second;
  }

  lemma ReplayFirst(window: int, tr: Trace, c: Command, rest: seq<Command>)
    ensures Replay(window, tr, [c] + rest) == Replay(window, Step(window, tr, c), rest)
  {
    assert ([c] + rest)[1..] == rest;
  }

  /** `n` calls with one limit at one time. */
  function Calls(at: int, limit: nat, n: nat): seq<Command> { seq(n, _ => Hit(at, limit)) }

  lemma {:induction false} OrderedCalls(clock: int, at: int, limit: nat, n: nat, rest: seq<Command>)
    requires clock <= at && Ordered(at, rest)
    ensures Ordered(clock, Calls(at, limit, n) + rest)
    decreases n
  {
    if n == 0 {
      assert Calls(at, limit, n) + rest == rest;
    } else {
      assert Calls(at, limit, n) + rest == [Hit(at, limit)] + (Calls(at, limit, n - 1) + rest);
      OrderedCalls(at, at, limit, n - 1, rest);
    }
  }

  function Granted(life: nat, first: nat, at: int, limit: nat, n: nat): (grants: seq<Grant>)
    ensures |grants| == n
  {
    seq(n, i requires 0 <= i < n => Grant(life, first + i, at, limit))
  }

  /** The trace when a live key has counted `n` more calls, all granted. */
  function AfterCalls(tr: Trace, at: int, limit: nat, n: nat): Trace
    requires tr.key.Some? && tr.births != []
  {
    var count := tr.key.value.count;
    if n == 0 then tr
    else
      Trace(Some(Counter(count + n, tr.key.value.expiry)), tr.births,
            tr.grants + Granted(|tr.births| - 1, count + 1, at, limit, n), at)
  }

  lemma OneMoreCall(window: int, tr: Trace, at: int, limit: nat, n: nat)
    requires tr.key.Some? && IsLive(tr.key, at) && tr.births != [] && n > 0 && tr.key.value.count + n <= limit
    ensures var tr' := Step(window, tr, Hit(at, limit));
            && tr'.key.Some? && IsLive(tr'.key, at) && tr'.births == tr.births && tr'.key.value.count == tr.key.value.count + 1
            && AfterCalls(tr', at, limit, n - 1) == AfterCalls(tr, at, limit, n)
  {
    var life, count := |tr.births| - 1, tr.key.value.count;
    var tr' := Step(window, tr, Hit(at, limit));
    assert tr' == Trace(Some(Counter(count + 1, tr.key.value.expiry)), tr.births, tr.grants + [Grant(life, count + 1, at, limit)], at);
    assert [Grant(life, count + 1, at, limit)] + Granted(life, count + 2, at, limit, n - 1) == Granted(life, count + 1, at, limit, n);
    assert tr.grants + [Grant(life, count + 1, at, limit)] + Granted(life, count + 2, at, limit, n - 1)
        == tr.grants + Granted(life, count + 1, at, limit, n);
  }

  /** A live key grants calls in turn as long as the limit lasts. */
  lemma {:induction false} CallsAreGranted(window: int, tr: Trace, at: int, limit: nat, n: nat, rest: seq<Command>)
    requires tr.key.Some? && IsLive(tr.key, at) && tr.births != [] && tr.key.value.count + n <= limit
    ensures Replay(window, tr, Calls(at, limit, n) + rest) == Replay(window, AfterCalls(tr, at, limit, n), rest)
    decreases n
  {
    hide Replay;
    if n == 0 {
      assert Calls(at, limit, n) + rest == rest;
    } else {
      assert Calls(at, limit, n) + rest == [Hit(at, limit)] + (Calls(at, limit, n - 1) + rest);
      ReplayFirst(window, tr, Hit(at, limit), Calls(at, limit, n - 1) + rest);
      OneMoreCall(window, tr, at, limit, n);
      hide Step, AfterCalls, Calls;
      CallsAreGranted(window, Step(window, tr, Hit(at, limit)), at, limit, n - 1, rest);
    }
  }

  /** Opens a life of the key: the first call and its EXPIRE, then the rest of the limit at another time. */
  function Life(from: int, later: int, L: nat, rest: seq<Command>): seq<Command>
    requires L >= 1
  {
    [Hit(from, L)] + ([Ttl(from)] + (Calls(later, L, L - 1) + rest))
  }

  lemma LifeIsGranted(window: int, tr: Trace, from: int, later: int, L: nat, rest: seq<Command>)
    requires L >= 1 && !IsLive(tr.key, from) && from <= later < from + window
    ensures var grants := [Grant(|tr.births|, 1, from, L)] + Granted(|tr.births|, 2, later, L, L - 1);
            Replay(window, tr, Life(from, later, L, rest)) ==
            Replay(window, Trace(Some(Counter(L, Some(from + window))), tr.births + [from], tr.grants + grants,
                                 if L == 1 then from else later), rest)
  {
    hide Replay;
    var calls := Calls(later, L, L - 1) + rest;
    var born := Trace(Some(Counter(1, Some(from + window))), tr.births + [from], tr.grants + [Grant(|tr.births|, 1, from, L)], from);
    ReplayFirst(window, tr, Hit(from, L), [Ttl(from)] + calls);
    ReplayFirst(window, Step(window, tr, Hit(from, L)), Ttl(from), calls);
    assert Step(window, Step(window, tr, Hit(from, L)), Ttl(from)) == born;
    CallsAreGranted(window, born, later, L, L - 1, rest);
    var grants := [Grant(|tr.births|, 1, from, L)] + Granted(|tr.births|, 2, later, L, L - 1);
    assert born.grants + Granted(|tr.births|, 2, later, L, L - 1) == tr.grants + grants;
    assert L == 1 ==> born.grants == tr.grants + grants;
    assert AfterCalls(born, later, L, L - 1) ==
      Trace(Some(Counter(L, Some(from + window))), tr.births + [from], tr.grants + grants, if L == 1 then from else later);
  }

  lemma OrderedLife(clock: int, from: int, later: int, L: nat, rest: seq<Command>)
    requires L >= 1 && clock <= from <= later && Ordered(later, rest)
    ensures Ordered(clock, Life(from, later, L, rest))
  {
    var calls := Calls(later, L, L - 1) + rest;
    OrderedCalls(from, later, L, L - 1, rest);
    assert ([Ttl(from)] + calls)[1..] == calls;
    assert Life(from, later, L, rest)[1..] == [Ttl(from)] + calls;
  }

  /** The bound is reached by every limit L: one call opens the window, L - 1 come just before it ends and L
      just after, so an interval as long as the window admits 2L - 1. */
  lemma WindowBoundIsReached(window: int, L: nat) returns (commands: seq<Command>)
    requires window >= 2 && L >= 1
    ensures Ordered(0, commands)
    ensures var tr := Replay(window, Start(0), commands);
            |tr.grants| == 2 * L &&
            forall i | 1 <= i < 2 * L :: tr.grants[i].limit == L && window - 1 <= tr.grants[i].at < window - 1 + window
  {
    hide Replay, Life;
    var second := Life(window, window, L, []);
    commands := Life(0, window - 1, L, second);
    OrderedLife(window - 1, window, window, L, []);
    OrderedLife(0, 0, window - 1, L, second);
    LifeIsGranted(window, Start(0), 0, window - 1, L, second);
    var g1 := [Grant(0, 1, 0, L)] + Granted(0, 2, window - 1, L, L - 1);
    var tr := Trace(Some(Counter(L, Some(window))), [0], g1, if L == 1 then 0 else window - 1);
    assert Start(0).births + [0] == [0] && Start(0).grants + g1 == g1;
    LifeIsGranted(window, tr, window, window, L, []);
    var g2 := [Grant(1, 1, window, L)] + Granted(1, 2, window, L, L - 1);
    ReplayNothing(window, Trace(Some(Counter(L, Some(window + window))), [0] + [window], g1 + g2, window));
  }

  lemma ReplayNothing(window: int, tr: Trace)
    ensures Replay(window, tr, []) == tr
  {
  }

  lemma GrantWithin(tr: Trace, g: Grant)
    requires SoundGrant(tr, g)
    ensures g.count <= g.limit
  {
  }

  lemma {:induction false} EarliestLife(tr: Trace, s: set<nat>) returns (life: nat)
    requires s != {} && forall i | i in s :: i < |tr.grants|
    ensures (exists i :: i in s && tr.grants[i].life == life) && forall i | i in s :: life <= tr.grants[i].life
  {
    var k :| k in s;
    if s == {k} {
      life := tr.grants[k].life;
    } else {
      var rest := EarliestLife(tr, s - {k});
      life := if tr.grants[k].life < rest then tr.grants[k].life else rest;
      var w :| w in s - {k} && tr.grants[w].life == rest;
      assert w in s && k in s;
    }
  }

  /** A key that is not touched before `day` has no second life within `day + window`. */
  lemma {:induction false} BirthsAfter(window: int, tr: Trace, commands: seq<Command>, day: int)
    requires Ordered(tr.clock, commands)
    requires tr.clock >= day && forall i | 0 <= i < |tr.births| :: day <= tr.births[i]
    ensures var tr' := Replay(window, tr, commands); forall i | 0 <= i < |tr'.births| :: day <= tr'.births[i]
    decreases |commands|
  {
    if commands != [] {
      BirthsAfter(window, Step(window, tr, commands[0]), commands[1..], day);
      assert Replay(window, tr, commands) == Replay(window, Step(window, tr, commands[0]), commands[1..]);
    }
  }

  lemma FirstLifeOnly(window: int, tr: Trace, g: Grant, day: int)
    requires SoundLives(window, tr) && SoundGrant(tr, g) && g.at < day + window
    requires forall i | 0 <= i < |tr.births| :: day <= tr.births[i]
    ensures g.life == 0
  {
    var first := tr.births[0];
    assert day <= first && (g.life > 0 ==> first + window <= g.at);
  }

  /** The day-stamped key is first used inside its day and lives at least as long as a day, so the calls that
      reach the counter within the day never see it restart: at most `quota` of them are admitted. */
  lemma DayAdmitsAtMostQuota(dayLength: int, day: int, commands: seq<Command>, s: set<nat>, quota: nat)
    requires dayLength > 0 && Ordered(day, commands)
    requires var tr := Replay(dayLength, Start(day), commands);
             Within(tr, s, quota) && forall i | i in s :: tr.grants[i].at < day + dayLength
    ensures |s| <= quota
  {
    ReplaySound(dayLength, Start(day), commands);
    BirthsAfter(dayLength, Start(day), commands, day);
    var tr := Replay(dayLength, Start(day), commands);
    forall i | i in s
      ensures tr.grants[i].life == 0
    {
      FirstLifeOnly(dayLength, tr, tr.grants[i], day);
    }
    CountsAreDistinct(tr, dayLength, s, 0, 0, quota);
  }

  /** If the EXPIRE of a fresh key is lost and none follows, the key never restarts: it admits its limit once, ever. */
  lemma {:induction false} LostExpireNeverRestarts(window: int, tr: Trace, commands: seq<Command>)
    requires forall i | 0 <= i < |commands| :: commands[i].Hit?
    requires |tr.births| <= 1 && (tr.births == [] <==> tr.key.None?) && (tr.key.Some? ==> tr.key.value.expiry.None?)
    ensures |Replay(window, tr, commands).births| <= 1
    decreases |commands|
  {
    if commands != [] {
      LostExpireNeverRestarts(window, Step(window, tr, commands[0]), commands[1..]);
    }
  }

  // ---------- the service ----------

  datatype Key = RateKey(tenant: string) | DailyKey(tenant: string, channel: string, day: int)

  datatype Limits = Limits(rate: int, quota: int, fetched: int)

  datatype Answer = Admitted | Denied | Failed

  const SECOND: int := 1_000_000_000
  const DAY: int := 24 * 3600 * SECOND
  const CACHE_LIFE: int := 5 * 60 * SECOND

  function Lookup(keys: map<Key, Counter>, key: Key): Option<Counter> { if key in keys then Some(keys[key]) else None }

  /** What a row (rate, quota) puts in force: each of its limits if it is positive. */
  function InForce(row: Option<(int, int)>): (limits: (int, int))
    ensures limits.0 > 0 && limits.1 > 0
    ensures row.Some? && row.value.0 > 0 ==> limits.0 == row.value.0
    ensures row.Some? && row.value.1 > 0 ==> limits.1 == row.value.1
    ensures row.None? || row.value.0 <= 0 ==> limits.0 == 100
    ensures row.None? || row.value.1 <= 0 ==> limits.1 == 50000
  {
    match row
    case None => (100, 50000)
    case Some((r, q)) => (if r > 0 then r else 100, if q > 0 then q else 50000)
  }

  /** The key after one AllowKey call: incremented, and given its time-to-live when the call created it. */
  function KeyAfter(key: Option<Counter>, now: int, window: int, expireOk: bool): Counter {
    var c := Incr(key, now);
    if c.count == 1 && expireOk then Counter(1, Some(now + window)) else c
  }

  function Verdict(key: Option<Counter>, now: int, limit: int, expireOk: bool): Answer {
    var c := Incr(key, now);
    if c.count == 1 && !expireOk then Failed else if c.count <= limit then Admitted else Denied
  }

  /** One AllowKey call is one Hit, followed by a Ttl when it created the key and the EXPIRE arrived; an
      admitted call is a grant of the trace. */
  lemma AllowKeyIsCommands(window: int, tr: Trace, now: int, limit: int, expireOk: bool)
    requires window > 0 && Sound(window, tr) && tr.clock <= now
    ensures var hit := Step(window, tr, Hit(now, limit));
            var after := if Incr(tr.key, now).count == 1 && expireOk then Step(window, hit, Ttl(now)) else hit;
            && after.key == Some(KeyAfter(tr.key, now, window, expireOk))
            && (Verdict(tr.key, now, limit, expireOk) == Admitted ==> |after.grants| == |tr.grants| + 1 && after.grants[|tr.grants|].limit == limit)
            && (Verdict(tr.key, now, limit, expireOk) == Denied ==> after.grants == tr.grants)
  {
  }

  /** One call of `Allow`: its time and UTC day, and which Redis commands succeed. */
  datatype Call = Call(tenant: string, channel: string, now: int, day: int,
                       rateIncr: bool, rateExpire: bool, dailyIncr: bool, dailyExpire: bool)

  function KeyCall(keys: map<Key, Counter>, key: Key, limit: int, window: int, now: int, incrOk: bool, expireOk: bool): (map<Key, Counter>, Answer) {
    if !incrOk then (keys, Failed)
    else (keys[key := KeyAfter(Lookup(keys, key), now, window, expireOk)], Verdict(Lookup(keys, key), now, limit, expireOk))
  }

  /** The tenant's per-second key first, the channel's day key only when that admits. */
  function AllowCall(keys: map<Key, Counter>, rate: int, quota: int, c: Call): (map<Key, Counter>, Answer) {
    if c.tenant == "" || c.channel == "" then (keys, Denied)
    else
      var (keys', a) := KeyCall(keys, RateKey(c.tenant), rate, SECOND, c.now, c.rateIncr, c.rateExpire);
      if a != Admitted then (keys', a)
      else KeyCall(keys', DailyKey(c.tenant, c.channel, c.day), quota, DAY, c.now, c.dailyIncr, c.dailyExpire)
  }

  /** What a key has counted in its present life. */
  function Uses(keys: map<Key, Counter>, key: Key, now: int): nat {
    if IsLive(Lookup(keys, key), now) then keys[key].count else 0
  }

  /** A call passes exactly when every command it needs succeeds and neither key is used up; it is denied exactly
      when a key is used up before a command fails. The day's count is only touched past the rate key. */
  lemma AllowedIff(keys: map<Key, Counter>, rate: int, quota: int, c: Call)
    ensures var (after, a) := AllowCall(keys, rate, quota, c); var dayKey := DailyKey(c.tenant, c.channel, c.day);
            var n, m := Uses(keys, RateKey(c.tenant), c.now), Uses(keys, dayKey, c.now);
            var named, within := c.tenant != "" && c.channel != "", c.rateIncr && (n > 0 || c.rateExpire) && n < rate;
            && (a == Admitted <==> named && within && c.dailyIncr && (m > 0 || c.dailyExpire) && m < quota)
            && (a == Denied <==> !named || (c.rateIncr && (n > 0 || c.rateExpire) && n >= rate)
                                 || (within && c.dailyIncr && (m > 0 || c.dailyExpire) && m >= quota))
            && (Lookup(after, dayKey) != Lookup(keys, dayKey) ==> named && within && c.dailyIncr)
  {
  }

  /** The counters after some calls, with the limits of one row in force. */
  function KeysAfter(keys: map<Key, Counter>, rate: int, quota: int, calls: seq<Call>): map<Key, Counter>
    decreases |calls|
  {
    if calls == [] then keys
    else AllowCall(KeysAfter(keys, rate, quota, calls[..|calls| - 1]), rate, quota, calls[|calls| - 1]).0
  }

  /** The answer to the i-th call. */
  function AnswerTo(keys: map<Key, Counter>, rate: int, quota: int, calls: seq<Call>, i: nat): Answer
    requires i < |calls|
  {
    AllowCall(KeysAfter(keys, rate, quota, calls[..i]), rate, quota, calls[i]).1
  }

  predicate Concerns(c: Call, key: Key) { key == RateKey(c.tenant) || key == DailyKey(c.tenant, c.channel, c.day) }

  /** The calls admitted from place i up to place j of the tenant, or of the channel on the day, the key stands for. */
  function AdmittedCalls(keys: map<Key, Counter>, rate: int, quota: int, calls: seq<Call>, key: Key, i: nat, j: nat): nat
    requires i <= j <= |calls|
    decreases j
  {
    if i == j then 0
    else
      AdmittedCalls(keys, rate, quota, calls, key, i, j - 1) +
      if Concerns(calls[j - 1], key) && AnswerTo(keys, rate, quota, calls, j - 1) == Admitted then 1 else 0
  }

  /** The key as a call finds it. */
  function Found(keys: map<Key, Counter>, rate: int, quota: int, calls: seq<Call>, key: Key, i: nat): Option<Counter>
    requires i <= |calls|
  {
    Lookup(KeysAfter(keys, rate, quota, calls[..i]), key)
  }

  /** After the first of them, none of the calls finds that the key has run out. */
  ghost predicate OneLife(keys: map<Key, Counter>, rate: int, quota: int, calls: seq<Call>, key: Key, i: nat, j: nat)
    requires i <= j <= |calls|
  {
    forall k | i < k < j && Concerns(calls[k], key) ::
      Found(keys, rate, quota, calls, key, k).None? || IsLive(Found(keys, rate, quota, calls, key, k), calls[k].now)
  }

  function LimitOf(rate: int, quota: int, key: Key): int { if key.RateKey? then rate else quota }

  function CountOf(key: Option<Counter>): nat { if key.Some? then key.value.count else 0 }

  /** One call moves a key by one use or not at all; if it is admitted, the key it moved is within its limit. */
  lemma CallMoves(keys: map<Key, Counter>, rate: int, quota: int, c: Call, key: Key)
    ensures var (after, a) := AllowCall(keys, rate, quota, c);
            var was, now := Lookup(keys, key), Lookup(after, key);
            && (now == was || (Concerns(c, key) && now.Some? && now.value.count == Incr(was, c.now).count
                               && (now.value.expiry == Incr(was, c.now).expiry
                                   || (now.value.count == 1 && now.value.expiry == Some(c.now + if key.RateKey? then 1_000_000_000 else 86_400_000_000_000)))))
            && (a == Admitted && Concerns(c, key) ==>
                  now.Some? && now.value.count == Incr(was, c.now).count <= LimitOf(rate, quota, key))
  {
  }

  lemma FoundNext(keys: map<Key, Counter>, rate: int, quota: int, calls: seq<Call>, key: Key, i: nat)
    requires i < |calls|
    ensures Found(keys, rate, quota, calls, key, i + 1) ==
            Lookup(AllowCall(KeysAfter(keys, rate, quota, calls[..i]), rate, quota, calls[i]).0, key)
  {
    assert calls[..i + 1][..i] == calls[..i] && calls[..i + 1][i] == calls[i];
  }

  lemma {:induction false} LifeAdmits(keys: map<Key, Counter>, rate: int, quota: int, calls: seq<Call>, key: Key, i: nat, j: nat)
    requires i <= j <= |calls| && OneLife(keys, rate, quota, calls, key, i, j)
    ensures var n := AdmittedCalls(keys, rate, quota, calls, key, i, j);
            n <= CountOf(Found(keys, rate, quota, calls, key, j)) && (n > 0 ==> n <= LimitOf(rate, quota, key))
    decreases j
  {
    if i < j {
      hide AllowCall, KeysAfter;
      LifeAdmits(keys, rate, quota, calls, key, i, j - 1);
      FoundNext(keys, rate, quota, calls, key, j - 1);
      CallMoves(KeysAfter(keys, rate, quota, calls[..j - 1]), rate, quota, calls[j - 1], key);
    }
  }

  /** Under one row (rate, quota), whatever channels are called and whatever Redis commands fail: of any stretch of
      calls in which a tenant's rate key does not run out, at most `rate` of the tenant's are admitted. */
  lemma RateHolds(keys: map<Key, Counter>, rate: nat, quota: int, calls: seq<Call>, tenant: string, i: nat, j: nat)
    requires i <= j <= |calls| && OneLife(keys, rate, quota, calls, RateKey(tenant), i, j)
    ensures AdmittedCalls(keys, rate, quota, calls, RateKey(tenant), i, j) <= rate
  {
    LifeAdmits(keys, rate, quota, calls, RateKey(tenant), i, j);
  }

  /** The calls stamped with the day are made within it. */
  predicate WithinDay(calls: seq<Call>, day: int, start: int) {
    forall i | 0 <= i < |calls| && calls[i].day == day :: start <= calls[i].now < start + 86_400_000_000_000
  }

  /** The day's key outlives the day. */
  predicate Outlives(key: Option<Counter>, start: int) {
    key.Some? && key.value.expiry.Some? ==> start + 86_400_000_000_000 <= key.value.expiry.value
  }

  lemma {:induction false} DayKeyLives(keys: map<Key, Counter>, rate: int, quota: int, calls: seq<Call>, key: Key, start: int, i: nat)
    requires key.DailyKey? && Outlives(Lookup(keys, key), start) && WithinDay(calls, key.day, start) && i <= |calls|
    ensures Outlives(Found(keys, rate, quota, calls, key, i), start)
    decreases i
  {
    if i > 0 {
      hide AllowCall;
      DayKeyLives(keys, rate, quota, calls, key, start, i - 1);
      FoundNext(keys, rate, quota, calls, key, i - 1);
      CallMoves(KeysAfter(keys, rate, quota, calls[..i - 1]), rate, quota, calls[i - 1], key);
    } else {
      assert calls[..0] == [];
    }
  }

  /** And of all the calls of a channel on one day, at most `quota` are admitted. */
  lemma QuotaHolds(keys: map<Key, Counter>, rate: int, quota: nat, calls: seq<Call>, tenant: string, channel: string, day: int, start: int)
    requires WithinDay(calls, day, start) && Outlives(Lookup(keys, DailyKey(tenant, channel, day)), start)
    ensures AdmittedCalls(keys, rate, quota, calls, DailyKey(tenant, channel, day), 0, |calls|) <= quota
  {
    var key := DailyKey(tenant, channel, day);
    forall k | 0 < k < |calls| && Concerns(calls[k], key)
      ensures var c := Found(keys, rate, quota, calls, key, k); c.None? || IsLive(c, calls[k].now)
    {
      DayKeyLives(keys, rate, quota, calls, key, start, k);
    }
    LifeAdmits(keys, rate, quota, calls, key, 0, |calls|);
  }

  class Limiter {
    const hasDb: bool
    var keys: map<Key, Counter>                       // Redis
    var cache: map<(string, string), Limits>

    constructor (hasDb: bool)
      ensures this.hasDb == hasDb && keys == map[] && cache == map[]
    {
      this.hasDb := hasDb;
      keys, cache := map[], map[];
    }

    /** `AllowKey`: INCR, then EXPIRE if this call created the key. */
    method AllowKey(key: Key, limit: int, window: int, now: int, incrOk: bool, expireOk: bool) returns (r: Answer)
      modifies this`keys
      ensures (keys, r) == KeyCall(old(keys), key, limit, window, now, incrOk, expireOk)
    {
      if !incrOk {
        return Failed;
      }
      var c := Incr(Lookup(keys, key), now);
      keys := keys[key := c];
      if c.count == 1 {
        if !expireOk {
          return Failed;
        }
        keys := keys[key := c.(expiry := Some(now + window))];
        assert keys == old(keys)[key := KeyAfter(Lookup(old(keys), key), now, window, true)];
      }
      return if c.count <= limit then Admitted else Denied;
    }

    /** `loadLimits`: a cache entry younger than five minutes, or the database row, with 100 a second and 50000 a
        day in place of a limit that is missing or not positive. */
    method LoadLimits(tenant: string, channel: string, now: int, row: Option<(int, int)>) returns (rate: int, quota: int)
      modifies this`cache
      ensures !hasDb ==> (rate, quota) == (100, 50000) && cache == old(cache)
      ensures hasDb && (tenant, channel) in old(cache) && now - old(cache)[(tenant, channel)].fetched < 300_000_000_000 ==>
                (rate, quota) == (old(cache)[(tenant, channel)].rate, old(cache)[(tenant, channel)].quota) && cache == old(cache)
      ensures hasDb && !((tenant, channel) in old(cache) && now - old(cache)[(tenant, channel)].fetched < 300_000_000_000) ==>
                && (rate, quota) == InForce(row)
                && cache == old(cache)[(tenant, channel) := Limits(rate, quota, now)]
      ensures (forall k <- old(cache) :: old(cache)[k].rate > 0 && old(cache)[k].quota > 0) ==>
                rate > 0 && quota > 0 && forall k <- cache :: cache[k].rate > 0 && cache[k].quota > 0
    {
      if !hasDb {
        return 100, 50000;
      }
      if (tenant, channel) in cache && now - cache[(tenant, channel)].fetched < CACHE_LIFE {
        var cached := cache[(tenant, channel)];
        return cached.rate, cached.quota;
      }
      rate, quota := 100, 50000;
      if row.Some? {
        rate, quota := row.value.0, row.value.1;
      }
      if rate <= 0 {
        rate := 100;
      }
      if quota <= 0 {
        quota := 50000;
      }
      cache := cache[(tenant, channel) := Limits(rate, quota, now)];
    }

    /** The limits a call meets: those cached in the last five minutes, or else those of the row. */
    ghost function Effective(c: Call, row: Option<(int, int)>): (int, int)
      reads this
    {
      var k := (c.tenant, c.channel);
      if !hasDb then (100, 50000)
      else if k in cache && c.now - cache[k].fetched < 300_000_000_000 then (cache[k].rate, cache[k].quota)
      else InForce(row)
    }

    /** `Allow`: the tenant's per-second key first, the channel's day key only when that admits. */
    method Allow(c: Call, row: Option<(int, int)>) returns (r: Answer)
      modifies this
      ensures (keys, r) == AllowCall(old(keys), old(Effective(c, row)).0, old(Effective(c, row)).1, c)
      ensures forall k <- cache :: (k in old(cache) && cache[k] == old(cache)[k]) || (cache[k].rate, cache[k].quota) == InForce(row)
    {
      if c.tenant == "" || c.channel == "" {
        return Denied;
      }
      var ratePS, dailyQuota := LoadLimits(c.tenant, c.channel, c.now, row);
      r := AllowKey(RateKey(c.tenant), ratePS, SECOND, c.now, c.rateIncr, c.rateExpire);
      if r != Admitted {
        return;
      }
      r := AllowKey(DailyKey(c.tenant, c.channel, c.day), dailyQuota, DAY, c.now, c.dailyIncr, c.dailyExpire);
    }

    /** Any calls under one constant row, from any counters and with nothing but that row cached: what is admitted
        stays within the row's rate in each life of the rate key, and within its quota on each day. */
    method AllowAll(calls: seq<Call>, row: Option<(int, int)>) returns (answers: seq<Answer>)
      requires hasDb && forall k <- cache :: (cache[k].rate, cache[k].quota) == InForce(row)
      modifies this
      ensures |answers| == |calls|
      ensures var rate, quota := InForce(row).0, InForce(row).1;
              && keys == KeysAfter(old(keys), rate, quota, calls)
              && (forall i | 0 <= i < |calls| :: answers[i] == AnswerTo(old(keys), rate, quota, calls, i))
              && (forall tenant, i: nat, j: nat | i <= j <= |calls| && OneLife(old(keys), rate, quota, calls, RateKey(tenant), i, j) ::
                    AdmittedCalls(old(keys), rate, quota, calls, RateKey(tenant), i, j) <= rate)
              && (forall key: Key, start | key.DailyKey? && WithinDay(calls, key.day, start) && Lookup(old(keys), key) == None ::
                    AdmittedCalls(old(keys), rate, quota, calls, key, 0, |calls|) <= quota)
    {
      hide AllowCall, OneLife, WithinDay;
      answers := [];
      ghost var start, rate, quota := keys, InForce(row).0, InForce(row).1;
      assert calls[..0] == [];
      for n := 0 to |calls|
        invariant |answers| == n && keys == KeysAfter(start, rate, quota, calls[..n])
        invariant forall k <- cache :: (cache[k].rate, cache[k].quota) == InForce(row)
        invariant forall i | 0 <= i < n :: answers[i] == AnswerTo(start, rate, quota, calls, i)
      {
        assert calls[..n + 1][..n] == calls[..n] && calls[..n + 1][n] == calls[n];
        var r := Allow(calls[n], row);
        answers := answers + [r];
      }
      assert calls[..|calls|] == calls;
      forall tenant, i: nat, j: nat | i <= j <= |calls| && OneLife(start, rate, quota, calls, RateKey(tenant), i, j)
        ensures AdmittedCalls(start, rate, quota, calls, RateKey(tenant), i, j) <= rate
      {
        RateHolds(start, rate, quota, calls, tenant, i, j);
      }
      forall key: Key, from | key.DailyKey? && WithinDay(calls, key.day, from) && Lookup(start, key) == None
        ensures AdmittedCalls(start, rate, quota, calls, key, 0, |calls|) <= quota
      {
        QuotaHolds(start, rate, quota, calls, key.tenant, key.channel, key.day, from);
      }
    }
  }
}
