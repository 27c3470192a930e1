/** One browser tab against the session server: the client's single flight (api/client.ts) and the server's
    rotation (auth/auth.go) together, with replies that can get lost. */
module TabWithServer {
  import opened Common
  import Sessions
  import BrowserTab

  type Token = string

  /** The server's sessions, the tab, and the server's reply to the refresh in flight, once it has one. */
  datatype World = World(store: Sessions.Store, tab: BrowserTab.Tab, reply: Option<Option<Token>>)

  datatype Event =
    | Unauthorized
    | Serve(op: Sessions.Op)     // the server handles the refresh in flight
    | Deliver                    // its reply arrives
    | Lose                       // the reply is lost on the way
    | Drop                       // the refresh never reaches the server
    | Settle
    | SignIn(op: Sessions.Op)
    | SignOut(reached: bool)     // logout, with or without the server hearing of it
    | Others(op: Sessions.Op)    // requests with tokens this tab never had

  const BEGIN := World(map[], BrowserTab.FRESH, None)

  predicate CanHappen(w: World, e: Event) {
    match e
    case Unauthorized => true
    case Serve(op) =>
      w.tab.request.InFlight? && w.reply == None && op.Refresh? && op.token == w.tab.request.token && Sessions.DrawsFresh(w.store, op)
    case Deliver => w.tab.request.InFlight? && w.reply.Some?
    case Lose => w.tab.request.InFlight? && w.reply.Some?
    case Drop => w.tab.request.InFlight? && w.reply == None
    case Settle => w.tab.request.Answered?
    case SignIn(op) => op.Login? && op.insertOk && Sessions.DrawsFresh(w.store, op)
    case SignOut(_) => w.tab.stored.Some?
    case Others(op) =>
      Sessions.DrawsFresh(w.store, op) && (op.Login? || (op.token !in w.tab.seen && w.reply != Some(Some(op.token))))
  }

  /** Tokens the tab knows are the server's; a token in the reply is new to it, and took the place of the one
      submitted. */
  predicate Known(w: World) {
    && (forall t <- w.tab.seen :: t in w.store)
    && (w.reply.Some? ==> w.tab.request.InFlight?)
    && (w.reply.Some? && w.reply.value.Some? ==>
          && w.reply.value.value !in w.tab.seen && w.reply.value.value in w.store
          && w.tab.request.token in w.store && !IsActive(w.store, w.tab.request.token))
    && BrowserTab.Inv(w.tab)
  }

  predicate IsActive(store: Sessions.Store, t: Token) { t in store && store[t].status == Sessions.Active }

  function After(w: World, e: Event): (next: World)
    requires Known(w) && CanHappen(w, e)
    ensures Known(next)
  {
    match e
    case Unauthorized =>
      World(w.store, BrowserTab.After(w.tab, BrowserTab.Unauthorized), if BrowserTab.Decide(w.tab).Sent? then None else w.reply)
    case Serve(op) => w.(store := Sessions.After(w.store, op), reply := Some(Sessions.Refreshed(w.store, op)))
    case Deliver => w.(tab := BrowserTab.After(w.tab, BrowserTab.Response(w.reply.value)), reply := None)
    case Lose => w.(tab := BrowserTab.After(w.tab, BrowserTab.Response(None)), reply := None)
    case Drop => w.(tab := BrowserTab.After(w.tab, BrowserTab.Response(None)))
    case Settle => w.(tab := BrowserTab.After(w.tab, BrowserTab.Finally))
    case SignIn(op) => w.(store := Sessions.After(w.store, op), tab := BrowserTab.After(w.tab, BrowserTab.LoggedIn(op.token)))
    case SignOut(reached) =>
      w.(store := Sessions.After(w.store, Sessions.Logout(w.tab.stored.value, reached)),
         tab := BrowserTab.After(w.tab, BrowserTab.Clear))
    case Others(op) => w.(store := Sessions.After(w.store, op))
  }

  predicate Possible(w: World, events: seq<Event>)
    requires Known(w)
    decreases |events|
  {
    events == [] || (CanHappen(w, events[0]) && Possible(After(w, events[0]), events[1..]))
  }

  function Run(w: World, events: seq<Event>): World
    requires Known(w) && Possible(w, events)
    decreases |events|
  {
    if events == [] then w else Run(After(w, events[0]), events[1..])
  }

  /** Nothing goes wrong between rotation and reply: the new session is stored and the reply arrives. */
  predicate Faultless(e: Event) { !e.Lose? && (e.Serve? && e.op.Refresh? && e.op.rotateOk ==> e.op.insertOk) }

  /** The token in the reply is active, and so is the stored one unless it is the one just rotated for it. */
  predicate Good(w: World) {
    && (w.reply.Some? && w.reply.value.Some? ==> IsActive(w.store, w.reply.value.value))
    && (w.tab.stored.Some? ==>
          || IsActive(w.store, w.tab.stored.value)
          || (w.reply.Some? && w.reply.value.Some? && w.tab.request == BrowserTab.InFlight(w.tab.stored.value)))
  }

  lemma StepKeepsGood(w: World, e: Event)
    requires Known(w) && Good(w) && CanHappen(w, e) && Faultless(e)
    ensures Good(After(w, e))
  {
  }

  lemma {:induction false} RunKeepsGood(w: World, events: seq<Event>)
    requires Known(w) && Good(w) && Possible(w, events) && forall e <- events :: Faultless(e)
    ensures Known(Run(w, events)) && Good(Run(w, events))
    decreases |events|
  {
    if events != [] {
      StepKeepsGood(w, events[0]);
      RunKeepsGood(After(w, events[0]), events[1..]);
    }
  }

  /** As long as no reply is lost and no rotation loses its new session, whatever token the tab submits is
      accepted unless it has expired, the user is gone or the database fails. */
  lemma SubmittedTokenIsAccepted(events: seq<Event>, op: Sessions.Op)
    requires Possible(BEGIN, events) && forall e <- events :: Faultless(e)
    requires op.Refresh? && BrowserTab.Decide(Run(BEGIN, events).tab) == BrowserTab.Sent(op.token)
    ensures var store := Run(BEGIN, events).store;
            op.token in store &&
            (Sessions.Refreshed(store, op).Some? <==>
              store[op.token].expires > op.now && op.userActive && op.readsOk && op.rotateOk && op.insertOk)
  {
    RunKeepsGood(BEGIN, events);
  }

  /** One lost reply to a successful refresh is enough to end the session: if the tab still holds the token
      it submitted, no request of anybody makes the server accept it again. */
  lemma LostReplyEndsSession(w: World, ops: seq<Sessions.Op>, op: Sessions.Op)
    requires Known(w) && CanHappen(w, Lose) && w.reply.value.Some?
    requires w.tab.stored == Some(w.tab.request.token) && op.Refresh? && op.token == w.tab.request.token
    requires Sessions.Legal(w.store, ops)
    ensures After(w, Lose).store == w.store && After(w, Lose).tab.stored == Some(op.token)
    ensures Sessions.Refreshed(Sessions.Run(w.store, ops), op) == None
  {
    Sessions.SpentTokenNeverRefreshes(w.store, ops, op.token, op);
  }

  lemma RunFirst(w: World, e: Event, rest: seq<Event>)
    requires Known(w) && CanHappen(w, e) && Possible(After(w, e), rest)
    ensures Possible(w, [e] + rest) && Run(w, [e] + rest) == Run(After(w, e), rest)
  {
    assert ([e] + rest)[1..] == rest;
  }

  /** It happens: a login, a request that finds its access token expired, and a refresh that the server serves
      lead to a world in which losing the reply ends the session. */
  lemma LostReplyHappens(login: Sessions.Op, refresh: Sessions.Op) returns (events: seq<Event>)
    requires login.Login? && login.insertOk && login.trace != ""
    requires refresh.Refresh? && refresh.token == login.token != refresh.next && login.expires > refresh.now
    requires refresh.userActive && refresh.readsOk && refresh.rotateOk && refresh.insertOk
    ensures Possible(BEGIN, events) && (forall e <- events :: Faultless(e))
    ensures var w := Run(BEGIN, events);
            CanHappen(w, Lose) && w.reply == Some(Some(refresh.next)) && w.tab.stored == Some(w.tab.request.token)
  {
    var w1 := After(BEGIN, SignIn(login));
    assert w1.tab.stored == Some(login.token) && w1.store[login.token].status == Sessions.Active;
    var w2 := After(w1, Unauthorized);
    assert w2.tab.request == BrowserTab.InFlight(login.token) && w2.reply == None && w2.store == w1.store;
    var w3 := After(w2, Serve(refresh));
    var e3 := [Serve(refresh)] + [];
    var e2 := [Unauthorized] + e3;
    events := [SignIn(login)] + e2;
    RunFirst(w2, Serve(refresh), []);
    RunFirst(w1, Unauthorized, e3);
    RunFirst(BEGIN, SignIn(login), e2);
    assert Run(BEGIN, events) == Run(w3, []) == w3;
  }

  // ---------- signing out during a refresh ----------

  /** A refresh that can still bring the tab a token: its reply carries one, or the server has yet to see it
      and would accept it. */
  predicate CanReturn(w: World) {
    w.tab.request.InFlight? &&
    match w.reply
    case None => IsActive(w.store, w.tab.request.token)
    case Some(next) => next.Some?
  }

  predicate NoSignIn(events: seq<Event>) { forall e <- events :: !e.SignIn? }

  predicate SignedOut(w: World) { w.tab.stored.None? && !CanReturn(w) }

  lemma StepKeepsSignedOut(w: World, e: Event)
    requires Known(w) && CanHappen(w, e) && SignedOut(w) && !e.SignIn?
    ensures SignedOut(After(w, e))
  {
  }

  lemma {:induction false} StaysSignedOut(w: World, events: seq<Event>)
    requires Known(w) && SignedOut(w) && Possible(w, events) && NoSignIn(events)
    ensures Run(w, events).tab.stored.None?
    decreases |events|
  {
    if events != [] {
      StepKeepsSignedOut(w, events[0]);
      StaysSignedOut(After(w, events[0]), events[1..]);
    }
  }

  lemma {:induction false} LengthBound(s: set<string>) returns (n: nat)
    ensures forall x <- s :: |x| < n
  {
    if s == {} {
      n := 0;
    } else {
      var x :| x in s;
      var m := LengthBound(s - {x});
      n := if |x| < m then m else |x| + 1;
    }
  }

  /** The server can always draw a token it has not given out. */
  lemma FreshToken(store: Sessions.Store) returns (t: Token)
    ensures t !in store
  {
    var n := LengthBound(store.Keys);
    t := seq(n, _ => 'x');
  }

  /** A refresh in flight that can return does, in one or two more events, if nothing goes wrong. */
  lemma Returns(w: World) returns (events: seq<Event>)
    requires Known(w) && CanReturn(w)
    ensures Possible(w, events) && Run(w, events).tab.stored.Some? && NoSignIn(events)
    ensures Good(w) ==> IsActive(Run(w, events).store, Run(w, events).tab.stored.value)
  {
    if w.reply.Some? {
      events := [Deliver] + [];
      RunFirst(w, Deliver, []);
    } else {
      var token := w.tab.request.token;
      var next := FreshToken(w.store);
      var op := Sessions.Refresh(token, next, w.store[token].expires - 1, 0, true, true, true, true);
      var served := After(w, Serve(op));
      events := [Serve(op)] + ([Deliver] + []);
      RunFirst(served, Deliver, []);
      RunFirst(w, Serve(op), [Deliver] + []);
    }
  }

  /** A sign-out leaves the tab without a token for good, until somebody signs in, exactly when no refresh is
      in flight that can still return: the client stores a reply whatever happened since it asked. */
  lemma SignOutIsFinalIff(w: World, reached: bool)
    requires Known(w) && CanHappen(w, SignOut(reached))
    ensures var out := After(w, SignOut(reached));
            (forall events: seq<Event> | Possible(out, events) && NoSignIn(events) :: Run(out, events).tab.stored.None?)
            <==> !CanReturn(out)
  {
    var out := After(w, SignOut(reached));
    if CanReturn(out) {
      var events := Returns(out);
      assert Possible(out, events) && Run(out, events).tab.stored.Some?;
    } else {
      forall events: seq<Event> | Possible(out, events) && NoSignIn(events)
        ensures Run(out, events).tab.stored.None?
      {
        StaysSignedOut(out, events);
      }
    }
  }

  lemma {:induction false} StaysInactive(w: World, events: seq<Event>, t: Token)
    requires Known(w) && Possible(w, events) && t in w.store && !IsActive(w.store, t)
    ensures t in Run(w, events).store && !IsActive(Run(w, events).store, t)
    decreases |events|
  {
    if events != [] {
      StaysInactive(After(w, events[0]), events[1..], t);
    }
  }

  /** The token the tab held when the server heard of its sign-out is revoked, and nothing that follows makes
      it active again. */
  lemma SignOutEndsHeldToken(w: World, events: seq<Event>)
    requires Known(w) && CanHappen(w, SignOut(true)) && Possible(After(w, SignOut(true)), events)
    ensures var out := After(w, SignOut(true)); var t := w.tab.stored.value;
            && t in out.store && out.store[t].status == Sessions.Revoked && out.tab.stored == None
            && !IsActive(Run(out, events).store, t)
            && (forall u | u in w.store && u != t :: u in out.store && out.store[u] == w.store[u])
  {
    var out := After(w, SignOut(true));
    assert w.tab.stored.value in w.store;
    StaysInactive(out, events, w.tab.stored.value);
  }

  /** It can return: signing out while the reply to a served refresh is on its way, even if the server hears
      of the sign-out, ends with an active token in the tab. */
  lemma SignOutCanBeUndone(login: Sessions.Op, refresh: Sessions.Op) returns (events: seq<Event>)
    requires login.Login? && login.insertOk && login.trace != ""
    requires refresh.Refresh? && refresh.token == login.token != refresh.next && login.expires > refresh.now
    requires refresh.userActive && refresh.readsOk && refresh.rotateOk && refresh.insertOk
    ensures Possible(BEGIN, events) && |events| > 1 && events[|events| - 2] == SignOut(true) && events[|events| - 1] == Deliver
    ensures var w := Run(BEGIN, events); w.tab.stored == Some(refresh.next) && IsActive(w.store, refresh.next)
  {
    var w1 := After(BEGIN, SignIn(login));
    var w2 := After(w1, Unauthorized);
    assert w2.tab.request == BrowserTab.InFlight(login.token) && w2.reply == None && w2.store == w1.store;
    var w3 := After(w2, Serve(refresh));
    assert w3.tab.stored == Some(login.token) && w3.reply == Some(Some(refresh.next));
    var w4 := After(w3, SignOut(true));
    assert w4.reply == w3.reply && IsActive(w4.store, refresh.next);
    var e5 := [Deliver] + [];
    var e4 := [SignOut(true)] + e5;
    var e3 := [Serve(refresh)] + e4;
    var e2 := [Unauthorized] + e3;
    events := [SignIn(login)] + e2;
    RunFirst(w4, Deliver, []);
    RunFirst(w3, SignOut(true), e5);
    RunFirst(w2, Serve(refresh), e4);
    RunFirst(w1, Unauthorized, e3);
    RunFirst(BEGIN, SignIn(login), e2);
  }
}
