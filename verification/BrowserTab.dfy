/** The admin client's refresh handling in one browser tab (api/client.ts): concurrent requests that see a
    401 share one refresh. Each event is a stretch of JavaScript that runs without interruption. */
module BrowserTab {
  import opened Common

  type Token = string

  /** The module variable `refreshRequest`: no promise, one waiting for its response, or one whose result is
      known but whose `finally` has not run yet. */
  datatype Request = Idle | InFlight(token: Token) | Answered(refreshed: bool)

  /** The stored refresh token, the request, and the history: fetches sent and not yet answered, tokens
      whose refresh succeeded, and all tokens ever received; the callers that wait for the promise, and how
      many have been told to repeat their request or to give up. */
  datatype Tab = Tab(stored: Option<Token>, request: Request, pending: nat, spent: set<Token>, seen: set<Token>,
                     waiting: nat, repeated: nat, refused: nat)

  datatype Event =
    | Unauthorized                    // a request got a 401 and calls refreshAccessToken
    | Response(next: Option<Token>)   // the refresh fetch settles; None: failed or unusable
    | Finally                         // the promise's cleanup
    | Clear                           // clearAuthAndRedirect, or a logout
    | LoggedIn(token: Token)

  datatype Decision = NoToken | Joined | Sent(token: Token)

  /** `refreshAccessToken` up to its first await. */
  function Decide(tab: Tab): Decision {
    if tab.stored.None? then NoToken
    else if tab.request == Idle then Sent(tab.stored.value)
    else Joined
  }

  predicate CanHappen(tab: Tab, e: Event) {
    match e
    case Unauthorized => true
    case Response(next) => tab.request.InFlight? && (next.Some? ==> next.value !in tab.seen)
    case Finally => tab.request.Answered?
    case Clear => true
    case LoggedIn(token) => token !in tab.seen
  }

  function After(tab: Tab, e: Event): Tab
    requires CanHappen(tab, e)
  {
    match e
    case Unauthorized =>
      (match Decide(tab)
       case Sent(token) => tab.(request := InFlight(token), pending := tab.pending + 1, waiting := tab.waiting + 1)
       case Joined => tab.(waiting := tab.waiting + 1)
       case NoToken => tab)
    case Response(next) =>
      var settled := tab.(request := Answered(next.Some?), pending := if tab.pending > 0 then tab.pending - 1 else 0);
      if next.None? then settled
      else settled.(stored := next, spent := tab.spent + {tab.request.token}, seen := tab.seen + {next.value})
    case Finally =>
      var told := tab.(request := Idle, waiting := 0);
      if tab.request.refreshed then told.(repeated := tab.repeated + tab.waiting) else told.(refused := tab.refused + tab.waiting)
    case Clear => tab.(stored := None)
    case LoggedIn(token) => tab.(stored := Some(token), seen := tab.seen + {token})
  }

  const FRESH := Tab(None, Idle, 0, {}, {}, 0, 0, 0)

  predicate Possible(tab: Tab, events: seq<Event>)
    decreases |events|
  {
    events == [] || (CanHappen(tab, events[0]) && Possible(After(tab, events[0]), events[1..]))
  }

  function Run(tab: Tab, events: seq<Event>): Tab
    requires Possible(tab, events)
    decreases |events|
  {
    if events == [] then tab else Run(After(tab, events[0]), events[1..])
  }

  predicate Inv(tab: Tab) {
    && tab.pending == (if tab.request.InFlight? then 1 else 0)
    && tab.spent <= tab.seen
    && (tab.stored.Some? ==> tab.stored.value in tab.seen && tab.stored.value !in tab.spent)
    && (tab.request.InFlight? ==> tab.request.token in tab.seen && tab.request.token !in tab.spent)
    && (tab.waiting == 0 <==> tab.request == Idle)
  }

  lemma {:induction false} RunKeepsInv(tab: Tab, events: seq<Event>)
    requires Inv(tab) && Possible(tab, events)
    ensures Inv(Run(tab, events))
    decreases |events|
  {
    if events != [] {
      RunKeepsInv(After(tab, events[0]), events[1..]);
    }
  }

  lemma {:induction false} OutcomeStays(tab: Tab, between: seq<Event>)
    requires tab.request.Answered? && Possible(tab, between) && Finally !in between
    ensures var mid := Run(tab, between);
            mid.request == tab.request && mid.waiting >= tab.waiting && mid.repeated == tab.repeated && mid.refused == tab.refused
    decreases |between|
  {
    if between != [] {
      OutcomeStays(After(tab, between[0]), between[1..]);
    }
  }

  /** All who wait for a refresh, and those who join until its promise is cleaned up, are told the same: to repeat
      their request if the refresh brought a token, to give up if not. The next request can then send another. */
  lemma CallersShareOneAnswer(tab: Tab, next: Option<Token>, between: seq<Event>)
    requires Inv(tab) && CanHappen(tab, Response(next)) && Finally !in between && Possible(After(tab, Response(next)), between)
    ensures CanHappen(Run(After(tab, Response(next)), between), Finally)
    ensures var mid := Run(After(tab, Response(next)), between); var end := After(mid, Finally);
            && mid.waiting >= tab.waiting > 0 && end.waiting == 0
            && end.repeated == tab.repeated + (if next.Some? then mid.waiting else 0)
            && end.refused == tab.refused + (if next.Some? then 0 else mid.waiting)
            && (end.stored.Some? ==> Decide(end) == Sent(end.stored.value))
  {
    OutcomeStays(After(tab, Response(next)), between);
  }

  /** The calls that found a token to refresh with. */
  function Calls(tab: Tab, events: seq<Event>): nat
    requires Possible(tab, events)
    decreases |events|
  {
    if events == [] then 0
    else (if events[0].Unauthorized? && tab.stored.Some? then 1 else 0) + Calls(After(tab, events[0]), events[1..])
  }

  /** Each of them waits or has been told its answer, once. */
  lemma {:induction false} CallersAreAnsweredOnce(tab: Tab, events: seq<Event>)
    requires Possible(tab, events)
    ensures var end := Run(tab, events);
            end.waiting + end.repeated + end.refused == tab.waiting + tab.repeated + tab.refused + Calls(tab, events)
    decreases |events|
  {
    if events != [] {
      CallersAreAnsweredOnce(After(tab, events[0]), events[1..]);
    }
  }

  function SubmittedBy(tab: Tab, e: Event): seq<Token> {
    if e.Unauthorized? && Decide(tab).Sent? then [Decide(tab).token] else []
  }

  /** The tokens submitted for a refresh, in order. */
  function SentIn(tab: Tab, events: seq<Event>): seq<Token>
    requires Possible(tab, events)
    decreases |events|
  {
    if events == [] then []
    else SubmittedBy(tab, events[0]) + SentIn(After(tab, events[0]), events[1..])
  }

  /** No token is submitted after a refresh with it has succeeded. */
  lemma {:induction false} SpentOnlyGrows(tab: Tab, events: seq<Event>)
    requires Inv(tab) && Possible(tab, events)
    ensures tab.spent <= Run(tab, events).spent
    ensures forall t <- SentIn(tab, events) :: t !in tab.spent
    decreases |events|
  {
    if events != [] {
      SpentOnlyGrows(After(tab, events[0]), events[1..]);
    }
  }

  function Responses(events: seq<Event>): nat {
    if events == [] then 0 else (if events[0].Response? then 1 else 0) + Responses(events[1..])
  }

  lemma {:induction false} FetchesAreAnswered(tab: Tab, events: seq<Event>)
    requires Inv(tab) && Possible(tab, events)
    ensures tab.pending + |SentIn(tab, events)| == Responses(events) + Run(tab, events).pending
    decreases |events|
  {
    if events != [] {
      FetchesAreAnswered(After(tab, events[0]), events[1..]);
    }
  }

  /** Over any interleaving at most one refresh is in flight: no more are sent than have been answered, and one. */
  lemma RefreshIsSingleFlight(events: seq<Event>)
    requires Possible(FRESH, events)
    ensures var tab := Run(FRESH, events); var unanswered := |SentIn(FRESH, events)| - Responses(events);
            && 0 <= unanswered <= 1
            && (unanswered == 1 <==> tab.request.InFlight?)
            && tab.pending == unanswered
            && (Decide(tab).Sent? ==> unanswered == 0 && Decide(tab).token !in tab.spent)
  {
    RunKeepsInv(FRESH, events);
    FetchesAreAnswered(FRESH, events);
  }

  /** A token whose refresh has succeeded is never submitted again, whatever happens in the tab. */
  lemma SpentTokenIsNeverSent(before: seq<Event>, next: Token, later: seq<Event>)
    requires Possible(FRESH, before) && CanHappen(Run(FRESH, before), Response(Some(next)))
    requires Possible(After(Run(FRESH, before), Response(Some(next))), later)
    ensures var tab := Run(FRESH, before); tab.request.token !in SentIn(After(tab, Response(Some(next))), later)
  {
    RunKeepsInv(FRESH, before);
    SpentOnlyGrows(After(Run(FRESH, before), Response(Some(next))), later);
  }

  class Client {
    var stored: Option<Token>
    var request: Request
    ghost var pending: nat
    ghost var spent: set<Token>
    ghost var seen: set<Token>
    ghost var waiting: nat
    ghost var repeated: nat
    ghost var refused: nat

    ghost function View(): Tab
      reads this
    {
      Tab(stored, request, pending, spent, seen, waiting, repeated, refused)
    }

    constructor ()
      ensures View() == FRESH
    {
      stored, request, pending, spent, seen, waiting, repeated, refused := None, Idle, 0, {}, {}, 0, 0, 0;
    }

    /** `refreshAccessToken`: sends a fetch only when no refresh is under way. */
    method RefreshAccessToken() returns (d: Decision)
      modifies this
      ensures View() == After(old(View()), Unauthorized) && d == Decide(old(View()))
    {
      if stored.None? {
        return NoToken;
      }
      waiting := waiting + 1;
      if request != Idle {
        return Joined;
      }
      request, pending := InFlight(stored.value), pending + 1;
      return Sent(stored.value);
    }

    /** The promise's `then` and `catch`. */
    method OnResponse(next: Option<Token>)
      requires CanHappen(View(), Response(next))
      modifies this
      ensures View() == After(old(View()), Response(next))
    {
      pending := if pending > 0 then pending - 1 else 0;
      if next.Some? {
        spent, seen := spent + {request.token}, seen + {next.value};
        stored := next;
      }
      request := Answered(next.Some?);
    }

    /** The promise's `finally`, and the value its callers then receive. */
    method OnSettled() returns (refreshed: bool)
      requires request.Answered?
      modifies this
      ensures View() == After(old(View()), Finally) && refreshed == old(request).refreshed
    {
      refreshed := request.refreshed;
      repeated := repeated + if refreshed then waiting else 0;
      refused := refused + if refreshed then 0 else waiting;
      request, waiting := Idle, 0;
    }

    /** `clearAuthAndRedirect`. */
    method ClearAuth()
      modifies this
      ensures View() == After(old(View()), Clear)
    {
      stored := None;
    }

    /** A login stores its token, whatever refresh is under way. */
    method OnLoggedIn(token: Token)
      requires token !in seen
      modifies this
      ensures View() == After(old(View()), LoggedIn(token))
    {
      stored, seen := Some(token), seen + {token};
    }

    method Handle(e: Event) returns (sent: seq<Token>)
      requires CanHappen(View(), e)
      modifies this
      ensures View() == After(old(View()), e) && sent == SubmittedBy(old(View()), e)
    {
      sent := [];
      match e
      case Unauthorized =>
        var d := RefreshAccessToken();
        sent := if d.Sent? then [d.token] else [];
      case Response(next) => OnResponse(next);
      case Finally => var _ := OnSettled();
      case Clear => ClearAuth();
      case LoggedIn(token) => OnLoggedIn(token);
    }

    /** Everything that happens in the tab, in whatever order the event loop takes it: the state stays sound,
        the refreshes sent are those of the specification, none with a token a refresh had used up before. */
    method RunEvents(events: seq<Event>) returns (sent: seq<Token>)
      requires Inv(View()) && Possible(View(), events)
      modifies this
      ensures Inv(View()) && View() == Run(old(View()), events)
      ensures sent == SentIn(old(View()), events)
      ensures forall t <- sent :: t !in old(spent)
    {
      hide Inv, After, CanHappen, SubmittedBy;
      ghost var start := View();
      SpentOnlyGrows(start, events);
      RunKeepsInv(start, events);
      sent := [];
      assert events[0..] == events;
      for i := 0 to |events|
        invariant Possible(View(), events[i..])
        invariant Run(View(), events[i..]) == Run(start, events)
        invariant sent + SentIn(View(), events[i..]) == SentIn(start, events)
      {
        assert events[i..][0] == events[i] && events[i..][1..] == events[i + 1..];
        ghost var tab := View();
        var more := Handle(events[i]);
        assert SentIn(tab, events[i..]) == more + SentIn(View(), events[i + 1..]);
        sent := sent + more;
      }
      assert events[|events|..] == [];
    }
  }
}
