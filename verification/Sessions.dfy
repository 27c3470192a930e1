/** Refresh-token rotation on the server (auth/auth.go): sessions keyed by their token, grouped into
    lineages by trace id. Tokens stand for their hashes. */
module Sessions {
  import opened Common

  type Token = string

  datatype Status = Active | Rotated | Revoked
  datatype Session = Session(user: string, trace: string, status: Status, expires: int)
  type Store = map<Token, Session>

  /** One request, with the random token it draws and the database operations that succeed. */
  datatype Op =
    | Login(user: string, token: Token, trace: string, expires: int, insertOk: bool)
    | Refresh(token: Token, next: Token, now: int, expires: int, userActive: bool, readsOk: bool, rotateOk: bool, insertOk: bool)
    | Logout(token: Token, dbOk: bool)

  /** Random tokens and trace ids are new. */
  predicate DrawsFresh(s: Store, op: Op) {
    match op
    case Login(_, token, trace, _, _) => token !in s && trace != "" && forall t | t in s :: s[t].trace != trace
    case Refresh(token, next, _, _, _, _, _, _) => next !in s && next != token
    case Logout(_, _) => true
  }

  /** The query of `Refresh` finds an unexpired active session of an active user. */
  predicate Finds(s: Store, op: Op)
    requires op.Refresh?
  {
    op.token in s && s[op.token].status == Active && s[op.token].expires > op.now && op.userActive
  }

  function Refreshed(s: Store, op: Op): Option<Token>
    requires op.Refresh?
  {
    if Finds(s, op) && op.readsOk && op.rotateOk && op.insertOk then Some(op.next) else None
  }

  /** Rotation comes before the new session: when the insert fails the lineage has no active session left. */
  function After(s: Store, op: Op): Store {
    match op
    case Login(user, token, trace, expires, insertOk) =>
      if insertOk then s[token := Session(user, trace, Active, expires)] else s
    case Refresh(token, next, _, expires, _, readsOk, rotateOk, insertOk) =>
      if !Finds(s, op) || !readsOk || !rotateOk then s
      else
        var s' := s[token := s[token].(status := Rotated)];
        if insertOk then s'[next := Session(s[token].user, s[token].trace, Active, expires)] else s'
    case Logout(token, dbOk) =>
      if dbOk && token in s then s[token := s[token].(status := Revoked)] else s
  }

  predicate Legal(s: Store, ops: seq<Op>)
    decreases |ops|
  {
    ops == [] || (DrawsFresh(s, ops[0]) && Legal(After(s, ops[0]), ops[1..]))
  }

  function Run(s: Store, ops: seq<Op>): Store
    requires Legal(s, ops)
    decreases |ops|
  {
    if ops == [] then s else Run(After(s, ops[0]), ops[1..])
  }

  ghost predicate OneActive(s: Store) {
    forall a, b | a in s && b in s && s[a].status == Active && s[b].status == Active && s[a].trace == s[b].trace :: a == b
  }

  lemma StepKeepsOneActive(s: Store, op: Op)
    requires OneActive(s) && DrawsFresh(s, op)
    ensures OneActive(After(s, op))
  {
  }

  /** Each lineage has at most one active session after any serialised requests, whatever fails in them. */
  lemma {:induction false} LineageHasOneActiveSession(s: Store, ops: seq<Op>)
    requires OneActive(s) && Legal(s, ops)
    ensures OneActive(Run(s, ops))
    decreases |ops|
  {
    if ops != [] {
      StepKeepsOneActive(s, ops[0]);
      LineageHasOneActiveSession(After(s, ops[0]), ops[1..]);
    }
  }

  /** A rotated or revoked token stays so: no later request refreshes with it. */
  lemma {:induction false} SpentTokenNeverRefreshes(s: Store, ops: seq<Op>, token: Token, refresh: Op)
    requires token in s && s[token].status != Active && Legal(s, ops)
    requires refresh.Refresh? && refresh.token == token
    ensures Refreshed(Run(s, ops), refresh) == None && After(Run(s, ops), refresh) == Run(s, ops)
    decreases |ops|
  {
    if ops != [] {
      SpentTokenNeverRefreshes(After(s, ops[0]), ops[1..], token, refresh);
    }
  }

  /** A logout that reaches the database ends its session for good, whatever requests follow, and touches no
      other session; one that does not reach it, or with an unknown token, changes nothing. */
  lemma LogoutIsFinal(s: Store, token: Token, later: seq<Op>, refresh: Op)
    requires Legal(s, [Logout(token, true)] + later) && token in s
    requires refresh.Refresh? && refresh.token == token
    ensures Refreshed(Run(s, [Logout(token, true)] + later), refresh) == None
    ensures var s' := After(s, Logout(token, true));
            && s'.Keys == s.Keys && s'[token].status == Revoked
            && (forall t | t in s && t != token :: s'[t] == s[t])
    ensures After(s, Logout(token, false)) == s && forall t | t !in s :: After(s, Logout(t, true)) == s
  {
    assert ([Logout(token, true)] + later)[1..] == later;
    SpentTokenNeverRefreshes(After(s, Logout(token, true)), later, token, refresh);
  }

  ghost predicate Ended(s: Store, trace: string) {
    trace != "" && (exists t :: t in s && s[t].trace == trace) && forall t | t in s && s[t].trace == trace :: s[t].status != Active
  }

  lemma StepKeepsEnded(s: Store, op: Op, trace: string)
    requires Ended(s, trace) && DrawsFresh(s, op)
    ensures Ended(After(s, op), trace)
  {
    var t :| t in s && s[t].trace == trace;
    assert t in After(s, op) && After(s, op)[t].trace == trace;
  }

  lemma {:induction false} RunKeepsEnded(s: Store, ops: seq<Op>, trace: string)
    requires Ended(s, trace) && Legal(s, ops)
    ensures Ended(Run(s, ops), trace)
    decreases |ops|
  {
    hide Ended;
    if ops != [] {
      StepKeepsEnded(s, ops[0], trace);
      RunKeepsEnded(After(s, ops[0]), ops[1..], trace);
    }
  }

  /** The rotation is not undone when the new session cannot be stored: the lineage has no active session then,
      nor ever again. */
  lemma FailedInsertEndsLineage(s: Store, op: Op, later: seq<Op>)
    requires OneActive(s) && op.Refresh? && DrawsFresh(s, op) && Finds(s, op) && op.readsOk && op.rotateOk && !op.insertOk
    requires Legal(After(s, op), later) && s[op.token].trace != ""
    ensures var s' := Run(After(s, op), later); forall t | t in s' && s'[t].trace == s[op.token].trace :: s'[t].status != Active
  {
    assert op.token in After(s, op) && After(s, op)[op.token].trace == s[op.token].trace;
    RunKeepsEnded(After(s, op), later, s[op.token].trace);
  }

  /** A login in the list opened the session's lineage, and the request that drew its token set its expiry. */
  ghost predicate HasOrigin(ops: seq<Op>, t: Token, session: Session) {
    && (exists i | 0 <= i < |ops| :: Opens(ops[i], session.user, session.trace))
    && (exists i | 0 <= i < |ops| :: Draws(ops[i], t, session.expires))
  }

  predicate Opens(op: Op, user: string, trace: string) { op.Login? && op.user == user && op.trace == trace && op.insertOk }

  predicate Draws(op: Op, t: Token, expires: int) {
    match op
    case Login(_, token, _, e, insertOk) => token == t && e == expires && insertOk
    case Refresh(_, next, _, e, _, _, _, insertOk) => next == t && e == expires && insertOk
    case Logout(_, _) => false
  }

  ghost predicate AllHaveOrigins(s: Store, ops: seq<Op>) { forall t | t in s :: HasOrigin(ops, t, s[t]) }

  lemma OriginStays(ops: seq<Op>, op: Op, t: Token, session: Session)
    requires HasOrigin(ops, t, session)
    ensures HasOrigin(ops + [op], t, session)
  {
    var i :| 0 <= i < |ops| && Opens(ops[i], session.user, session.trace);
    var j :| 0 <= j < |ops| && Draws(ops[j], t, session.expires);
    assert (ops + [op])[i] == ops[i] && (ops + [op])[j] == ops[j];
  }

  lemma StepKeepsOrigins(s: Store, ops: seq<Op>, op: Op)
    requires AllHaveOrigins(s, ops) && DrawsFresh(s, op)
    ensures AllHaveOrigins(After(s, op), ops + [op])
  {
    var s' := After(s, op);
    assert (ops + [op])[|ops|] == op;
    forall t | t in s' ensures HasOrigin(ops + [op], t, s'[t]) {
      if t in s {
        OriginStays(ops, op, t, s[t]);
      } else if op.Refresh? {
        OriginStays(ops, op, op.token, s[op.token]);
      }
    }
  }

  lemma {:induction false} RunKeepsOrigins(s: Store, before: seq<Op>, ops: seq<Op>)
    requires AllHaveOrigins(s, before) && Legal(s, ops)
    ensures AllHaveOrigins(Run(s, ops), before + ops)
    decreases |ops|
  {
    hide AllHaveOrigins;
    if ops == [] {
      assert before + ops == before;
    } else {
      StepKeepsOrigins(s, before, ops[0]);
      RunKeepsOrigins(After(s, ops[0]), before + [ops[0]], ops[1..]);
      assert before + [ops[0]] + ops[1..] == before + ops;
    }
  }

  /** Every session belongs to the user and the lineage of a login that was made, and lasts as long as the
      request that drew its token said. */
  lemma SessionsComeFromLogins(ops: seq<Op>, t: Token)
    requires Legal(map[], ops) && t in Run(map[], ops)
    ensures HasOrigin(ops, t, Run(map[], ops)[t])
  {
    RunKeepsOrigins(map[], [], ops);
    assert [] + ops == ops;
  }

  /** A successful refresh hands the lineage from the old token, which is spent, to the new one; users and
      trace ids of existing sessions never change. */
  lemma RefreshMovesLineage(s: Store, op: Op)
    requires OneActive(s) && op.Refresh? && DrawsFresh(s, op) && Refreshed(s, op).Some?
    ensures var s' := After(s, op);
            && s'[op.token].status == Rotated && s'[op.next].status == Active
            && s'[op.next].trace == s'[op.token].trace == s[op.token].trace && s'[op.next].user == s[op.token].user
            && (forall t | t in s' && s'[t].trace == s[op.token].trace && s'[t].status == Active :: t == op.next)
            && (forall t | t in s && t != op.token :: t in s' && s'[t] == s[t])
  {
  }

  class SessionStore {
    var sessions: Store

    constructor ()
      ensures sessions == map[]
    {
      sessions := map[];
    }

    /** `createSession`: a new active session under the caller's trace id. */
    method CreateSession(user: string, trace: string, token: Token, expires: int, insertOk: bool) returns (created: Option<Token>)
      modifies this
      ensures sessions == if insertOk then old(sessions)[token := Session(user, trace, Active, expires)] else old(sessions)
      ensures created == if insertOk then Some(token) else None
    {
      if !insertOk {
        return None;
      }
      sessions := sessions[token := Session(user, trace, Active, expires)];
      return Some(token);
    }

    /** `Refresh`: read, rotate, then create the next session of the lineage. */
    method RefreshToken(op: Op) returns (next: Option<Token>)
      requires op.Refresh? && DrawsFresh(sessions, op)
      modifies this
      ensures sessions == After(old(sessions), op) && next == Refreshed(old(sessions), op)
      ensures OneActive(old(sessions)) ==> OneActive(sessions)
    {
      if OneActive(sessions) {
        StepKeepsOneActive(sessions, op);
      }
      if op.token !in sessions {
        return None;
      }
      var current := sessions[op.token];
      if current.status != Active || current.expires <= op.now || !op.userActive || !op.readsOk || !op.rotateOk {
        return None;
      }
      sessions := sessions[op.token := current.(status := Rotated)];
      next := CreateSession(current.user, current.trace, op.next, op.expires, op.insertOk);
    }

    /** `RevokeRefreshToken`. */
    method Revoke(token: Token, dbOk: bool)
      modifies this
      ensures sessions == After(old(sessions), Logout(token, dbOk)) && sessions.Keys == old(sessions).Keys
      ensures dbOk && token in sessions ==> sessions[token] == old(sessions)[token].(status := Revoked)
      ensures forall t <- sessions | t != token || !dbOk :: sessions[t] == old(sessions)[t]
    {
      if dbOk && token in sessions {
        sessions := sessions[token := sessions[token].(status := Revoked)];
      }
    }
  }
}
