/**
 * Which tokens stay accepted: app/services/auth.py and app/services/token_store.py end the tokens they promise to end,
 * and no others.
 */
module Sessions {
  import opened Basics
  import opened TokenStore
  import opened Auth

  /** Only refresh tokens have sessions, and a user's index set holds tokens of that user. */
  ghost predicate Owned(store: Store, issued: map<string, Token>) {
    && (forall j | j in store.sessions :: j in issued && issued[j].kind == Kind.Refresh)
    && (forall u, j | u in store.index && j in store.index[u] :: j in issued && issued[j].user == u)
  }

  /** The session kept by `revoke_other_sessions` comes from the caller's own access token. */
  ghost predicate OwnKeep(w: World, e: Event) {
    match e.op
    case RevokeOthers(user, Some(j)) => j in w.issued && w.issued[j].user == user
    case _ => true
  }

  // ---------------------------------------------------------------- ownership is kept

  lemma OwnedPruned(store: Store, issued: map<string, Token>, now: int)
    requires Owned(store, issued)
    ensures Owned(Pruned(store, now), issued)
  {
  }

  lemma OwnedSpent(store: Store, issued: map<string, Token>, t: Token, kind: Kind, now: int)
    requires Owned(store, issued)
    ensures Owned(Spent(store, t, kind, now), issued)
  {
  }

  lemma OwnedRegistered(store: Store, issued: map<string, Token>, t: Token, a: Token, now: int)
    requires Owned(store, issued) && t.kind == Kind.Refresh && t.jti !in issued && a.jti !in issued && a.jti != t.jti
    ensures Owned(Registered(store, t.user, t.jti, t.exp, now), issued[t.jti := t][a.jti := a])
  {
    var listed := store.(sessions := store.sessions[t.jti := Session(t.user, now, t.exp)],
                         index := store.index[t.user := Indexed(store, t.user) + {t.jti}]);
    assert Owned(listed, issued[t.jti := t][a.jti := a]);
    OwnedPruned(listed, issued[t.jti := t][a.jti := a], now);
  }

  lemma OwnedKilled(store: Store, issued: map<string, Token>, dead: set<string>, index: map<int, set<string>>, now: int)
    requires Owned(store, issued)
    requires forall u, j | u in index && j in index[u] :: j in issued && issued[j].user == u
    ensures Owned(Killed(store, dead, index, now), issued)
  {
  }

  lemma OwnedUserRevoked(store: Store, issued: map<string, Token>, user: int, now: int)
    requires Owned(store, issued)
    ensures Owned(UserRevoked(store, user, now), issued)
  {
    OwnedKilled(store, issued, Indexed(store, user), store.index - {user}, now);
  }

  lemma PasswordOwned(w: World, e: Event)
    requires e.op.ResetPassword? || e.op.ChangePassword? || e.op.CleanupSessions? || e.op.ConfirmEmail?
    requires Owned(w.store, w.issued)
    ensures Owned(Next(w.store, e.op, e.now), w.issued)
  {
    match e.op
    case ResetPassword(t, _) =>
      OwnedSpent(w.store, w.issued, t, Reset, e.now);
      OwnedPruned(w.store, w.issued, e.now);
      OwnedUserRevoked(Spent(w.store, t, Reset, e.now), w.issued, t.user, e.now);
    case ChangePassword(user, _, a) =>
      OwnedSpent(w.store, w.issued, a, Access, e.now);
      OwnedUserRevoked(Spent(w.store, a, Access, e.now), w.issued, user, e.now);
    case CleanupSessions(user) => OwnedUserRevoked(w.store, w.issued, user, e.now);
    case ConfirmEmail(t, _) =>
      OwnedSpent(w.store, w.issued, t, VerifyEmail, e.now);
      OwnedPruned(w.store, w.issued, e.now);
  }

  lemma SessionOwned(w: World, e: Event)
    requires e.op.RevokeOthers? || e.op.RevokeSession?
    requires Owned(w.store, w.issued) && OwnKeep(w, e)
    ensures Owned(Next(w.store, e.op, e.now), w.issued)
  {
    match e.op
    case RevokeSession(_, jti) =>
      OwnedPruned(w.store, w.issued, e.now);
      OwnedSessionRevoked(Pruned(w.store, e.now), w.issued, jti, e.now);
    case RevokeOthers(user, keep) => OwnedOthersRevoked(w.store, w.issued, user, keep, e.now);
  }

  lemma OwnedSessionRevoked(store: Store, issued: map<string, Token>, jti: string, now: int)
    requires Owned(store, issued)
    ensures Owned(SessionRevoked(store, jti, now), issued)
  {
    var listed := store.(sessions := store.sessions - {jti}, index := Unindexed(store, {jti}));
    if jti in store.sessions {
      var expiresAt := store.sessions[jti].expiresAt;
      OwnedPruned(listed.(tokens := listed.tokens[jti := expiresAt]), issued, now);
    }
  }

  lemma OwnedOthersRevoked(store: Store, issued: map<string, Token>, user: int, keep: Option<string>, now: int)
    requires Owned(store, issued)
    requires keep.Some? ==> keep.value in issued && issued[keep.value].user == user
    ensures Owned(OthersRevoked(store, user, keep, now), issued)
  {
    match keep
    case None => OwnedUserRevoked(store, issued, user, now);
    case Some(j) => OwnedKilled(store, issued, Indexed(store, user) - {j}, store.index[user := {j}], now);
  }

  lemma TokenOwned(w: World, e: Event)
    requires e.op.Login? || e.op.RefreshPair? || e.op.Logout? || e.op.Issue? || e.op.Authenticate?
    requires Owned(w.store, w.issued) && Legal(w, e)
    ensures Owned(Step(w, e).store, Step(w, e).issued)
  {
    match e.op
    case Issue(t) => AddedPair(w.issued, t, t);
    case Login(r, a) =>
      AddedPair(w.issued, r, a);
      OwnedRegistered(w.store, w.issued, r, a, e.now);
    case RefreshPair(t, r, a) =>
      AddedPair(w.issued, r, a);
      OwnedSpent(w.store, w.issued, t, Kind.Refresh, e.now);
      OwnedRegistered(Spent(w.store, t, Kind.Refresh, e.now), w.issued, r, a, e.now);
    case Logout(a, r) =>
      OwnedSpent(w.store, w.issued, a, Access, e.now);
      if r.Some? {
        OwnedSpent(Spent(w.store, a, Access, e.now), w.issued, r.value, Kind.Refresh, e.now);
      }
    case Authenticate(_) => OwnedPruned(w.store, w.issued, e.now);
  }

  lemma StepOwned(w: World, e: Event)
    requires Owned(w.store, w.issued) && Legal(w, e) && OwnKeep(w, e)
    ensures Owned(Step(w, e).store, Step(w, e).issued)
  {
    if e.op.ResetPassword? || e.op.ChangePassword? || e.op.CleanupSessions? || e.op.ConfirmEmail? {
      PasswordOwned(w, e);
    } else if e.op.RevokeOthers? || e.op.RevokeSession? {
      SessionOwned(w, e);
    } else {
      TokenOwned(w, e);
    }
  }

  // ---------------------------------------------------------------- the blacklist

  /** The token has not expired, and a blacklist entry of it ends when it expires. */
  ghost predicate Unexpired(store: Store, t: Token, now: int) {
    t.exp > now && (t.jti in store.tokens ==> store.tokens[t.jti] == t.exp)
  }

  lemma AcceptedIff(store: Store, t: Token, now: int)
    requires t.jti in store.tokens ==> store.tokens[t.jti] == t.exp
    ensures Accepts(store, t, t.kind, now) <==> t.exp > now && t.jti !in store.tokens
  {
  }

  lemma SpentBlocks(store: Store, p: Token, kind: Kind, t: Token, now: int)
    requires Unexpired(store, t, now) && (p.jti == t.jti ==> p == t)
    ensures Unexpired(Spent(store, p, kind, now), t, now)
    ensures t.jti in Spent(store, p, kind, now).tokens
            <==> t.jti in store.tokens || (Accepts(store, p, kind, now) && p == t)
  {
  }

  lemma KilledBlocks(store: Store, dead: set<string>, index: map<int, set<string>>, t: Token, now: int)
    requires Unexpired(store, t, now) && (t.jti in store.sessions ==> store.sessions[t.jti].expiresAt == t.exp)
    ensures Unexpired(Killed(store, dead, index, now), t, now)
    ensures t.jti in Killed(store, dead, index, now).tokens
            <==> t.jti in store.tokens || (t.jti in dead && t.jti in store.sessions)
  {
    if t.jti in dead && t.jti in store.sessions {
      assert t.jti in Expiries(store, dead);
    }
  }

  lemma RegisteredBlocks(store: Store, r: Token, t: Token, now: int)
    requires Unexpired(store, t, now)
    ensures Unexpired(Registered(store, r.user, r.jti, r.exp, now), t, now)
    ensures t.jti in Registered(store, r.user, r.jti, r.exp, now).tokens <==> t.jti in store.tokens
  {
  }

  lemma SessionRevokedBlocks(store: Store, jti: string, t: Token, now: int)
    requires Unexpired(store, t, now) && (t.jti in store.sessions ==> store.sessions[t.jti].expiresAt == t.exp)
    ensures Unexpired(SessionRevoked(store, jti, now), t, now)
    ensures t.jti in SessionRevoked(store, jti, now).tokens
            <==> t.jti in store.tokens || (jti == t.jti && jti in store.sessions)
  {
  }

  /** A user's sessions in the index are the ones a revocation of that user blocks. */
  lemma IndexedIff(store: Store, issued: map<string, Token>, user: int, t: Token, now: int)
    requires Inv(store, issued, now) && Owned(store, issued)
    requires t.jti in issued && issued[t.jti] == t && t.exp > now && t.jti !in store.tokens
    ensures t.jti in Indexed(store, user) && t.jti in store.sessions <==> t.kind == Kind.Refresh && t.user == user
  {
    if t.kind == Kind.Refresh {
      assert Tracked(store, t, now);
    }
  }

  // ---------------------------------------------------------------- one operation

  /** The operations that end token t: a superset of those that promise to, with single-use tokens among them. */
  ghost predicate EndsToken(w: World, e: Event, t: Token) {
    var done, refresh := Succeeds(w.store, e.op, e.now), t.kind == Kind.Refresh;
    match e.op
    case ResetPassword(p, _) => done && (p == t || (refresh && p.user == t.user))
    case ChangePassword(user, _, a) => done && (a == t || (refresh && user == t.user))
    case CleanupSessions(user) => refresh && user == t.user
    case RevokeOthers(user, keep) => refresh && user == t.user && keep != Some(t.jti)
    case RevokeSession(_, jti) => done && jti == t.jti
    case RefreshPair(p, _, _) => done && p == t
    case Logout(a, r) => (Accepts(w.store, a, Access, e.now) && a == t) || (done && r == Some(t))
    case ConfirmEmail(p, _) => done && p == t
    case _ => false
  }

  lemma UserRevokedBlocks(store: Store, issued: map<string, Token>, user: int, t: Token, now: int)
    requires Inv(store, issued, now) && Owned(store, issued)
    requires t.jti in issued && issued[t.jti] == t && t.exp > now
    ensures t.jti in UserRevoked(store, user, now).tokens
            <==> t.jti in store.tokens || (t.kind == Kind.Refresh && t.user == user)
  {
    KilledBlocks(store, Indexed(store, user), store.index - {user}, t, now);
    if t.jti !in store.tokens {
      IndexedIff(store, issued, user, t, now);
    }
  }

  lemma PasswordBlocks(w: World, e: Event, t: Token, now: int)
    requires e.op.ResetPassword? || e.op.ChangePassword? || e.op.CleanupSessions? || e.op.ConfirmEmail?
    requires Inv(w.store, w.issued, e.now) && Owned(w.store, w.issued) && Legal(w, e)
    requires Genuine(w, t) && t.exp > e.now
    ensures t.jti in Next(w.store, e.op, e.now).tokens <==> t.jti in w.store.tokens || EndsToken(w, e, t)
  {
    var store, issued, now := w.store, w.issued, e.now;
    match e.op
    case ResetPassword(p, _) =>
      assert p in Presented(e.op);
      SpentBlocks(store, p, Reset, t, now);
      InvSpent(store, issued, p, Reset, now);
      OwnedSpent(store, issued, p, Reset, now);
      UserRevokedBlocks(Spent(store, p, Reset, now), issued, p.user, t, now);
    case ChangePassword(user, _, a) =>
      assert a in Presented(e.op);
      SpentBlocks(store, a, Access, t, now);
      InvSpent(store, issued, a, Access, now);
      OwnedSpent(store, issued, a, Access, now);
      UserRevokedBlocks(Spent(store, a, Access, now), issued, user, t, now);
    case CleanupSessions(user) => UserRevokedBlocks(store, issued, user, t, now);
    case ConfirmEmail(p, _) =>
      assert p in Presented(e.op);
      SpentBlocks(store, p, VerifyEmail, t, now);
  }

  lemma SessionBlocks(w: World, e: Event, t: Token, now: int)
    requires e.op.RevokeOthers? || e.op.RevokeSession?
    requires Inv(w.store, w.issued, e.now) && Owned(w.store, w.issued) && Legal(w, e)
    requires Genuine(w, t) && t.exp > e.now
    ensures t.jti in Next(w.store, e.op, e.now).tokens <==> t.jti in w.store.tokens || EndsToken(w, e, t)
  {
    var store, issued, now := w.store, w.issued, e.now;
    match e.op
    case RevokeOthers(user, keep) =>
      UserRevokedBlocks(store, issued, user, t, now);
      if keep.Some? {
        KilledBlocks(store, Indexed(store, user) - {keep.value}, store.index[user := {keep.value}], t, now);
        if t.jti !in store.tokens {
          IndexedIff(store, issued, user, t, now);
        }
      }
    case RevokeSession(user, jti) =>
      InvPruned(store, issued, now);
      SessionRevokedBlocks(Pruned(store, now), jti, t, now);
  }

  lemma TokenBlocks(w: World, e: Event, t: Token, now: int)
    requires e.op.Login? || e.op.RefreshPair? || e.op.Logout? || e.op.Issue? || e.op.Authenticate?
    requires Inv(w.store, w.issued, e.now) && Legal(w, e)
    requires Genuine(w, t) && t.exp > e.now
    ensures t.jti in Next(w.store, e.op, e.now).tokens <==> t.jti in w.store.tokens || EndsToken(w, e, t)
  {
    var store, issued, now := w.store, w.issued, e.now;
    match e.op
    case Issue(_) =>
    case Login(r, _) => RegisteredBlocks(store, r, t, now);
    case RefreshPair(p, r, _) =>
      assert p in Presented(e.op);
      SpentBlocks(store, p, Kind.Refresh, t, now);
      RegisteredBlocks(Spent(store, p, Kind.Refresh, now), Token(r.jti, p.user, r.kind, r.exp), t, now);
    case Logout(a, r) =>
      assert a in Presented(e.op);
      SpentBlocks(store, a, Access, t, now);
      if r.Some? {
        assert r.value in Presented(e.op);
        SpentBlocks(Spent(store, a, Access, now), r.value, Kind.Refresh, t, now);
      }
    case Authenticate(_) =>
  }

  /** A token is accepted after an operation exactly when it was accepted before and the operation does not end it. */
  lemma AcceptedAfterIff(w: World, e: Event, t: Token, now: int)
    requires Inv(w.store, w.issued, now) && Owned(w.store, w.issued) && now <= e.now && Legal(w, e) && Genuine(w, t)
    ensures Accepts(Step(w, e).store, t, t.kind, e.now)
            <==> Accepts(w.store, t, t.kind, e.now) && !EndsToken(w, e, t)
  {
    InvLater(w.store, w.issued, now, e.now);
    AcceptedIff(w.store, t, e.now);
    if t.exp > e.now {
      if e.op.ResetPassword? || e.op.ChangePassword? || e.op.CleanupSessions? || e.op.ConfirmEmail? {
        PasswordBlocks(w, e, t, now);
      } else if e.op.RevokeOthers? || e.op.RevokeSession? {
        SessionBlocks(w, e, t, now);
      } else {
        TokenBlocks(w, e, t, now);
      }
      StepAgrees(w, e, t, now);
    }
    AcceptedIff(Step(w, e).store, t, e.now) by {
      StepAgrees(w, e, t, now);
    }
  }

  lemma StepAgrees(w: World, e: Event, t: Token, now: int)
    requires Inv(w.store, w.issued, now) && now <= e.now && Legal(w, e) && Genuine(w, t)
    ensures Genuine(Step(w, e), t)
    ensures t.jti in Step(w, e).store.tokens ==> Step(w, e).store.tokens[t.jti] == t.exp
  {
    StepInv(w, e, now);
    match e.op
    case Issue(a) => AddedPair(w.issued, a, a);
    case Login(r, a) => AddedPair(w.issued, r, a);
    case RefreshPair(_, r, a) => AddedPair(w.issued, r, a);
    case _ =>
  }

  /** After the other sessions are revoked, exactly the kept one and those of other users are still accepted. */
  lemma OthersRevokedIff(w: World, user: int, keep: Option<string>, t: Token, now: int)
    requires Inv(w.store, w.issued, now) && Owned(w.store, w.issued) && Genuine(w, t) && t.kind == Kind.Refresh
    requires Accepts(w.store, t, Kind.Refresh, now)
    ensures Accepts(Next(w.store, RevokeOthers(user, keep), now), t, Kind.Refresh, now)
            <==> t.user != user || keep == Some(t.jti)
  {
    var e := Event(now, RevokeOthers(user, keep));
    assert Presented(e.op) == [];
    AcceptedAfterIff(w, e, t, now);
  }

  /** A token just issued is accepted until it expires. */
  lemma NewIsAccepted(w: World, e: Event, t: Token, now: int)
    requires Inv(w.store, w.issued, now) && now <= e.now && Legal(w, e) && t in Created(w.store, e.op, e.now)
    ensures Genuine(Step(w, e), t)
    ensures Accepts(Step(w, e).store, t, t.kind, e.now) <==> t.exp > e.now
  {
    InvLater(w.store, w.issued, now, e.now);
    NewIsGenuine(w, e, t);
    if t.exp > e.now {
      NewIsNotBlocked(w, e, t);
    }
  }

  lemma NewIsGenuine(w: World, e: Event, t: Token)
    requires Legal(w, e) && t in Created(w.store, e.op, e.now)
    ensures t.jti !in w.issued && Genuine(Step(w, e), t)
  {
    match e.op
    case Issue(a) => AddedPair(w.issued, a, a);
    case Login(r, a) => AddedPair(w.issued, r, a);
    case RefreshPair(p, r, a) => AddedPair(w.issued, r, a);
  }

  lemma NewIsNotBlocked(w: World, e: Event, t: Token)
    requires Agrees(w.store, w.issued) && Legal(w, e) && t in Created(w.store, e.op, e.now)
    requires t.exp > e.now && t.jti !in w.issued
    ensures t.jti !in Next(w.store, e.op, e.now).tokens
  {
    assert t.jti !in w.store.tokens;
    match e.op
    case Issue(_) =>
    case Login(r, _) => RegisteredBlocks(w.store, r, t, e.now);
    case RefreshPair(p, r, _) =>
      assert p in Presented(e.op);
      SpentBlocks(w.store, p, Kind.Refresh, t, e.now);
      RegisteredBlocks(Spent(w.store, p, Kind.Refresh, e.now), r, t, e.now);
  }

  // ---------------------------------------------------------------- whole runs

  ghost predicate OwnKeeps(w: World, run: seq<Event>)
    decreases run
  {
    run == [] || (OwnKeep(w, run[0]) && OwnKeeps(Step(w, run[0]), run[1..]))
  }

  /** No event of the run ends the token. */
  ghost predicate NeverEnds(w: World, run: seq<Event>, t: Token)
    decreases run
  {
    run == [] || (!EndsToken(w, run[0], t) && NeverEnds(Step(w, run[0]), run[1..], t))
  }

  lemma AcceptedLater(store: Store, t: Token, now: int, later: int)
    requires now <= later && (t.jti in store.tokens ==> store.tokens[t.jti] == t.exp)
    ensures Accepts(store, t, t.kind, later) <==> Accepts(store, t, t.kind, now) && later < t.exp
  {
  }

  /**
   * A token is accepted after any legal run exactly until it expires or an operation of the run that promises to end it
   * does so: nothing else, pruning included, ends it, and nothing revives it.
   */
  lemma {:induction false} AcceptedUntilEnded(w: World, run: seq<Event>, t: Token, now: int, later: int)
    requires Inv(w.store, w.issued, now) && Owned(w.store, w.issued)
    requires LegalRun(w, run, now) && OwnKeeps(w, run) && Clock(run, now) <= later && Genuine(w, t)
    ensures Accepts(After(w, run).store, t, t.kind, later)
            <==> Accepts(w.store, t, t.kind, now) && later < t.exp && NeverEnds(w, run, t)
    decreases run
  {
    if run == [] {
      AcceptedLater(w.store, t, now, later);
    } else {
      var e, next := run[0], Step(w, run[0]);
      StepInv(w, e, now);
      StepOwned(w, e);
      StepAgrees(w, e, t, now);
      AcceptedAfterIff(w, e, t, now);
      AcceptedLater(w.store, t, now, e.now);
      ClockLater(run, now);
      RunClocked(next, run[1..], e.now);
      AcceptedUntilEnded(next, run[1..], t, e.now, later);
    }
  }

  lemma ClockLater(run: seq<Event>, now: int)
    requires run != []
    ensures Clock(run[1..], run[0].now) == Clock(run, now)
  {
    assert run[1..] != [] ==> run[1..][|run[1..]| - 1] == run[|run| - 1];
  }

  lemma {:induction false} RunClocked(w: World, run: seq<Event>, now: int)
    requires LegalRun(w, run, now)
    ensures now <= Clock(run, now)
    decreases run
  {
    if run == [] {
    } else {
      ClockLater(run, now);
      RunClocked(Step(w, run[0]), run[1..], run[0].now);
    }
  }

  lemma {:induction false} RunOwned(w: World, run: seq<Event>, now: int)
    requires Owned(w.store, w.issued) && LegalRun(w, run, now) && OwnKeeps(w, run)
    ensures Owned(After(w, run).store, After(w, run).issued)
    decreases run
  {
    if run == [] {
    } else {
      StepOwned(w, run[0]);
      RunOwned(Step(w, run[0]), run[1..], run[0].now);
    }
  }

  /**
   * The life of a token, in any history from the empty store: issued by a login, a refresh or otherwise, it is accepted
   * exactly until it expires or an operation that promises to end it does so.
   */
  lemma {:induction false} TokenLife(before: seq<Event>, e: Event, after: seq<Event>, t: Token, start: int, later: int)
    requires LegalRun(START, before, start) && OwnKeeps(START, before)
    requires var w := After(START, before);
             && LegalRun(w, [e] + after, Clock(before, start)) && OwnKeeps(w, [e] + after)
             && t in Created(w.store, e.op, e.now)
    requires Clock([e] + after, start) <= later
    ensures var w := After(START, before);
            Accepts(After(w, [e] + after).store, t, t.kind, later)
            <==> later < t.exp && NeverEnds(Step(w, e), after, t)
  {
    var w := After(START, before);
    RunInv(START, before, start);
    RunOwned(START, before, start);
    assert ([e] + after)[0] == e && ([e] + after)[1..] == after;
    StepInv(w, e, Clock(before, start));
    StepOwned(w, e);
    NewIsAccepted(w, e, t, Clock(before, start));
    ClockLater([e] + after, start);
    RunClocked(Step(w, e), after, e.now);
    AcceptedUntilEnded(Step(w, e), after, t, e.now, later);
  }

  // ---------------------------------------------------------------- the session list

  /** A user's listed sessions are refresh tokens of that user, and include every one still accepted. */
  lemma ListedSessions(w: World, user: int, jti: string, now: int)
    requires Inv(w.store, w.issued, now) && Owned(w.store, w.issued)
    ensures var live := Pruned(w.store, now).sessions;
            && (jti in live && live[jti].userId == user ==>
                  && jti in w.issued && w.issued[jti].user == user && w.issued[jti].kind == Kind.Refresh
                  && live[jti].expiresAt == w.issued[jti].exp > now)
            && (jti in w.issued && w.issued[jti].user == user && Accepts(w.store, w.issued[jti], Kind.Refresh, now) ==>
                  jti in live && live[jti].userId == user)
  {
    if jti in w.issued && w.issued[jti].kind == Kind.Refresh {
      assert Tracked(w.store, w.issued[jti], now);
    }
  }

  /** A new session carries its user, the time of its issue and its expiry. */
  lemma RegisteredSession(store: Store, user: int, jti: string, expiresAt: int, now: int)
    requires expiresAt > now
    ensures var s := Registered(store, user, jti, expiresAt, now).sessions;
            jti in s && s[jti].userId == user && s[jti].issuedAt == now && s[jti].expiresAt == expiresAt
  {
  }

  /** A session can be revoked by its own user exactly while it is listed, so always while it is accepted. */
  lemma RevocableIff(w: World, user: int, t: Token, now: int)
    requires Inv(w.store, w.issued, now) && Owned(w.store, w.issued) && Genuine(w, t) && t.kind == Kind.Refresh
    ensures Succeeds(w.store, RevokeSession(user, t.jti), now) ==> t.user == user && t.exp > now
    ensures Accepts(w.store, t, Kind.Refresh, now) ==>
              (Succeeds(w.store, RevokeSession(user, t.jti), now) <==> t.user == user)
  {
    ListedSessions(w, user, t.jti, now);
  }

  /** Logins, issued tokens and mass revocations always go through. */
  lemma AlwaysSucceeds(store: Store, op: Op, now: int)
    requires op.Issue? || op.Login? || op.RevokeOthers? || op.CleanupSessions?
    ensures Succeeds(store, op, now)
  {
  }

  /** A live session, by the id of its token. */
  ghost predicate ListedAt(store: Store, jti: string, now: int) {
    jti in store.sessions && store.sessions[jti].expiresAt > now
  }

  lemma KilledLists(store: Store, dead: set<string>, index: map<int, set<string>>, jti: string, now: int)
    ensures ListedAt(Killed(store, dead, index, now), jti, now) <==> ListedAt(store, jti, now) && jti !in dead
  {
  }

  /**
   * A session leaves its user's list by revocation only: refresh and logout, which end its token, leave it listed until
   * it expires.
   */
  lemma ListedAfterIff(w: World, e: Event, t: Token, now: int)
    requires Inv(w.store, w.issued, now) && Owned(w.store, w.issued) && now <= e.now && Legal(w, e)
    requires Genuine(w, t) && t.kind == Kind.Refresh && Accepts(w.store, t, Kind.Refresh, e.now)
    ensures ListedAt(w.store, t.jti, e.now)
    ensures ListedAt(Step(w, e).store, t.jti, e.now)
            <==> !EndsToken(w, e, t) || e.op.RefreshPair? || e.op.Logout?
  {
    InvLater(w.store, w.issued, now, e.now);
    assert Tracked(w.store, t, e.now);
    if e.op.ResetPassword? || e.op.ChangePassword? || e.op.CleanupSessions? || e.op.ConfirmEmail? {
      PasswordLists(w, e, t);
    } else if e.op.RevokeOthers? || e.op.RevokeSession? {
      SessionLists(w, e, t);
    } else {
      TokenLists(w, e, t);
    }
  }

  lemma UserRevokedLists(store: Store, issued: map<string, Token>, user: int, t: Token, now: int)
    requires Inv(store, issued, now) && Owned(store, issued) && t.jti in issued && issued[t.jti] == t
    requires t.kind == Kind.Refresh && t.exp > now && t.jti !in store.tokens
    ensures ListedAt(UserRevoked(store, user, now), t.jti, now) <==> t.user != user
  {
    assert Tracked(store, t, now);
    IndexedIff(store, issued, user, t, now);
    KilledLists(store, Indexed(store, user), store.index - {user}, t.jti, now);
  }

  /** Spending a token of another kind and then ending a user's sessions. */
  lemma SpentThenRevokedLists(w: World, p: Token, kind: Kind, user: int, t: Token, now: int)
    requires Inv(w.store, w.issued, now) && Owned(w.store, w.issued)
    requires kind != Kind.Refresh && Genuine(w, p) && Genuine(w, t) && t.kind == Kind.Refresh
    requires Accepts(w.store, t, Kind.Refresh, now)
    ensures ListedAt(UserRevoked(Spent(w.store, p, kind, now), user, now), t.jti, now) <==> t.user != user
  {
    InvSpent(w.store, w.issued, p, kind, now);
    OwnedSpent(w.store, w.issued, p, kind, now);
    SpentBlocks(w.store, p, kind, t, now);
    UserRevokedLists(Spent(w.store, p, kind, now), w.issued, user, t, now);
  }

  lemma SpentListsIff(store: Store, p: Token, kind: Kind, jti: string, now: int)
    ensures ListedAt(Spent(store, p, kind, now), jti, now) <==> ListedAt(store, jti, now)
  {
  }

  lemma ResetLists(w: World, p: Token, known: bool, t: Token, now: int)
    requires Inv(w.store, w.issued, now) && Owned(w.store, w.issued) && Genuine(w, p)
    requires Genuine(w, t) && t.kind == Kind.Refresh && Accepts(w.store, t, Kind.Refresh, now)
    requires ListedAt(w.store, t.jti, now)
    ensures ListedAt(Next(w.store, ResetPassword(p, known), now), t.jti, now)
            <==> !(Accepts(w.store, p, Reset, now) && known && p.user == t.user)
  {
    SpentListsIff(w.store, p, Reset, t.jti, now);
    SpentThenRevokedLists(w, p, Reset, p.user, t, now);
  }

  lemma ChangeLists(w: World, user: int, ok: bool, a: Token, t: Token, now: int)
    requires Inv(w.store, w.issued, now) && Owned(w.store, w.issued) && Genuine(w, a)
    requires Genuine(w, t) && t.kind == Kind.Refresh && Accepts(w.store, t, Kind.Refresh, now)
    requires ListedAt(w.store, t.jti, now)
    ensures ListedAt(Next(w.store, ChangePassword(user, ok, a), now), t.jti, now)
            <==> !(ok && Accepts(w.store, a, Access, now) && user == t.user)
  {
    SpentListsIff(w.store, a, Access, t.jti, now);
    SpentThenRevokedLists(w, a, Access, user, t, now);
  }

  lemma PasswordLists(w: World, e: Event, t: Token)
    requires e.op.ResetPassword? || e.op.ChangePassword? || e.op.CleanupSessions? || e.op.ConfirmEmail?
    requires Inv(w.store, w.issued, e.now) && Owned(w.store, w.issued) && Legal(w, e)
    requires Genuine(w, t) && t.kind == Kind.Refresh && Accepts(w.store, t, Kind.Refresh, e.now)
    requires ListedAt(w.store, t.jti, e.now)
    ensures ListedAt(Next(w.store, e.op, e.now), t.jti, e.now) <==> !EndsToken(w, e, t)
  {
    match e.op
    case ResetPassword(p, known) =>
      assert p in Presented(e.op);
      ResetLists(w, p, known, t, e.now);
    case ChangePassword(user, ok, a) =>
      assert a in Presented(e.op);
      ChangeLists(w, user, ok, a, t, e.now);
    case CleanupSessions(user) => UserRevokedLists(w.store, w.issued, user, t, e.now);
    case ConfirmEmail(p, _) => SpentListsIff(w.store, p, VerifyEmail, t.jti, e.now);
  }

  lemma OthersLists(w: World, user: int, keep: Option<string>, t: Token, now: int)
    requires Inv(w.store, w.issued, now) && Owned(w.store, w.issued)
    requires Genuine(w, t) && t.kind == Kind.Refresh && Accepts(w.store, t, Kind.Refresh, now)
    requires ListedAt(w.store, t.jti, now)
    ensures ListedAt(OthersRevoked(w.store, user, keep, now), t.jti, now) <==> t.user != user || keep == Some(t.jti)
  {
    IndexedIff(w.store, w.issued, user, t, now);
    match keep
    case None => UserRevokedLists(w.store, w.issued, user, t, now);
    case Some(j) => KilledLists(w.store, Indexed(w.store, user) - {j}, w.store.index[user := {j}], t.jti, now);
  }

  lemma SessionLists(w: World, e: Event, t: Token)
    requires e.op.RevokeOthers? || e.op.RevokeSession?
    requires Inv(w.store, w.issued, e.now) && Owned(w.store, w.issued)
    requires Genuine(w, t) && t.kind == Kind.Refresh && Accepts(w.store, t, Kind.Refresh, e.now)
    requires ListedAt(w.store, t.jti, e.now)
    ensures ListedAt(Next(w.store, e.op, e.now), t.jti, e.now) <==> !EndsToken(w, e, t)
  {
    match e.op
    case RevokeOthers(user, keep) => OthersLists(w, user, keep, t, e.now);
    case RevokeSession(user, jti) =>
      PrunedLists(w.store, t.jti, e.now);
      SessionRevokedLists(Pruned(w.store, e.now), jti, t.jti, e.now);
  }

  lemma PrunedLists(store: Store, jti: string, now: int)
    ensures ListedAt(Pruned(store, now), jti, now) <==> ListedAt(store, jti, now)
  {
  }

  lemma SessionRevokedLists(store: Store, jti: string, listed: string, now: int)
    ensures ListedAt(SessionRevoked(store, jti, now), listed, now) <==> ListedAt(store, listed, now) && listed != jti
  {
  }

  lemma RegisteredLists(store: Store, r: Token, user: int, jti: string, now: int)
    requires r.jti != jti
    ensures ListedAt(Registered(store, user, r.jti, r.exp, now), jti, now) <==> ListedAt(store, jti, now)
  {
  }

  lemma TokenLists(w: World, e: Event, t: Token)
    requires e.op.Login? || e.op.RefreshPair? || e.op.Logout? || e.op.Issue? || e.op.Authenticate?
    requires Legal(w, e) && Genuine(w, t) && ListedAt(w.store, t.jti, e.now)
    ensures ListedAt(Next(w.store, e.op, e.now), t.jti, e.now)
  {
    match e.op
    case Issue(_) =>
    case Login(r, _) => RegisteredLists(w.store, r, r.user, t.jti, e.now);
    case RefreshPair(p, r, _) =>
      SpentListsIff(w.store, p, Kind.Refresh, t.jti, e.now);
      RegisteredLists(Spent(w.store, p, Kind.Refresh, e.now), r, p.user, t.jti, e.now);
    case Logout(a, r) =>
      SpentListsIff(w.store, a, Access, t.jti, e.now);
      if r.Some? {
        SpentListsIff(Spent(w.store, a, Access, e.now), r.value, Kind.Refresh, t.jti, e.now);
      }
    case Authenticate(_) => PrunedLists(w.store, t.jti, e.now);
  }

  /** After all of a user's sessions are revoked the user has no index set left. */
  lemma RevokedUserHasNoIndex(store: Store, user: int, now: int)
    ensures user !in UserRevoked(store, user, now).index
  {
  }

  /** Expired entries are dropped by every decoding of a readable token; an unreadable one touches nothing. */
  lemma DecodingPrunes(store: Store, t: Token, kind: Kind, now: int)
    ensures var after := DecodedStore(store, t, kind, now);
            if t.kind == kind && t.exp >= now then
              && (forall j :: j in after.tokens <==> j in store.tokens && store.tokens[j] > now)
              && (forall j :: j in after.sessions <==> j in store.sessions && store.sessions[j].expiresAt > now)
            else
              after == store
  {
  }
}
