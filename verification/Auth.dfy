/** Token issue, refresh and revocation of app/services/auth.py, over the session store. */
module Auth {
  import opened Basics
  import opened TokenStore

  datatype Kind = Access | Refresh | Reset | VerifyEmail

  /** A signed token: its id, subject, type and expiry claims. */
  datatype Token = Token(jti: string, user: int, kind: Kind, exp: int)

  /** What the decoder accepts; a token of the wrong type or past its expiry is refused before the store is asked. */
  predicate Readable(t: Token, kind: Kind, now: int) {
    t.exp >= now && t.kind == kind
  }

  function DecodedStore(store: Store, t: Token, kind: Kind, now: int): Store {
    if Readable(t, kind, now) then Pruned(store, now) else store
  }

  predicate Accepts(store: Store, t: Token, kind: Kind, now: int) {
    Readable(t, kind, now) && t.jti !in Pruned(store, now).tokens && t.exp > now
  }

  datatype Op =
    | Issue(token: Token)
    | Login(refresh: Token, access: Token)
    | RefreshPair(presented: Token, refresh: Token, access: Token)
    | Logout(presentedAccess: Token, presentedRefresh: Option<Token>)
    | ResetPassword(reset: Token, known: bool)
    | ChangePassword(user: int, currentOk: bool, presentedAccess: Token)
    | ConfirmEmail(verify: Token, known: bool)
    | RevokeSession(user: int, jti: string)
    | RevokeOthers(user: int, keep: Option<string>)
    | CleanupSessions(user: int)
    | Authenticate(presentedAccess: Token)

  /** Whether the operation goes through to its end. */
  predicate Succeeds(store: Store, op: Op, now: int) {
    match op
    case Issue(_) => true
    case Login(_, _) => true
    case RefreshPair(t, _, _) => Accepts(store, t, Refresh, now)
    case Logout(a, r) =>
      Accepts(store, a, Access, now)
      && (r.Some? ==> Accepts(Revoked(DecodedStore(store, a, Access, now), a.jti, a.exp, now), r.value, Refresh, now))
    case ResetPassword(t, known) => Accepts(store, t, Reset, now) && known
    case ChangePassword(_, currentOk, a) => currentOk && Accepts(store, a, Access, now)
    case ConfirmEmail(t, known) => Accepts(store, t, VerifyEmail, now) && known
    case RevokeSession(user, jti) =>
      var live := Pruned(store, now).sessions;
      jti in live && live[jti].userId == user
    case RevokeOthers(_, _) => true
    case CleanupSessions(_) => true
    case Authenticate(a) => Readable(a, Access, now) && a.jti !in Pruned(store, now).tokens
  }

  /** Decodes the token and, when it is accepted, revokes it. */
  function Spent(store: Store, t: Token, kind: Kind, now: int): Store {
    if Accepts(store, t, kind, now) then Revoked(DecodedStore(store, t, kind, now), t.jti, t.exp, now)
    else DecodedStore(store, t, kind, now)
  }

  /** A token whose user no longer exists is decoded but not revoked. */
  function SpentIfKnown(store: Store, t: Token, kind: Kind, known: bool, now: int): Store {
    if known then Spent(store, t, kind, now) else DecodedStore(store, t, kind, now)
  }

  /** The session store after the operation; the store has no rollback, so a refused one may still change it. */
  function Next(store: Store, op: Op, now: int): Store {
    match op
    case Issue(_) => store
    case Login(r, _) => Registered(store, r.user, r.jti, r.exp, now)
    case RefreshPair(t, r, _) =>
      var spent := Spent(store, t, Refresh, now);
      if Accepts(store, t, Refresh, now) then Registered(spent, t.user, r.jti, r.exp, now) else spent
    case Logout(a, r) =>
      var spent := Spent(store, a, Access, now);
      if Accepts(store, a, Access, now) && r.Some? then Spent(spent, r.value, Refresh, now) else spent
    case ResetPassword(t, known) =>
      var spent := SpentIfKnown(store, t, Reset, known, now);
      if Accepts(store, t, Reset, now) && known then UserRevoked(spent, t.user, now) else spent
    case ChangePassword(user, currentOk, a) =>
      if !currentOk then store
      else
        var spent := Spent(store, a, Access, now);
        if Accepts(store, a, Access, now) then UserRevoked(spent, user, now) else spent
    case ConfirmEmail(t, known) => SpentIfKnown(store, t, VerifyEmail, known, now)
    case RevokeSession(user, jti) =>
      var live := Pruned(store, now);
      if Succeeds(store, op, now) then SessionRevoked(live, jti, now) else live
    case RevokeOthers(user, keep) => OthersRevoked(store, user, keep, now)
    case CleanupSessions(user) => UserRevoked(store, user, now)
    case Authenticate(a) => DecodedStore(store, a, Access, now)
  }

  class AuthService {
    const store: Tokens
    /** The users whose session cleanup has been handed to the job queue. */
    var cleanups: seq<int>

    constructor ()
      ensures fresh(store) && store.View() == EMPTY && cleanups == []
    {
      store := new Tokens();
      cleanups := [];
    }

    method DecodeExpectedToken(t: Token, kind: Kind, now: int) returns (ok: bool)
      modifies store
      ensures store.View() == DecodedStore(old(store.View()), t, kind, now)
      ensures ok <==> Accepts(old(store.View()), t, kind, now)
    {
      if t.exp < now || t.kind != kind {
        return false;
      }
      var revoked := store.IsRevoked(t.jti, now);
      ok := !revoked && t.exp > now;
    }

    method Refresh(t: Token, next: Token, access: Token, now: int) returns (ok: bool)
      modifies store
      ensures ok <==> Succeeds(old(store.View()), RefreshPair(t, next, access), now)
      ensures store.View() == Next(old(store.View()), RefreshPair(t, next, access), now)
    {
      ok := DecodeExpectedToken(t, Kind.Refresh, now);
      if ok {
        store.Revoke(t.jti, t.exp, now);
        store.RegisterSession(t.user, next.jti, next.exp, now);
      }
    }

    /** The access token stays revoked when the refresh token that comes with it is refused. */
    method Logout(access: Token, refresh: Option<Token>, now: int) returns (ok: bool)
      modifies store
      ensures ok <==> Succeeds(old(store.View()), Op.Logout(access, refresh), now)
      ensures store.View() == Next(old(store.View()), Op.Logout(access, refresh), now)
    {
      ok := DecodeExpectedToken(access, Access, now);
      if !ok {
        return;
      }
      store.Revoke(access.jti, access.exp, now);
      if refresh.Some? {
        ok := DecodeExpectedToken(refresh.value, Kind.Refresh, now);
        if ok {
          store.Revoke(refresh.value.jti, refresh.value.exp, now);
        }
      }
    }

    /** `known`: the user the token names still exists; otherwise the reset is refused with nothing revoked. */
    method ResetPassword(t: Token, known: bool, now: int) returns (ok: bool)
      modifies store
      ensures ok <==> Succeeds(old(store.View()), Op.ResetPassword(t, known), now)
      ensures store.View() == Next(old(store.View()), Op.ResetPassword(t, known), now)
    {
      ok := DecodeExpectedToken(t, Reset, now);
      if ok && !known {
        return false;
      }
      if ok {
        store.Revoke(t.jti, t.exp, now);
        store.RevokeUserSessions(t.user, now);
      }
    }

    /** `changed`: the new password is stored, which happens before the access token is decoded. */
    method ChangePassword(user: int, currentOk: bool, access: Token, now: int) returns (changed: bool, ok: bool)
      modifies this`cleanups, store
      ensures changed <==> currentOk
      ensures ok <==> Succeeds(old(store.View()), Op.ChangePassword(user, currentOk, access), now)
      ensures cleanups == if ok then old(cleanups) + [user] else old(cleanups)
      ensures store.View() == Next(old(store.View()), Op.ChangePassword(user, currentOk, access), now)
    {
      if !currentOk {
        return false, false;
      }
      changed := true;
      ok := DecodeExpectedToken(access, Access, now);
      if ok {
        store.Revoke(access.jti, access.exp, now);
        store.RevokeUserSessions(user, now);
        cleanups := cleanups + [user];
      }
    }

    method RevokeSession(user: int, jti: string, now: int) returns (ok: bool)
      modifies store
      ensures ok <==> Succeeds(old(store.View()), Op.RevokeSession(user, jti), now)
      ensures store.View() == Next(old(store.View()), Op.RevokeSession(user, jti), now)
    {
      var live := store.ListSessions(user, now);
      ok := jti in live;
      if ok {
        store.RevokeSession(jti, now);
      }
    }
  }

  // ---------------------------------------------------------------- runs

  /** The store, and every token ever issued. */
  datatype World = World(store: Store, issued: map<string, Token>)

  datatype Event = Event(now: int, op: Op)

  const START := World(EMPTY, map[])

  function Created(store: Store, op: Op, now: int): seq<Token> {
    match op
    case Issue(t) => [t]
    case Login(r, a) => [r, a]
    case RefreshPair(_, r, a) => if Succeeds(store, op, now) then [r, a] else []
    case _ => []
  }

  function Presented(op: Op): seq<Token> {
    match op
    case RefreshPair(t, _, _) => [t]
    case Logout(a, r) => if r.Some? then [a, r.value] else [a]
    case ResetPassword(t, _) => [t]
    case ChangePassword(_, _, a) => [a]
    case ConfirmEmail(t, _) => [t]
    case Authenticate(a) => [a]
    case _ => []
  }

  function Added(issued: map<string, Token>, tokens: seq<Token>): map<string, Token>
    decreases tokens
  {
    if tokens == [] then issued else Added(issued[tokens[0].jti := tokens[0]], tokens[1..])
  }

  function Step(w: World, e: Event): World {
    World(Next(w.store, e.op, e.now), Added(w.issued, Created(w.store, e.op, e.now)))
  }

  function After(w: World, run: seq<Event>): World
    decreases run
  {
    if run == [] then w else After(Step(w, run[0]), run[1..])
  }

  ghost predicate Genuine(w: World, t: Token) {
    t.jti in w.issued && w.issued[t.jti] == t
  }

  /** Signatures cannot be forged, token ids are fresh, and only login and refresh make refresh tokens. */
  ghost predicate Legal(w: World, e: Event) {
    && (forall t | t in Presented(e.op) :: Genuine(w, t))
    && match e.op
       case Issue(t) => t.jti !in w.issued && t.kind != Refresh
       case Login(r, a) =>
         r.jti !in w.issued && a.jti !in w.issued && r.jti != a.jti && r.kind == Refresh && a.kind == Access
       case RefreshPair(t, r, a) =>
         && r.jti !in w.issued && a.jti !in w.issued && r.jti != a.jti
         && r.kind == Refresh && a.kind == Access && r.user == t.user
       case _ => true
  }

  /** A run of legal events with a nondecreasing clock, starting no earlier than `now`. */
  ghost predicate LegalRun(w: World, run: seq<Event>, now: int)
    decreases run
  {
    run == [] || (now <= run[0].now && Legal(w, run[0]) && LegalRun(Step(w, run[0]), run[1..], run[0].now))
  }

  function Clock(run: seq<Event>, now: int): int {
    if run == [] then now else run[|run| - 1].now
  }

  // ---------------------------------------------------------------- the invariant

  /** The token is expired, blacklisted with its own expiry, or listed in both the session map and the index. */
  ghost predicate Tracked(store: Store, t: Token, now: int) {
    || Dead(store, t, now)
    || (t.jti in store.sessions && t.user in store.index && t.jti in store.index[t.user])
  }

  ghost predicate Dead(store: Store, t: Token, now: int) {
    t.exp <= now || (t.jti in store.tokens && store.tokens[t.jti] == t.exp)
  }

  ghost predicate Agrees(store: Store, issued: map<string, Token>) {
    && (forall j | j in issued :: issued[j].jti == j)
    && (forall j | j in store.sessions ::
          j in issued && issued[j].user == store.sessions[j].userId && issued[j].exp == store.sessions[j].expiresAt)
    && (forall j | j in store.tokens :: j in issued && issued[j].exp == store.tokens[j])
  }

  ghost predicate Inv(store: Store, issued: map<string, Token>, now: int) {
    && Agrees(store, issued)
    && forall j | j in issued && issued[j].kind == Refresh :: Tracked(store, issued[j], now)
  }

  lemma InvPruned(store: Store, issued: map<string, Token>, now: int)
    requires Inv(store, issued, now)
    ensures Inv(Pruned(store, now), issued, now)
  {
    var next := Pruned(store, now);
    forall j | j in issued && issued[j].kind == Refresh ensures Tracked(next, issued[j], now) {
      var t := issued[j];
      if !Dead(store, t, now) {
        assert j in Remaining(store, Expired(store, now), t.user);
      }
    }
  }

  /** Blacklisting issued tokens with their own expiry keeps the invariant. */
  lemma InvBlacklisted(store: Store, issued: map<string, Token>, records: map<string, int>, now: int)
    requires Inv(store, issued, now)
    requires forall j | j in records :: j in issued && issued[j].exp == records[j]
    ensures Inv(Pruned(store.(tokens := store.tokens + records), now), issued, now)
  {
    InvPruned(store.(tokens := store.tokens + records), issued, now);
  }

  lemma InvRevoked(store: Store, issued: map<string, Token>, t: Token, now: int)
    requires Inv(store, issued, now) && t.jti in issued && issued[t.jti] == t
    ensures Inv(Revoked(store, t.jti, t.exp, now), issued, now)
  {
    assert store.tokens + map[t.jti := t.exp] == store.tokens[t.jti := t.exp];
    InvBlacklisted(store, issued, map[t.jti := t.exp], now);
  }

  lemma InvRegistered(store: Store, issued: map<string, Token>, t: Token, now: int)
    requires Inv(store, issued, now) && t.jti !in issued
    ensures Inv(Registered(store, t.user, t.jti, t.exp, now), issued[t.jti := t], now)
  {
    var next := store.(sessions := store.sessions[t.jti := Session(t.user, now, t.exp)],
                       index := store.index[t.user := Indexed(store, t.user) + {t.jti}]);
    assert Inv(next, issued[t.jti := t], now);
    InvPruned(next, issued[t.jti := t], now);
  }

  /** Moving the sessions in `dead` to the blacklist; the new index keeps every other indexed token id. */
  lemma InvKilled(store: Store, issued: map<string, Token>, dead: set<string>, index: map<int, set<string>>, now: int)
    requires Inv(store, issued, now)
    requires forall u, j | u in store.index && j in store.index[u] && j !in dead :: u in index && j in index[u]
    ensures var next := Killed(store, dead, index, now);
            && Inv(next, issued, now)
            && forall j | j in dead && j in store.sessions :: Dead(next, issued[j], now)
  {
    var bare := store.(sessions := store.sessions - dead, index := index);
    var records := Expiries(store, dead);
    var listed := bare.(tokens := bare.tokens + records);
    forall j | j in issued && issued[j].kind == Refresh ensures Tracked(listed, issued[j], now) {
      assert Tracked(store, issued[j], now);
    }
    assert Inv(listed, issued, now);
    if records == map[] {
      assert bare.tokens + records == bare.tokens;
    } else {
      InvPruned(listed, issued, now);
    }
    forall j | j in dead && j in store.sessions ensures Dead(Killed(store, dead, index, now), issued[j], now) {
      assert j in records;
    }
  }

  lemma InvSpent(store: Store, issued: map<string, Token>, t: Token, kind: Kind, now: int)
    requires Inv(store, issued, now) && t.jti in issued && issued[t.jti] == t
    ensures Inv(Spent(store, t, kind, now), issued, now)
    ensures Accepts(store, t, kind, now) ==> Dead(Spent(store, t, kind, now), t, now)
  {
    InvPruned(store, issued, now);
    if Accepts(store, t, kind, now) {
      InvRevoked(Pruned(store, now), issued, t, now);
    }
  }

  lemma InvUserRevoked(store: Store, issued: map<string, Token>, user: int, now: int)
    requires Inv(store, issued, now)
    ensures Inv(UserRevoked(store, user, now), issued, now)
    ensures forall j | j in issued && issued[j].kind == Refresh && issued[j].user == user ::
              Dead(UserRevoked(store, user, now), issued[j], now)
  {
    InvKilled(store, issued, Indexed(store, user), store.index - {user}, now);
    forall j | j in issued && issued[j].kind == Refresh && issued[j].user == user
      ensures Dead(UserRevoked(store, user, now), issued[j], now)
    {
      assert Tracked(store, issued[j], now);
      if Dead(store, issued[j], now) {
        DeadKilled(store, issued, Indexed(store, user), store.index - {user}, issued[j], now);
      }
    }
  }

  lemma DeadKilled(
      store: Store, issued: map<string, Token>, dead: set<string>, index: map<int, set<string>>, t: Token, now: int)
    requires Agrees(store, issued) && Dead(store, t, now) && t.jti in issued && issued[t.jti] == t
    ensures Dead(Killed(store, dead, index, now), t, now)
  {
  }

  lemma InvSessionRevoked(store: Store, issued: map<string, Token>, jti: string, now: int)
    requires Inv(store, issued, now)
    ensures Inv(SessionRevoked(store, jti, now), issued, now)
    ensures jti in store.sessions ==> Dead(SessionRevoked(store, jti, now), issued[jti], now)
  {
    if jti in store.sessions {
      var listed := Store(store.tokens[jti := store.sessions[jti].expiresAt],
                          store.sessions - {jti}, Unindexed(store, {jti}));
      forall j | j in issued && issued[j].kind == Refresh ensures Tracked(listed, issued[j], now) {
        assert Tracked(store, issued[j], now);
        if j != jti && !Dead(store, issued[j], now) {
          assert j in Remaining(store, {jti}, issued[j].user);
        }
      }
      InvPruned(listed, issued, now);
    }
  }

  lemma InvLater(store: Store, issued: map<string, Token>, now: int, later: int)
    requires Inv(store, issued, now) && now <= later
    ensures Inv(store, issued, later)
  {
  }

  /** A token that is not a refresh token needs no tracking. */
  lemma InvIssued(store: Store, issued: map<string, Token>, t: Token, now: int)
    requires Inv(store, issued, now) && t.jti !in issued && t.kind != Refresh
    ensures Inv(store, issued[t.jti := t], now)
  {
  }

  lemma AddedPair(issued: map<string, Token>, r: Token, a: Token)
    ensures Added(issued, [r, a]) == issued[r.jti := r][a.jti := a]
    ensures Added(issued, [r]) == issued[r.jti := r]
  {
    assert [r, a][1..] == [a] && [a][1..] == [] && [r][1..] == [];
    assert Added(issued, [r]) == Added(issued[r.jti := r], []);
    assert Added(issued[r.jti := r], [a]) == Added(issued[r.jti := r][a.jti := a], []);
  }

  lemma StepInv(w: World, e: Event, now: int)
    requires Inv(w.store, w.issued, now) && now <= e.now && Legal(w, e)
    ensures Inv(Step(w, e).store, Step(w, e).issued, e.now)
  {
    InvLater(w.store, w.issued, now, e.now);
    var now := e.now;
    match e.op
    case Issue(t) =>
      AddedPair(w.issued, t, t);
      InvIssued(w.store, w.issued, t, now);
    case Login(r, a) =>
      AddedPair(w.issued, r, a);
      InvRegistered(w.store, w.issued, r, now);
      InvIssued(Step(w, e).store, w.issued[r.jti := r], a, now);
    case RefreshPair(t, r, a) =>
      assert t in Presented(e.op);
      InvSpent(w.store, w.issued, t, Refresh, now);
      if Accepts(w.store, t, Refresh, now) {
        AddedPair(w.issued, r, a);
        InvRegistered(Spent(w.store, t, Refresh, now), w.issued, r, now);
        InvIssued(Step(w, e).store, w.issued[r.jti := r], a, now);
      }
    case Logout(a, r) =>
      assert a in Presented(e.op);
      InvSpent(w.store, w.issued, a, Access, now);
      if r.Some? {
        assert r.value in Presented(e.op);
        InvSpent(Spent(w.store, a, Access, now), w.issued, r.value, Refresh, now);
      }
    case ResetPassword(t, known) =>
      assert t in Presented(e.op);
      InvPruned(w.store, w.issued, now);
      InvSpent(w.store, w.issued, t, Reset, now);
      InvUserRevoked(Spent(w.store, t, Reset, now), w.issued, t.user, now);
    case ChangePassword(user, _, a) =>
      assert a in Presented(e.op);
      InvSpent(w.store, w.issued, a, Access, now);
      InvUserRevoked(Spent(w.store, a, Access, now), w.issued, user, now);
    case ConfirmEmail(t, _) =>
      assert t in Presented(e.op);
      InvPruned(w.store, w.issued, now);
      InvSpent(w.store, w.issued, t, VerifyEmail, now);
    case RevokeSession(user, jti) =>
      InvPruned(w.store, w.issued, now);
      InvSessionRevoked(Pruned(w.store, now), w.issued, jti, now);
    case RevokeOthers(user, keep) =>
      InvUserRevoked(w.store, w.issued, user, now);
      if keep.Some? {
        InvKilled(w.store, w.issued, Indexed(w.store, user) - {keep.value}, w.store.index[user := {keep.value}], now);
      }
    case CleanupSessions(user) =>
      InvUserRevoked(w.store, w.issued, user, now);
    case Authenticate(a) =>
      InvPruned(w.store, w.issued, now);
  }

  lemma {:induction false} RunInv(w: World, run: seq<Event>, now: int)
    requires Inv(w.store, w.issued, now) && LegalRun(w, run, now)
    ensures Inv(After(w, run).store, After(w, run).issued, Clock(run, now))
    decreases run
  {
    if run == [] {
    } else {
      StepInv(w, run[0], now);
      RunInv(Step(w, run[0]), run[1..], run[0].now);
      assert run[1..] != [] ==> run[1..][|run[1..]| - 1] == run[|run| - 1];
    }
  }

  // ---------------------------------------------------------------- dead tokens stay dead

  lemma DeadSpent(store: Store, issued: map<string, Token>, spent: Token, kind: Kind, t: Token, now: int)
    requires Agrees(store, issued) && Dead(store, t, now)
    requires t.jti in issued && issued[t.jti] == t && spent.jti in issued && issued[spent.jti] == spent
    ensures Dead(Spent(store, spent, kind, now), t, now)
  {
  }

  /** Once dead, a token stays dead after every legal step at a later time. */
  lemma StepDead(w: World, e: Event, t: Token, now: int)
    requires Inv(w.store, w.issued, now) && now <= e.now && Legal(w, e)
    requires Genuine(w, t) && Dead(w.store, t, now)
    ensures Genuine(Step(w, e), t) && Dead(Step(w, e).store, t, e.now)
  {
    StepInv(w, e, now);
    InvLater(w.store, w.issued, now, e.now);
    var now := e.now;
    match e.op
    case Issue(a) =>
      AddedPair(w.issued, a, a);
    case Login(r, a) =>
      AddedPair(w.issued, r, a);
    case RefreshPair(p, r, a) =>
      assert p in Presented(e.op);
      AddedPair(w.issued, r, a);
      DeadSpent(w.store, w.issued, p, Refresh, t, now);
      InvSpent(w.store, w.issued, p, Refresh, now);
    case Logout(a, r) =>
      assert a in Presented(e.op);
      DeadSpent(w.store, w.issued, a, Access, t, now);
      InvSpent(w.store, w.issued, a, Access, now);
      if r.Some? {
        assert r.value in Presented(e.op);
        DeadSpent(Spent(w.store, a, Access, now), w.issued, r.value, Refresh, t, now);
      }
    case ResetPassword(p, known) =>
      assert p in Presented(e.op);
      DeadSpent(w.store, w.issued, p, Reset, t, now);
      InvSpent(w.store, w.issued, p, Reset, now);
      var spent := Spent(w.store, p, Reset, now);
      DeadKilled(spent, w.issued, Indexed(spent, p.user), spent.index - {p.user}, t, now);
    case ChangePassword(user, _, a) =>
      assert a in Presented(e.op);
      DeadSpent(w.store, w.issued, a, Access, t, now);
      InvSpent(w.store, w.issued, a, Access, now);
      var spent := Spent(w.store, a, Access, now);
      DeadKilled(spent, w.issued, Indexed(spent, user), spent.index - {user}, t, now);
    case ConfirmEmail(p, _) =>
      assert p in Presented(e.op);
      DeadSpent(w.store, w.issued, p, VerifyEmail, t, now);
    case RevokeSession(user, jti) =>
      InvPruned(w.store, w.issued, now);
    case RevokeOthers(user, keep) =>
      DeadKilled(w.store, w.issued, Indexed(w.store, user), w.store.index - {user}, t, now);
      if keep.Some? {
        var dead, index := Indexed(w.store, user) - {keep.value}, w.store.index[user := {keep.value}];
        DeadKilled(w.store, w.issued, dead, index, t, now);
      }
    case CleanupSessions(user) =>
      DeadKilled(w.store, w.issued, Indexed(w.store, user), w.store.index - {user}, t, now);
    case Authenticate(a) =>
  }

  /** Dead tokens stay dead over whole runs. */
  lemma {:induction false} RunDead(w: World, run: seq<Event>, t: Token, now: int)
    requires Inv(w.store, w.issued, now) && LegalRun(w, run, now)
    requires Genuine(w, t) && Dead(w.store, t, now)
    ensures Genuine(After(w, run), t) && Dead(After(w, run).store, t, Clock(run, now))
    ensures Agrees(After(w, run).store, After(w, run).issued)
    decreases run
  {
    if run == [] {
    } else {
      StepInv(w, run[0], now);
      StepDead(w, run[0], t, now);
      assert run[1..] != [] ==> run[1..][|run[1..]| - 1] == run[|run| - 1];
      RunDead(Step(w, run[0]), run[1..], t, run[0].now);
    }
  }

  /** A dead token is refused by the decoder, whatever type is expected, now and after any further legal run. */
  lemma {:induction false} DeadIsRefused(w: World, run: seq<Event>, t: Token, kind: Kind, now: int, later: int)
    requires Inv(w.store, w.issued, now) && LegalRun(w, run, now) && Clock(run, now) <= later
    requires Genuine(w, t) && Dead(w.store, t, now)
    ensures !Accepts(After(w, run).store, t, kind, later)
  {
    RunDead(w, run, t, now);
  }

  /**
   * Requests are authenticated without the decoder's `exp <= now` check: a dead access token still authenticates in
   * exactly one second, the one it expires in, when pruning has just dropped it from the blacklist.
   */
  lemma {:induction false} DeadAuthenticatesIff(w: World, run: seq<Event>, t: Token, now: int, later: int)
    requires Inv(w.store, w.issued, now) && LegalRun(w, run, now) && Clock(run, now) <= later
    requires Genuine(w, t) && Dead(w.store, t, now) && t.kind == Access
    ensures Succeeds(After(w, run).store, Authenticate(t), later) <==> later == t.exp
  {
    RunDead(w, run, t, now);
  }

  /** The step is one that promises to end the refresh token `t` for good. */
  ghost predicate Ends(w: World, e: Event, t: Token) {
    && Succeeds(w.store, e.op, e.now)
    && match e.op
       case ResetPassword(p, _) => p.user == t.user
       case ChangePassword(user, _, _) => user == t.user
       case CleanupSessions(user) => user == t.user
       case RevokeOthers(user, keep) => user == t.user && keep != Some(t.jti)
       case RevokeSession(user, jti) => jti == t.jti
       case RefreshPair(p, _, _) => p == t
       case Logout(_, r) => r == Some(t)
       case _ => false
  }

  lemma StepEnds(w: World, e: Event, t: Token, now: int)
    requires Inv(w.store, w.issued, now) && now <= e.now && Legal(w, e) && Ends(w, e, t)
    requires Genuine(w, t) && t.kind == Refresh
    ensures Genuine(Step(w, e), t) && Dead(Step(w, e).store, t, e.now)
  {
    InvLater(w.store, w.issued, now, e.now);
    var now := e.now;
    match e.op
    case ResetPassword(p, _) =>
      assert p in Presented(e.op);
      InvSpent(w.store, w.issued, p, Reset, now);
      InvUserRevoked(Spent(w.store, p, Reset, now), w.issued, t.user, now);
    case ChangePassword(_, _, a) =>
      assert a in Presented(e.op);
      InvSpent(w.store, w.issued, a, Access, now);
      InvUserRevoked(Spent(w.store, a, Access, now), w.issued, t.user, now);
    case CleanupSessions(_) =>
      InvUserRevoked(w.store, w.issued, t.user, now);
    case RevokeOthers(user, keep) =>
      if keep.None? {
        InvUserRevoked(w.store, w.issued, user, now);
      } else {
        var dead, index := Indexed(w.store, user) - {keep.value}, w.store.index[user := {keep.value}];
        InvKilled(w.store, w.issued, dead, index, now);
        assert Tracked(w.store, t, now);
        if Dead(w.store, t, now) {
          DeadKilled(w.store, w.issued, dead, index, t, now);
        }
      }
    case RevokeSession(_, jti) =>
      InvPruned(w.store, w.issued, now);
      InvSessionRevoked(Pruned(w.store, now), w.issued, jti, now);
    case RefreshPair(p, r, a) =>
      AddedPair(w.issued, r, a);
      InvSpent(w.store, w.issued, p, Refresh, now);
    case Logout(a, _) =>
      assert a in Presented(e.op);
      InvSpent(w.store, w.issued, a, Access, now);
      InvSpent(Spent(w.store, a, Access, now), w.issued, t, Refresh, now);
  }

  /**
   * A refresh token ended by a password reset or change, by revoking sessions, by its own refresh or by logout is
   * never accepted again, whatever legal run comes before and after, although pruning forgets both its session
   * and its blacklist entry.
   */
  lemma EndedTokenIsNeverAccepted(before: seq<Event>, e: Event, after: seq<Event>, t: Token, start: int, later: int)
    requires LegalRun(START, before, start)
    requires var w := After(START, before);
             && LegalRun(w, [e] + after, Clock(before, start))
             && Genuine(w, t) && t.kind == Refresh && Ends(w, e, t)
    requires Clock([e] + after, start) <= later
    ensures !Accepts(After(After(START, before), [e] + after).store, t, Refresh, later)
  {
    var w := After(START, before);
    RunInv(START, before, start);
    assert ([e] + after)[0] == e && ([e] + after)[1..] == after;
    StepInv(w, e, Clock(before, start));
    StepEnds(w, e, t, Clock(before, start));
    DeadIsRefused(Step(w, e), after, t, Refresh, e.now, later);
  }

  /** After a password reset, no refresh token issued to that user earlier is accepted at any later time. */
  lemma PasswordResetIsFinal(before: seq<Event>, e: Event, after: seq<Event>, t: Token, start: int, later: int)
    requires e.op.ResetPassword? && LegalRun(START, before, start)
    requires var w := After(START, before);
             && LegalRun(w, [e] + after, Clock(before, start)) && Succeeds(w.store, e.op, e.now)
             && Genuine(w, t) && t.kind == Refresh && t.user == e.op.reset.user
    requires Clock([e] + after, start) <= later
    ensures !Accepts(After(After(START, before), [e] + after).store, t, Refresh, later)
  {
    EndedTokenIsNeverAccepted(before, e, after, t, start, later);
  }

  /** A refresh token that `refresh` accepted once is never accepted by it again. */
  lemma RefreshAtMostOnce(before: seq<Event>, e: Event, between: seq<Event>, again: Event, start: int)
    requires e.op.RefreshPair? && again.op.RefreshPair? && again.op.presented == e.op.presented
    requires LegalRun(START, before, start)
    requires var w := After(START, before);
             LegalRun(w, [e] + between, Clock(before, start)) && Succeeds(w.store, e.op, e.now)
    requires Clock([e] + between, start) <= again.now
    ensures !Succeeds(After(After(START, before), [e] + between).store, again.op, again.now)
  {
    var w := After(START, before);
    assert ([e] + between)[0] == e;
    assert e.op.presented in Presented(e.op);
    EndedTokenIsNeverAccepted(before, e, between, e.op.presented, start, again.now);
  }

  /**
   * A password change whose access token is refused still stores the new password but ends no session: it ends
   * the sessions exactly when the access token is accepted.
   */
  lemma ChangeEndsSessionsOnlyIfAccepted(w: World, user: int, access: Token, t: Token, now: int)
    requires Inv(w.store, w.issued, now) && Genuine(w, t) && Genuine(w, access)
    requires t.kind == Refresh && t.user == user && Accepts(w.store, t, Refresh, now)
    ensures Accepts(Next(w.store, ChangePassword(user, true, access), now), t, Refresh, now)
            <==> !Accepts(w.store, access, Access, now)
  {
    if Accepts(w.store, access, Access, now) {
      var e := Event(now, ChangePassword(user, true, access));
      assert Presented(e.op) == [access];
      StepInv(w, e, now);
      StepEnds(w, e, t, now);
    } else {
      InvPruned(w.store, w.issued, now);
    }
  }

  /** A login at time 0 whose access token expires at 10, and the password change that presents it at 10. */
  const REFRESH_TOKEN := Token("r", 1, Refresh, 100)
  const ACCESS_TOKEN := Token("a", 1, Access, 10)
  const EARLY_LOGIN := Event(0, Login(REFRESH_TOKEN, ACCESS_TOKEN))
  const LATE_CHANGE := Event(10, ChangePassword(1, true, ACCESS_TOKEN))

  lemma LoggedInState()
    ensures var w := Step(START, EARLY_LOGIN);
            && w.store.tokens == map[] && w.issued == map["r" := REFRESH_TOKEN, "a" := ACCESS_TOKEN]
            && Legal(w, LATE_CHANGE)
  {
    AddedPair(map[], REFRESH_TOKEN, ACCESS_TOKEN);
    assert Presented(LATE_CHANGE.op) == [ACCESS_TOKEN];
  }

  lemma TwoEvents(w: World, first: Event, second: Event)
    ensures After(w, [first]) == Step(w, first)
    ensures After(w, [first, second]) == Step(Step(w, first), second)
    ensures LegalRun(w, [first, second], first.now)
            <==> Legal(w, first) && first.now <= second.now && Legal(Step(w, first), second)
  {
    assert [first, second][1..] == [second] && [second][1..] == [] && [first][1..] == [];
    assert After(Step(w, first), [second]) == After(Step(Step(w, first), second), []);
    assert LegalRun(Step(Step(w, first), second), [], second.now);
  }

  /**
   * Such a state is reachable: at the second its access token expires the user is still authenticated and changes the
   * password, the change refuses the token, and the refresh token of the earlier login is accepted afterwards.
   */
  lemma ChangeCanKeepSessions()
    ensures LegalRun(START, [EARLY_LOGIN, LATE_CHANGE], 0)
    ensures Succeeds(After(START, [EARLY_LOGIN]).store, Authenticate(ACCESS_TOKEN), 10)
    ensures !Succeeds(After(START, [EARLY_LOGIN]).store, LATE_CHANGE.op, 10)
    ensures Accepts(After(START, [EARLY_LOGIN, LATE_CHANGE]).store, REFRESH_TOKEN, Refresh, 10)
  {
    TwoEvents(START, EARLY_LOGIN, LATE_CHANGE);
    LoggedInState();
    assert Presented(EARLY_LOGIN.op) == [];
  }

  const EARLY_LOGOUT := Event(5, Logout(ACCESS_TOKEN, None))

  lemma LoggedOutState()
    ensures var w := Step(START, EARLY_LOGIN);
            && Legal(w, EARLY_LOGOUT) && Succeeds(w.store, EARLY_LOGOUT.op, 5)
            && Step(w, EARLY_LOGOUT).store.tokens == map["a" := 10]
  {
    LoggedInState();
    assert Presented(EARLY_LOGOUT.op) == [ACCESS_TOKEN];
  }

  /** Such a state is reachable: logged out at 5 and refused at 9, the access token is authenticated at 10. */
  lemma LoggedOutCanAuthenticate()
    ensures LegalRun(START, [EARLY_LOGIN, EARLY_LOGOUT], 0)
    ensures Succeeds(After(START, [EARLY_LOGIN]).store, EARLY_LOGOUT.op, 5)
    ensures !Succeeds(After(START, [EARLY_LOGIN, EARLY_LOGOUT]).store, Authenticate(ACCESS_TOKEN), 9)
    ensures Succeeds(After(START, [EARLY_LOGIN, EARLY_LOGOUT]).store, Authenticate(ACCESS_TOKEN), 10)
  {
    TwoEvents(START, EARLY_LOGIN, EARLY_LOGOUT);
    LoggedOutState();
    assert Presented(EARLY_LOGIN.op) == [];
  }
}
