/** The in-memory session, index and blacklist maps of app/services/token_store.py. */
module TokenStore {
  import opened Basics

  datatype Session = Session(userId: int, issuedAt: int, expiresAt: int)

  /** The blacklist, the sessions by token id, and the token ids of each user. */
  datatype Store = Store(tokens: map<string, int>, sessions: map<string, Session>, index: map<int, set<string>>)

  const EMPTY := Store(map[], map[], map[])

  /** The token ids of `user` that stay indexed when the sessions in `gone` are dropped. */
  function Remaining(store: Store, gone: set<string>, user: int): set<string>
    requires user in store.index
  {
    set j | j in store.index[user] && !(j in gone && j in store.sessions && store.sessions[j].userId == user)
  }

  /** Each dropped session leaves its own user's index set, and a set emptied this way is dropped. */
  function Unindexed(store: Store, gone: set<string>): map<int, set<string>> {
    map u | u in store.index && (store.index[u] == {} || Remaining(store, gone, u) != {}) :: Remaining(store, gone, u)
  }

  /** Discarding one token id from a user's index set, as a single step. */
  function Discarded(index: map<int, set<string>>, jti: string, user: int): map<int, set<string>> {
    if user !in index || index[user] == {} then index
    else if index[user] - {jti} == {} then index - {user}
    else index[user := index[user] - {jti}]
  }

  lemma UnindexedNothing(store: Store)
    ensures Unindexed(store, {}) == store.index
  {
    forall u | u in store.index ensures Remaining(store, {}, u) == store.index[u] {
    }
  }

  lemma UnindexedStep(store: Store, gone: set<string>, jti: string)
    requires jti in store.sessions && jti !in gone
    ensures Unindexed(store, gone + {jti})
            == Discarded(Unindexed(store, gone), jti, store.sessions[jti].userId)
  {
    var user := store.sessions[jti].userId;
    forall u | u in store.index
      ensures Remaining(store, gone + {jti}, u)
              == if u == user then Remaining(store, gone, u) - {jti} else Remaining(store, gone, u)
    {
    }
    var before, after := Unindexed(store, gone), Unindexed(store, gone + {jti});
    if user in store.index && Remaining(store, gone, user) == {} {
      assert Remaining(store, gone + {jti}, user) == {};
      assert after == before;
    } else if user in store.index {
      assert before[user] == Remaining(store, gone, user);
      assert after == Discarded(before, jti, user);
    } else {
      assert after == before;
    }
  }

  function Expired(store: Store, now: int): set<string> {
    set j | j in store.sessions && store.sessions[j].expiresAt <= now
  }

  function Live(tokens: map<string, int>, now: int): map<string, int> {
    map j | j in tokens && tokens[j] > now :: tokens[j]
  }

  function Pruned(store: Store, now: int): Store {
    Store(Live(store.tokens, now),
          store.sessions - Expired(store, now),
          Unindexed(store, Expired(store, now)))
  }

  function Revoked(store: Store, jti: string, expiresAt: int, now: int): Store {
    Pruned(store.(tokens := store.tokens[jti := expiresAt]), now)
  }

  function Indexed(store: Store, user: int): set<string> {
    if user in store.index then store.index[user] else {}
  }

  function Registered(store: Store, user: int, jti: string, expiresAt: int, now: int): Store {
    Pruned(
      store.(sessions := store.sessions[jti := Session(user, now, expiresAt)],
             index := store.index[user := Indexed(store, user) + {jti}]),
      now)
  }

  function SessionRevoked(store: Store, jti: string, now: int): Store {
    if jti !in store.sessions then store
    else
      Revoked(store.(sessions := store.sessions - {jti}, index := Unindexed(store, {jti})),
              jti, store.sessions[jti].expiresAt, now)
  }

  /** The given sessions leave the session map and are blacklisted until they expire. */
  function Killed(store: Store, dead: set<string>, index: map<int, set<string>>, now: int): Store {
    var records := Expiries(store, dead);
    Blacklisted(store.(sessions := store.sessions - dead, index := index), records, now)
  }

  function Expiries(store: Store, dead: set<string>): map<string, int> {
    map j | j in dead && j in store.sessions :: store.sessions[j].expiresAt
  }

  /** Revoking nothing does not even prune. */
  function Blacklisted(store: Store, records: map<string, int>, now: int): Store {
    if records == map[] then store
    else Pruned(store.(tokens := store.tokens + records), now)
  }

  function UserRevoked(store: Store, user: int, now: int): Store {
    Killed(store, Indexed(store, user), store.index - {user}, now)
  }

  function OthersRevoked(store: Store, user: int, keep: Option<string>, now: int): Store {
    match keep
    case None => UserRevoked(store, user, now)
    case Some(jti) => Killed(store, Indexed(store, user) - {jti}, store.index[user := {jti}], now)
  }

  /** Pruning again at the same time changes nothing but the blacklist. */
  lemma PrunedAgain(store: Store, tokens: map<string, int>, now: int)
    ensures var once := Pruned(store, now);
            Pruned(once.(tokens := tokens), now)
            == once.(tokens := Live(tokens, now))
  {
    var once := Pruned(store, now).(tokens := tokens);
    assert Expired(once, now) == {};
    UnindexedNothing(once);
    assert once.sessions - {} == once.sessions;
  }

  lemma BlacklistedStep(store: Store, records: map<string, int>, jti: string, expiresAt: int, now: int)
    requires jti !in records
    ensures Revoked(Blacklisted(store, records, now), jti, expiresAt, now)
            == Blacklisted(store, records[jti := expiresAt], now)
  {
    assert store.tokens + records[jti := expiresAt] == (store.tokens + records)[jti := expiresAt];
    if records == map[] {
      assert store.tokens + records == store.tokens;
    } else {
      var both := store.tokens + records;
      PrunedParts(store, both, now);
      PrunedParts(store, both[jti := expiresAt], now);
      PrunedAgain(store, Live(both, now)[jti := expiresAt], now);
      LiveStep(both, jti, expiresAt, now);
    }
  }

  lemma LiveStep(tokens: map<string, int>, jti: string, expiresAt: int, now: int)
    ensures Live(Live(tokens, now)[jti := expiresAt], now) == Live(tokens[jti := expiresAt], now)
  {
  }

  /** Pruning the blacklist and pruning the sessions are independent. */
  lemma PrunedParts(store: Store, tokens: map<string, int>, now: int)
    ensures Pruned(store.(tokens := tokens), now)
            == Pruned(store, now).(tokens := Live(tokens, now))
  {
  }

  ghost predicate NewestFirst(sessions: map<string, Session>, jtis: seq<string>) {
    && (forall j | j in jtis :: j in sessions)
    && (forall i, k | 0 <= i < k < |jtis| ::
          jtis[i] != jtis[k] && sessions[jtis[i]].issuedAt >= sessions[jtis[k]].issuedAt)
  }

  /** Puts a session in front of the older ones. */
  function Placed(sessions: map<string, Session>, jtis: seq<string>, jti: string): seq<string>
    requires jti in sessions && forall j | j in jtis :: j in sessions
  {
    if jtis == [] || sessions[jtis[0]].issuedAt < sessions[jti].issuedAt then [jti] + jtis
    else [jtis[0]] + Placed(sessions, jtis[1..], jti)
  }

  lemma {:induction false} PlacedIsNewestFirst(sessions: map<string, Session>, jtis: seq<string>, jti: string)
    requires NewestFirst(sessions, jtis) && jti in sessions && jti !in jtis
    ensures forall j :: j in Placed(sessions, jtis, jti) <==> j in jtis || j == jti
    ensures NewestFirst(sessions, Placed(sessions, jtis, jti))
  {
    if jtis == [] || sessions[jtis[0]].issuedAt < sessions[jti].issuedAt {
    } else {
      PlacedIsNewestFirst(sessions, jtis[1..], jti);
      var rest := Placed(sessions, jtis[1..], jti);
      assert jtis == [jtis[0]] + jtis[1..];
      forall k | 0 <= k < |rest|
        ensures jtis[0] != rest[k] && sessions[jtis[0]].issuedAt >= sessions[rest[k]].issuedAt
      {
        assert rest[k] in rest;
        if rest[k] != jti {
          var i :| 0 <= i < |jtis[1..]| && jtis[1..][i] == rest[k];
          assert jtis[i + 1] == rest[k];
        }
      }
    }
  }

  class Tokens {
    var tokens: map<string, int>
    var sessions: map<string, Session>
    var userSessions: map<int, set<string>>

    function View(): Store
      reads this
    {
      Store(tokens, sessions, userSessions)
    }

    constructor ()
      ensures View() == EMPTY
    {
      tokens, sessions, userSessions := map[], map[], map[];
    }

    method Revoke(jti: string, expiresAt: int, now: int)
      modifies this
      ensures View() == Revoked(old(View()), jti, expiresAt, now)
    {
      tokens := tokens[jti := expiresAt];
      PruneExpired(now);
    }

    method IsRevoked(jti: string, now: int) returns (revoked: bool)
      modifies this
      ensures View() == Pruned(old(View()), now)
      ensures revoked <==> jti in View().tokens
    {
      PruneExpired(now);
      revoked := jti in tokens;
    }

    method RegisterSession(user: int, jti: string, expiresAt: int, now: int)
      modifies this
      ensures View() == Registered(old(View()), user, jti, expiresAt, now)
    {
      sessions := sessions[jti := Session(user, now, expiresAt)];
      userSessions := userSessions[user := (if user in userSessions then userSessions[user] else {}) + {jti}];
      PruneExpired(now);
    }

    /** The ids of the user's live sessions, each once, the newest first. */
    method ListSessions(user: int, now: int) returns (jtis: seq<string>)
      modifies this
      ensures View() == Pruned(old(View()), now)
      ensures forall j :: j in jtis <==> j in sessions && sessions[j].userId == user
      ensures NewestFirst(sessions, jtis)
    {
      PruneExpired(now);
      jtis := [];
      var todo := set j | j in sessions && sessions[j].userId == user;
      while todo != {}
        invariant View() == Pruned(old(View()), now)
        invariant todo <= sessions.Keys && forall j | j in todo :: sessions[j].userId == user && j !in jtis
        invariant forall j :: j in jtis || j in todo <==> j in sessions && sessions[j].userId == user
        invariant NewestFirst(sessions, jtis)
        decreases todo
      {
        var jti :| jti in todo;
        PlacedIsNewestFirst(sessions, jtis, jti);
        jtis := Placed(sessions, jtis, jti);
        todo := todo - {jti};
      }
    }

    method RevokeSession(jti: string, now: int)
      modifies this
      ensures View() == SessionRevoked(old(View()), jti, now)
    {
      if jti !in sessions {
        return;
      }
      var record := sessions[jti];
      UnindexedNothing(View());
      UnindexedStep(View(), {}, jti);
      assert {} + {jti} == {jti};
      sessions := sessions - {jti};
      Unindex(jti, record.userId);
      Revoke(jti, record.expiresAt, now);
    }

    /** Takes a token id out of its user's index set and drops the set when that empties it. */
    method Unindex(jti: string, user: int)
      modifies this`userSessions
      ensures userSessions == Discarded(old(userSessions), jti, user)
    {
      if user in userSessions && userSessions[user] != {} {
        userSessions := userSessions[user := userSessions[user] - {jti}];
        if userSessions[user] == {} {
          userSessions := userSessions - {user};
        }
      }
    }

    method RevokeUserSessions(user: int, now: int)
      modifies this
      ensures View() == UserRevoked(old(View()), user, now)
    {
      var jtis := if user in userSessions then userSessions[user] else {};
      userSessions := userSessions - {user};
      var records := PopSessions(jtis);
      RevokeRecords(records, now);
    }

    method RevokeUserSessionsExcept(user: int, keep: Option<string>, now: int)
      modifies this
      ensures View() == OthersRevoked(old(View()), user, keep, now)
    {
      var jtis := if user in userSessions then userSessions[user] else {};
      if keep.Some? {
        jtis := jtis - {keep.value};
      }
      var records := PopSessions(jtis);
      if keep.None? {
        userSessions := userSessions - {user};
      } else {
        userSessions := userSessions[user := {keep.value}];
      }
      RevokeRecords(records, now);
    }

    /** The loop that pops each listed session and collects what is to be revoked. */
    method PopSessions(jtis: set<string>) returns (records: map<string, int>)
      modifies this`sessions
      ensures sessions == old(sessions) - jtis
      ensures records == Expiries(old(View()), jtis)
    {
      records := map[];
      var todo := jtis;
      while todo != {}
        invariant todo <= jtis
        invariant sessions == old(sessions) - (jtis - todo)
        invariant records == Expiries(old(View()), jtis - todo)
        decreases todo
      {
        var jti :| jti in todo;
        if jti in sessions {
          records := records[jti := sessions[jti].expiresAt];
        }
        sessions := sessions - {jti};
        todo := todo - {jti};
      }
    }

    method RevokeRecords(records: map<string, int>, now: int)
      modifies this
      ensures View() == Blacklisted(old(View()), records, now)
    {
      var todo := records.Keys;
      while todo != {}
        invariant todo <= records.Keys
        invariant View() == Blacklisted(old(View()), records - todo, now)
        decreases todo
      {
        var jti :| jti in todo;
        BlacklistedStep(old(View()), records - todo, jti, records[jti], now);
        assert (records - todo)[jti := records[jti]] == records - (todo - {jti});
        Revoke(jti, records[jti], now);
        todo := todo - {jti};
      }
      assert records - todo == records;
    }

    method PruneExpired(now: int)
      modifies this
      ensures View() == Pruned(old(View()), now)
    {
      tokens := Live(tokens, now);
      var todo := sessions.Keys;
      UnindexedNothing(old(View()));
      assert Expired(old(View()), now) - todo == {};
      while todo != {}
        invariant todo <= old(sessions).Keys
        invariant tokens == Pruned(old(View()), now).tokens
        invariant sessions == old(sessions) - (Expired(old(View()), now) - todo)
        invariant userSessions == Unindexed(old(View()), Expired(old(View()), now) - todo)
        decreases todo
      {
        var jti :| jti in todo;
        var record := sessions[jti];
        if record.expiresAt <= now {
          sessions := sessions - {jti};
          UnindexedStep(old(View()), Expired(old(View()), now) - todo, jti);
          Unindex(jti, record.userId);
          assert Expired(old(View()), now) - (todo - {jti}) == (Expired(old(View()), now) - todo) + {jti};
        } else {
          assert Expired(old(View()), now) - (todo - {jti}) == Expired(old(View()), now) - todo;
        }
        todo := todo - {jti};
      }
      assert Expired(old(View()), now) - todo == Expired(old(View()), now);
    }
  }
}
