/** The idempotency store and wrapper of app/services/idempotency.py and app/api/idempotency.py, in memory. */
module Idempotency {
  import opened Basics

  // ---------------------------------------------------------------- the record key

  /** What identifies a request: who sends it, the method, the path, and the Idempotency-Key header. */
  datatype KeyParts = KeyParts(actor: Option<nat>, verb: string, path: string, key: string)

  function Digits(n: nat): string {
    if n < 10 then ["0123456789"[n]] else Digits(n / 10) + ["0123456789"[n % 10]]
  }

  function Scope(actor: Option<nat>): string {
    match actor
    case None => "anonymous"
    case Some(id) => Digits(id)
  }

  function Tail(p: KeyParts): string {
    p.verb + ":" + (p.path + ":" + p.key)
  }

  function BuildKey(p: KeyParts): string {
    "idempotency:" + (Scope(p.actor) + ":" + Tail(p))
  }

  /** The parts in the order of the key, and what stands for the user. */
  lemma KeyShape(p: KeyParts)
    ensures BuildKey(p) == "idempotency:" + Scope(p.actor) + ":" + p.verb + ":" + p.path + ":" + p.key
    ensures Scope(None) == "anonymous" && Scope(Some(7)) == "7" && Scope(Some(12)) == "12"
  {
    assert Digits(12) == Digits(1) + ["0123456789"[2]];
    JoinAssociates("idempotency:" + Scope(p.actor) + ":", p.verb + ":", p.path + ":" + p.key);
    JoinAssociates("idempotency:", Scope(p.actor) + ":", Tail(p));
    JoinAssociates("idempotency:" + Scope(p.actor) + ":" + p.verb + ":", p.path + ":", p.key);
  }

  lemma JoinAssociates(a: string, b: string, c: string)
    ensures a + (b + c) == a + b + c
  {
  }

  function Colons(s: string): nat {
    if s == "" then 0 else (if s[0] == ':' then 1 else 0) + Colons(s[1..])
  }

  lemma {:induction false} ColonsAppend(a: string, b: string)
    ensures Colons(a + b) == Colons(a) + Colons(b)
  {
    if a == "" {
      assert a + b == b;
    } else {
      assert (a + b)[1..] == a[1..] + b;
      ColonsAppend(a[1..], b);
    }
  }

  /** Two joins of colon-free heads can only be equal part by part. */
  lemma {:induction false} SplitAtColon(a: string, b: string, c: string, d: string)
    requires Colons(a) == 0 == Colons(c) && a + ":" + b == c + ":" + d
    ensures a == c && b == d
  {
    var left, right := a + ":" + b, c + ":" + d;
    if a == "" || c == "" {
      assert left[0] == right[0];
      assert a == "" && c == "";
      assert left[1..] == b && right[1..] == d;
    } else {
      assert left[0] == a[0] && right[0] == c[0];
      assert left[1..] == a[1..] + ":" + b && right[1..] == c[1..] + ":" + d;
      SplitAtColon(a[1..], b, c[1..], d);
    }
  }

  lemma {:induction false} DigitsShape(n: nat)
    ensures Colons(Digits(n)) == 0 && Digits(n) != ""
    ensures forall i | 0 <= i < |Digits(n)| :: '0' <= Digits(n)[i] <= '9'
  {
    if n < 10 {
    } else {
      DigitsShape(n / 10);
      ColonsAppend(Digits(n / 10), ["0123456789"[n % 10]]);
    }
  }

  lemma LastDigit(n: nat)
    ensures Digits(n) != "" && Digits(n)[|Digits(n)| - 1] == "0123456789"[n % 10]
    ensures n >= 10 ==> Digits(n)[..|Digits(n)| - 1] == Digits(n / 10) && Digits(n / 10) != ""
    ensures n < 10 ==> |Digits(n)| == 1
  {
    if n >= 10 {
      DigitsShape(n / 10);
    }
  }

  lemma {:induction false} DigitsInjective(m: nat, n: nat)
    requires Digits(m) == Digits(n)
    ensures m == n
  {
    LastDigit(m);
    LastDigit(n);
    SameDigit(m % 10, n % 10);
    if m >= 10 && n >= 10 {
      DigitsInjective(m / 10, n / 10);
    }
  }

  lemma SameDigit(a: nat, b: nat)
    requires a < 10 && b < 10 && "0123456789"[a] == "0123456789"[b]
    ensures a == b
  {
  }

  lemma {:induction false} NoColons(s: string)
    requires ':' !in s
    ensures Colons(s) == 0
  {
    if s == "" {
    } else {
      NoColons(s[1..]);
    }
  }

  lemma ScopeInjective(a: Option<nat>, b: Option<nat>)
    ensures Colons(Scope(a)) == 0
    ensures Scope(a) == Scope(b) ==> a == b
  {
    NoColons("anonymous");
    if a.Some? {
      DigitsShape(a.value);
    }
    if b.Some? {
      DigitsShape(b.value);
    }
    if a.Some? && b.Some? && Scope(a) == Scope(b) {
      DigitsInjective(a.value, b.value);
    }
  }

  lemma SameActorAndTail(p: KeyParts, q: KeyParts)
    requires BuildKey(p) == BuildKey(q)
    ensures p.actor == q.actor && Tail(p) == Tail(q)
  {
    var prefix := "idempotency:";
    assert BuildKey(p)[|prefix|..] == Scope(p.actor) + ":" + Tail(p);
    assert BuildKey(q)[|prefix|..] == Scope(q.actor) + ":" + Tail(q);
    ScopeInjective(p.actor, q.actor);
    ScopeInjective(q.actor, p.actor);
    SplitAtColon(Scope(p.actor), Tail(p), Scope(q.actor), Tail(q));
  }

  /** Requests whose methods and paths have no colon share a record only if they agree on all four parts. */
  lemma KeyInjective(p: KeyParts, q: KeyParts)
    requires Colons(p.verb) == Colons(p.path) == 0 && Colons(q.verb) == Colons(q.path) == 0
    ensures BuildKey(p) == BuildKey(q) <==> p == q
  {
    if BuildKey(p) == BuildKey(q) {
      SameActorAndTail(p, q);
      assert Tail(p) == p.verb + ":" + (p.path + ":" + p.key);
      SplitAtColon(p.verb, p.path + ":" + p.key, q.verb, q.path + ":" + q.key);
      SplitAtColon(p.path, p.key, q.path, q.key);
    }
  }

  lemma TailColons(p: KeyParts)
    ensures Colons(Tail(p)) == Colons(p.verb) + Colons(p.path) + Colons(p.key) + 2
  {
    assert Tail(p) == (p.verb + ":") + (p.path + ":" + p.key);
    ColonsAppend(p.verb + ":", p.path + ":" + p.key);
    ColonsAppend(p.verb, ":");
    ColonsAppend(p.path + ":", p.key);
    ColonsAppend(p.path, ":");
  }

  lemma {:induction false} FirstColon(s: string) returns (i: nat)
    requires Colons(s) > 0
    ensures i < |s| && s == s[..i] + ":" + s[i + 1..]
  {
    if s[0] == ':' {
      i := 0;
    } else {
      i := FirstColon(s[1..]);
      i := i + 1;
    }
  }

  ghost predicate OwnsItsKey(p: KeyParts) {
    forall q: KeyParts | BuildKey(q) == BuildKey(p) :: q == p
  }

  /** Moving the separator from after `a` to a colon inside it. */
  lemma Regrouped(a: string, i: nat, rest: string)
    requires i < |a| && a == a[..i] + ":" + a[i + 1..]
    ensures a + ":" + rest == a[..i] + ":" + (a[i + 1..] + ":" + rest)
  {
  }

  /** Moving the separator from before `b` to a colon inside it. */
  lemma RegroupedBack(a: string, b: string, i: nat)
    requires i < |b| && b == b[..i] + ":" + b[i + 1..]
    ensures a + ":" + b == (a + ":" + b[..i]) + ":" + b[i + 1..]
  {
  }

  /** A colon in any of the three parts can be read as a separator, which gives another request the same key. */
  lemma Collision(p: KeyParts) returns (q: KeyParts)
    requires Colons(p.verb) + Colons(p.path) + Colons(p.key) > 0
    ensures q != p && Tail(q) == Tail(p) && q.actor == p.actor
  {
    if Colons(p.verb) > 0 {
      var i := FirstColon(p.verb);
      Regrouped(p.verb, i, p.path + ":" + p.key);
      q := p.(verb := p.verb[..i], path := p.verb[i + 1..] + ":" + p.path);
      assert q.path + ":" + q.key == p.verb[i + 1..] + ":" + (p.path + ":" + p.key);
      assert |q.verb| < |p.verb|;
    } else if Colons(p.path) > 0 {
      var i := FirstColon(p.path);
      Regrouped(p.path, i, p.key);
      q := p.(path := p.path[..i], key := p.path[i + 1..] + ":" + p.key);
      assert |q.path| < |p.path|;
    } else {
      var i := FirstColon(p.key);
      RegroupedBack(p.path, p.key, i);
      q := p.(path := p.path + ":" + p.key[..i], key := p.key[i + 1..]);
      assert |q.key| < |p.key|;
    }
  }

  /** No other request at all shares the record exactly when method, path and key are free of colons. */
  lemma KeyUniqueIff(p: KeyParts)
    ensures OwnsItsKey(p) <==> Colons(p.verb) + Colons(p.path) + Colons(p.key) == 0
  {
    if Colons(p.verb) + Colons(p.path) + Colons(p.key) == 0 {
      forall q: KeyParts | BuildKey(q) == BuildKey(p) ensures q == p {
        SameActorAndTail(q, p);
        TailColons(p);
        TailColons(q);
        KeyInjective(q, p);
      }
    } else {
      var q := Collision(p);
      assert BuildKey(q) == BuildKey(p);
    }
  }

  // ---------------------------------------------------------------- the wrapper

  /** A JSON body; JSON null is what an operation without a result is encoded to. */
  datatype Body = Null | Json(text: string)

  datatype Record = Record(payload: string, status: int, body: Body)

  type Memory = map<string, Record>

  /** The header may be missing; SHA-256 is taken as injective, so the payload stands for its hash. */
  datatype Request = Request(actor: Option<nat>, verb: string, path: string, header: Option<string>, payload: string)

  /** `body.None?` is a response without content. */
  datatype Response = Reply(status: int, body: Option<Body>, replay: bool) | Conflicting | CallbackRaised

  /** What a callback does to the rest of the system, and the body it returns unless it raises. */
  datatype Effect<W> = Effect(world: W, result: Option<Body>)

  datatype Call<!W> = Call(request: Request, callback: W -> Effect<W>, status: int)

  datatype System<W> = System(memory: Memory, world: W)

  predicate HasKey(r: Request) {
    r.header.Some? && r.header.value != ""
  }

  function RecordKey(r: Request): string
    requires HasKey(r)
  {
    BuildKey(KeyParts(r.actor, r.verb, r.path, r.header.value))
  }

  /** Neither the method nor the path has a colon. */
  predicate PlainRequest(r: Request) {
    Colons(r.verb) == 0 == Colons(r.path)
  }

  /** The same user repeats the same method, path and Idempotency-Key. */
  predicate SameOperation(r: Request, q: Request) {
    r.actor == q.actor && r.verb == q.verb && r.path == q.path && r.header == q.header
  }

  /** Requests share a record exactly when they are the same operation of the same user. */
  lemma RecordKeyIff(r: Request, q: Request)
    requires HasKey(r) && HasKey(q) && PlainRequest(r) && PlainRequest(q)
    ensures RecordKey(r) == RecordKey(q) <==> SameOperation(r, q)
  {
    KeyInjective(KeyParts(r.actor, r.verb, r.path, r.header.value), KeyParts(q.actor, q.verb, q.path, q.header.value));
  }

  predicate Stored(m: Memory, r: Request) {
    HasKey(r) && RecordKey(r) in m
  }

  /** The callback runs unless the key holds a record of another payload, or one with a nonzero status. */
  predicate Runs(m: Memory, r: Request) {
    Stored(m, r) ==> m[RecordKey(r)].payload == r.payload && m[RecordKey(r)].status == 0
  }

  function Replayed(record: Record): Response {
    Reply(record.status, if record.body.Null? then None else Some(record.body), true)
  }

  function Respond<W>(s: System<W>, c: Call<W>): Response {
    if Runs(s.memory, c.request) then
      var effect := c.callback(s.world);
      if effect.result.None? then CallbackRaised else Reply(c.status, effect.result, false)
    else
      var record := s.memory[RecordKey(c.request)];
      if record.payload != c.request.payload then Conflicting else Replayed(record)
  }

  function Next<W>(s: System<W>, c: Call<W>): System<W> {
    if !Runs(s.memory, c.request) then s
    else
      var effect := c.callback(s.world);
      System(
        if effect.result.Some? && HasKey(c.request)
        then s.memory[RecordKey(c.request) := Record(c.request.payload, c.status, effect.result.value)]
        else s.memory,
        effect.world)
  }

  class IdempotencyStore {
    var memory: Memory

    constructor ()
      ensures memory == map[]
    {
      memory := map[];
    }

    /** No key: None. Otherwise the record key with the stored record, or with a fresh one of status 0. */
    method GetCachedResponse(r: Request) returns (state: Option<(string, Record)>, conflict: bool)
      ensures conflict <==> Stored(memory, r) && memory[RecordKey(r)].payload != r.payload
      ensures state.Some? <==> HasKey(r) && !conflict
      ensures state.Some? ==>
                && state.value.0 == RecordKey(r)
                && state.value.1 == if Stored(memory, r) then memory[RecordKey(r)] else Record(r.payload, 0, Null)
    {
      if r.header.None? || r.header.value == "" {
        return None, false;
      }
      var key := RecordKey(r);
      if key !in memory {
        return Some((key, Record(r.payload, 0, Null))), false;
      }
      if memory[key].payload != r.payload {
        return None, true;
      }
      return Some((key, memory[key])), false;
    }

    method SaveResponse(key: string, payload: string, status: int, body: Body)
      modifies this
      ensures memory == old(memory)[key := Record(payload, status, body)]
    {
      memory := memory[key := Record(payload, status, body)];
    }

    method IdempotentExecute<W>(world: W, c: Call<W>) returns (world': W, response: Response)
      modifies this
      ensures response == Respond(System(old(memory), world), c)
      ensures System(memory, world') == Next(System(old(memory), world), c)
    {
      world' := world;
      var state, conflict := GetCachedResponse(c.request);
      if conflict {
        return world, Conflicting;
      }
      if state.Some? && state.value.1.status != 0 {
        return world, Replayed(state.value.1);
      }
      var effect := c.callback(world);
      world' := effect.world;
      if effect.result.None? {
        return world', CallbackRaised;
      }
      if state.Some? {
        SaveResponse(state.value.0, state.value.1.payload, c.status, effect.result.value);
      }
      response := Reply(c.status, effect.result, false);
    }
  }

  // ---------------------------------------------------------------- runs

  function After<W>(s: System<W>, run: seq<Call<W>>): System<W>
    decreases run
  {
    if run == [] then s else After(Next(s, run[0]), run[1..])
  }

  /** The callback ran to its end under the given record key. */
  predicate Completes<W>(s: System<W>, c: Call<W>, key: string) {
    && HasKey(c.request) && RecordKey(c.request) == key
    && Runs(s.memory, c.request) && c.callback(s.world).result.Some?
  }

  function Completions<W>(s: System<W>, run: seq<Call<W>>, key: string): nat
    decreases run
  {
    if run == [] then 0
    else (if Completes(s, run[0], key) then 1 else 0) + Completions(Next(s, run[0]), run[1..], key)
  }

  ghost predicate NonzeroStatuses<W>(run: seq<Call<W>>) {
    forall i | 0 <= i < |run| :: run[i].status != 0
  }

  ghost predicate NonzeroRecords(m: Memory) {
    forall k | k in m :: m[k].status != 0
  }

  /** A stored record of nonzero status never changes, and no callback completes under its key again. */
  lemma {:induction false} RecordIsFinal<W>(s: System<W>, run: seq<Call<W>>, key: string)
    requires key in s.memory && s.memory[key].status != 0
    ensures key in After(s, run).memory && After(s, run).memory[key] == s.memory[key]
    ensures Completions(s, run, key) == 0
    decreases run
  {
    if run == [] {
    } else {
      RecordIsFinal(Next(s, run[0]), run[1..], key);
    }
  }

  /** In any sequential run the callback completes at most once for each record key. */
  lemma {:induction false} CompletesAtMostOnce<W>(s: System<W>, run: seq<Call<W>>, key: string)
    requires NonzeroStatuses(run) && NonzeroRecords(s.memory)
    ensures Completions(s, run, key) <= 1
    decreases run
  {
    if run == [] {
    } else {
      if Completes(s, run[0], key) {
        RecordIsFinal(Next(s, run[0]), run[1..], key);
      } else {
        CompletesAtMostOnce(Next(s, run[0]), run[1..], key);
      }
    }
  }

  /**
   * After a call completed, any later request under its key leaves the system as it is: the same payload gets the
   * first status and body back, another payload is a conflict. The replay has the first response's content
   * exactly when that body is not JSON null, which is replayed without content.
   */
  lemma LaterRequests<W>(s: System<W>, first: Call<W>, between: seq<Call<W>>, later: Call<W>)
    requires HasKey(first.request) && Completes(s, first, RecordKey(first.request)) && first.status != 0
    requires HasKey(later.request) && RecordKey(later.request) == RecordKey(first.request)
    ensures var now := After(Next(s, first), between);
            var reply := Respond(now, later);
            && Next(now, later) == now
            && (later.request.payload != first.request.payload ==> reply == Conflicting)
            && (later.request.payload == first.request.payload ==>
                  && reply.Reply? && reply.replay && reply.status == Respond(s, first).status
                  && (reply.body == Respond(s, first).body <==> Respond(s, first).body != Some(Null)))
  {
    RecordIsFinal(Next(s, first), between, RecordKey(first.request));
  }

  /** The cancellation of a ride: its serializer returns nothing, which is encoded to JSON null. */
  function CancelRide<W(!new)>(actor: nat, path: string, key: string, cancel: W -> W): Call<W> {
    Call(Request(Some(actor), "DELETE", path, Some(key), ""), w => Effect(cancel(w), Some(Null)), 204)
  }

  /** The input the null case is about: the first cancellation is answered with null, its replay with no content. */
  lemma CancelRideIsReplayedEmpty<W(!new)>(world: W, actor: nat, path: string, key: string, cancel: W -> W)
    requires key != ""
    ensures var c := CancelRide(actor, path, key, cancel);
            var s := System(map[], world);
            && Respond(s, c) == Reply(204, Some(Null), false)
            && Respond(Next(s, c), c) == Reply(204, None, true)
            && Next(s, c).world == Next(Next(s, c), c).world == cancel(world)
  {
  }

  /** Status 0 marks an unused key, so the same request is answered from the store iff the first status is not 0. */
  lemma ReplayedIffNonzero<W>(s: System<W>, c: Call<W>)
    requires HasKey(c.request) && Completes(s, c, RecordKey(c.request))
    ensures Runs(Next(s, c).memory, c.request) <==> c.status == 0
  {
  }

  /** A raising callback and a request without a key leave every record as it was. */
  lemma KeyStaysUnused<W>(s: System<W>, c: Call<W>)
    requires Runs(s.memory, c.request)
    requires c.callback(s.world).result.None? || !HasKey(c.request)
    ensures Next(s, c).memory == s.memory
    ensures forall later: Request | Runs(s.memory, later) :: Runs(Next(s, c).memory, later)
  {
  }

  // ---------------------------------------------------------------- refinement of a service without a store

  /**
   * The specification keeps no records: a call is executed unless an earlier call of the run under the same key
   * returned, and otherwise gets what the first such call returned. This is the answer of that first call.
   */
  function FirstAnswer<W>(world: W, run: seq<Call<W>>, key: string): Option<Record>
    decreases |run|, 0
  {
    if run == [] then None
    else
      var front, c := run[..|run| - 1], run[|run| - 1];
      var first := FirstAnswer(world, front, key);
      if first.Some? then first
      else if HasKey(c.request) && RecordKey(c.request) == key then AnswerOf(c, Specified(world, front))
      else None
  }

  /** The payload, status and body of a call executed in the given world, unless its callback raises. */
  function AnswerOf<W>(c: Call<W>, world: W): Option<Record> {
    var result := c.callback(world).result;
    if result.None? then None else Some(Record(c.request.payload, c.status, result.value))
  }

  /** No call of the run under the request's key returned. */
  predicate Fresh<W>(world: W, run: seq<Call<W>>, r: Request)
    decreases |run|, 1
  {
    HasKey(r) ==> FirstAnswer(world, run, RecordKey(r)).None?
  }

  /** The world the specification reaches. */
  function Specified<W>(world: W, run: seq<Call<W>>): W
    decreases |run|, 2
  {
    if run == [] then world
    else
      var front, c := run[..|run| - 1], run[|run| - 1];
      if Fresh(world, front, c.request) then c.callback(Specified(world, front)).world else Specified(world, front)
  }

  /** Call i carries the key and returns the given answer in the world the calls before it lead to. */
  ghost predicate AnswersAt<W>(world: W, run: seq<Call<W>>, i: int, key: string, answer: Record) {
    && 0 <= i < |run| && HasKey(run[i].request) && RecordKey(run[i].request) == key
    && Fresh(world, run[..i], run[i].request)
    && AnswerOf(run[i], Specified(world, run[..i])) == Some(answer)
  }

  lemma AnswersOneMore<W>(world: W, run: seq<Call<W>>, i: int, key: string, answer: Record)
    requires run != []
    ensures AnswersAt(world, run, i, key, answer)
            <==> || AnswersAt(world, run[..|run| - 1], i, key, answer)
                 || (i == |run| - 1 && FirstAnswer(world, run[..|run| - 1], key).None?
                     && FirstAnswer(world, run, key) == Some(answer))
  {
    if 0 <= i < |run| - 1 {
      assert run[..|run| - 1][..i] == run[..i];
    }
  }

  /** There is a first answer exactly when some call under the key was executed and returned, and it is that call's. */
  lemma {:induction false} FirstAnswerIs<W>(world: W, run: seq<Call<W>>, key: string, answer: Record)
    ensures FirstAnswer(world, run, key) == Some(answer) <==> exists i :: AnswersAt(world, run, i, key, answer)
  {
    if run == [] {
    } else {
      var front := run[..|run| - 1];
      FirstAnswerIs(world, front, key, answer);
      forall i ensures AnswersAt(world, run, i, key, answer)
            <==> || AnswersAt(world, front, i, key, answer)
                 || (i == |run| - 1 && FirstAnswer(world, front, key).None?
                     && FirstAnswer(world, run, key) == Some(answer))
      {
        AnswersOneMore(world, run, i, key, answer);
      }
      if FirstAnswer(world, run, key) == Some(answer) && FirstAnswer(world, front, key).None? {
        assert AnswersAt(world, run, |run| - 1, key, answer);
      }
    }
  }

  lemma {:induction false} AfterOneMore<W>(s: System<W>, run: seq<Call<W>>, c: Call<W>)
    ensures After(s, run + [c]) == Next(After(s, run), c)
    decreases run
  {
    if run == [] {
      assert [c][1..] == [];
    } else {
      assert (run + [c])[1..] == run[1..] + [c];
      AfterOneMore(Next(s, run[0]), run[1..], c);
    }
  }

  /** The same world, and a record for exactly the keys with a first answer. */
  ghost predicate Agrees<W>(s: System<W>, world: W, run: seq<Call<W>>) {
    && s.world == Specified(world, run)
    && (forall key :: key in s.memory <==> FirstAnswer(world, run, key).Some?)
    && (forall key | key in s.memory :: FirstAnswer(world, run, key) == Some(s.memory[key]))
    && NonzeroRecords(s.memory)
  }

  lemma AgreesOneMore<W>(s: System<W>, world: W, front: seq<Call<W>>, c: Call<W>)
    requires Agrees(s, world, front) && c.status != 0
    ensures Agrees(Next(s, c), world, front + [c])
  {
    var run := front + [c];
    assert run[..|run| - 1] == front;
  }

  /**
   * From an empty store and with nonzero statuses, the wrapped service reaches in every sequential run the world of
   * the specification, and its records are the first answers.
   */
  lemma {:induction false} RefinesSpecification<W>(world: W, run: seq<Call<W>>)
    requires NonzeroStatuses(run)
    ensures Agrees(After(System(map[], world), run), world, run)
  {
    if run == [] {
    } else {
      var front, c := run[..|run| - 1], run[|run| - 1];
      assert run == front + [c];
      RefinesSpecification(world, front);
      AgreesOneMore(After(System(map[], world), front), world, front, c);
      AfterOneMore(System(map[], world), front, c);
    }
  }

  /** What the specification answers to a call that comes after the run. */
  function SpecifiedResponse<W>(world: W, run: seq<Call<W>>, c: Call<W>): Response {
    if Fresh(world, run, c.request) then
      var answer := AnswerOf(c, Specified(world, run));
      if answer.None? then CallbackRaised else Reply(c.status, Some(answer.value.body), false)
    else
      var first := FirstAnswer(world, run, RecordKey(c.request)).value;
      if first.payload == c.request.payload then Replayed(first) else Conflicting
  }

  /** Every caller gets the response of the specification. */
  lemma RespondsAsSpecified<W>(world: W, run: seq<Call<W>>, c: Call<W>)
    requires NonzeroStatuses(run)
    ensures Respond(After(System(map[], world), run), c) == SpecifiedResponse(world, run, c)
  {
    RefinesSpecification(world, run);
  }

  ghost predicate PlainCalls<W>(run: seq<Call<W>>) {
    forall i | 0 <= i < |run| :: PlainRequest(run[i].request)
  }

  /** Call i of the run carries a key, was executed, and returned. */
  ghost predicate ReturnedAt<W>(world: W, run: seq<Call<W>>, i: int) {
    && 0 <= i < |run| && HasKey(run[i].request)
    && Fresh(world, run[..i], run[i].request)
    && run[i].callback(Specified(world, run[..i])).result.Some?
  }

  /**
   * Exactly when the wrapper runs a callback, without any key strings: unless an earlier call of the run was the same
   * operation of the same user and returned. So no user is ever given another one's answer.
   */
  lemma {:induction false} ExecutedIff<W>(world: W, run: seq<Call<W>>, r: Request)
    requires NonzeroStatuses(run) && PlainCalls(run) && PlainRequest(r)
    ensures Runs(After(System(map[], world), run).memory, r) <==> Fresh(world, run, r)
    ensures Fresh(world, run, r)
            <==> r.header in {None, Some("")}
                 || forall i | ReturnedAt(world, run, i) :: !SameOperation(run[i].request, r)
  {
    RefinesSpecification(world, run);
    assert r.header == Some("") <==> r.header.Some? && r.header.value == "";
    if HasKey(r) {
      var key := RecordKey(r);
      if FirstAnswer(world, run, key).Some? {
        var answer := FirstAnswer(world, run, key).value;
        FirstAnswerIs(world, run, key, answer);
        var i :| AnswersAt(world, run, i, key, answer);
        RecordKeyIff(run[i].request, r);
        assert ReturnedAt(world, run, i);
      }
      forall i | ReturnedAt(world, run, i) && SameOperation(run[i].request, r)
        ensures FirstAnswer(world, run, key).Some?
      {
        RecordKeyIff(run[i].request, r);
        var answer := AnswerOf(run[i], Specified(world, run[..i])).value;
        assert AnswersAt(world, run, i, key, answer);
        FirstAnswerIs(world, run, key, answer);
      }
    }
  }

  /** A call that is not executed gets the answer of an earlier call of the same user, or a conflict with it. */
  lemma {:induction false} AnsweredByOwnCall<W>(world: W, run: seq<Call<W>>, c: Call<W>)
    requires NonzeroStatuses(run) && PlainCalls(run) && PlainRequest(c.request)
    requires !Fresh(world, run, c.request)
    ensures exists i :: ReturnedAt(world, run, i) && SameOperation(run[i].request, c.request)
                        && AnsweredFrom(world, run, i, c)
  {
    RespondsAsSpecified(world, run, c);
    var key := RecordKey(c.request);
    var answer := FirstAnswer(world, run, key).value;
    FirstAnswerIs(world, run, key, answer);
    var i :| AnswersAt(world, run, i, key, answer);
    RecordKeyIff(run[i].request, c.request);
    assert ReturnedAt(world, run, i) && AnsweredFrom(world, run, i, c);
  }

  /** The response repeats status and body of call i, marked as a replay, if the payload is the same. */
  ghost predicate AnsweredFrom<W>(world: W, run: seq<Call<W>>, i: int, c: Call<W>)
    requires ReturnedAt(world, run, i)
  {
    var body := run[i].callback(Specified(world, run[..i])).result.value;
    Respond(After(System(map[], world), run), c)
    == if run[i].request.payload != c.request.payload then Conflicting
       else Reply(run[i].status, if body == Null then None else Some(body), true)
  }
}
