/** The wrapper that runs every procurement change at most once per idempotency key. */
module Operations {
  import opened Options

  type Key = nat
  type User = nat
  type RequestId = nat
  type Fingerprint = nat

  /** What a change produces: the new business state, the response and the request that the response shows. */
  datatype Done<+S, +B> = Done(state: S, body: B, request: RequestId)

  /** The parts of the service that the wrapper takes as given: validation of the input, the digest of path,
      method and data, the response status, the change itself (None when it raises) and who may see what. */
  datatype Rules<!S, !A, B> = Rules(
    valid: A -> bool,
    digest: A -> Fingerprint,
    status: A -> nat,
    act: (S, User, A) -> Option<Done<S, B>>,
    visible: (S, User, RequestId) -> bool
  )

  datatype Result<+B> = Result(body: B, status: nat, request: RequestId)

  /** The row of a key; its result is empty only inside the transaction that inserted it. */
  datatype Operation<+B> = Operation(user: User, fingerprint: Fingerprint, result: Option<Result<B>>)

  datatype Ledger<+S, +B> = Ledger(business: S, operations: map<Key, Operation<B>>)

  /** A request; `key` is absent when the header is missing or no UUID. */
  datatype Call<+A> = Call(key: Option<Key>, user: User, action: A)

  datatype Reply<+B> = Response(body: B, status: nat) | Invalid | Conflict | NotFound | Failed | Unfinished

  function Stored<S, A, B>(rules: Rules<S, A, B>, call: Call<A>, done: Done<S, B>): Operation<B> {
    Operation(call.user, rules.digest(call.action),
              Some(Result(done.body, rules.status(call.action), done.request)))
  }

  /** The answer to a key that was used before. */
  function Replayed<S, A, B>(rules: Rules<S, A, B>, business: S, operation: Operation<B>, call: Call<A>): Reply<B> {
    if operation.user != call.user || operation.fingerprint != rules.digest(call.action) then Conflict
    else if operation.result.None? then Unfinished
    else if !rules.visible(business, call.user, operation.result.value.request) then NotFound
    else Response(operation.result.value.body, operation.result.value.status)
  }

  function Mutate<S, A, B>(rules: Rules<S, A, B>, at: Ledger<S, B>, call: Call<A>): (Ledger<S, B>, Reply<B>) {
    if !rules.valid(call.action) || call.key.None? then (at, Invalid)
    else if call.key.value in at.operations then
      (at, Replayed(rules, at.business, at.operations[call.key.value], call))
    else
      match rules.act(at.business, call.user, call.action)
      case None => (at, Failed)
      case Some(done) =>
        (Ledger(done.state, at.operations[call.key.value := Stored(rules, call, done)]),
         Response(done.body, rules.status(call.action)))
  }

  function Run<S, A, B>(rules: Rules<S, A, B>, at: Ledger<S, B>, calls: seq<Call<A>>): Ledger<S, B>
    decreases |calls|
  {
    if calls == [] then at else Run(rules, Mutate(rules, at, calls[0]).0, calls[1..])
  }

  // ---- the service without the wrapper

  predicate Takes<S, A, B>(rules: Rules<S, A, B>, business: S, used: set<Key>, call: Call<A>) {
    && rules.valid(call.action) && call.key.Some? && call.key.value !in used
    && rules.act(business, call.user, call.action).Some?
  }

  /** The calls that change anything: of the calls with one key, the first that is valid and does not raise. */
  function FirstSuccesses<S, A, B>(
    rules: Rules<S, A, B>, business: S, used: set<Key>, calls: seq<Call<A>>): seq<Call<A>>
    decreases |calls|
  {
    if calls == [] then []
    else
      var call := calls[0];
      if Takes(rules, business, used, call)
      then [call] + FirstSuccesses(rules, rules.act(business, call.user, call.action).value.state,
                                   used + {call.key.value}, calls[1..])
      else FirstSuccesses(rules, business, used, calls[1..])
  }

  /** Running changes one after the other, with no keys and no replies. */
  function Direct<S, A, B>(rules: Rules<S, A, B>, business: S, calls: seq<Call<A>>): S
    decreases |calls|
  {
    if calls == [] then business
    else
      var done := rules.act(business, calls[0].user, calls[0].action);
      Direct(rules, if done.Some? then done.value.state else business, calls[1..])
  }

  /** The business state after any calls is that of running only the first successful call of each key, and
      the keys in use afterwards are exactly theirs. */
  lemma {:induction false} ExactlyOnce<S, A, B>(rules: Rules<S, A, B>, at: Ledger<S, B>, calls: seq<Call<A>>, key: Key)
    ensures var firsts := FirstSuccesses(rules, at.business, at.operations.Keys, calls);
            && Run(rules, at, calls).business == Direct(rules, at.business, firsts)
            && (key in Run(rules, at, calls).operations
                <==> key in at.operations || exists i :: 0 <= i < |firsts| && firsts[i].key == Some(key))
    decreases |calls|
  {
    if calls != [] {
      var call := calls[0];
      var next := Mutate(rules, at, call).0;
      ExactlyOnce(rules, next, calls[1..], key);
      var firsts := FirstSuccesses(rules, at.business, at.operations.Keys, calls);
      var rest := FirstSuccesses(rules, next.business, next.operations.Keys, calls[1..]);
      if next != at || firsts != rest {
        assert next.operations.Keys == at.operations.Keys + {call.key.value};
        assert firsts == [call] + rest;
        assert firsts[1..] == rest && firsts[0] == call;
        assert forall i | 0 <= i < |rest| :: rest[i] == firsts[i + 1];
      }
    }
  }

  /** Every call has a key of its own, and none that was used before. */
  ghost predicate OwnKeys<A>(calls: seq<Call<A>>, used: set<Key>) {
    && (forall i | 0 <= i < |calls| :: calls[i].key.Some? && calls[i].key.value !in used)
    && (forall i, j | 0 <= i < j < |calls| :: calls[i].key != calls[j].key)
  }

  /** No key is used by two of the first successes. */
  lemma {:induction false} OnePerKey<S, A, B>(rules: Rules<S, A, B>, business: S, used: set<Key>, calls: seq<Call<A>>)
    ensures OwnKeys(FirstSuccesses(rules, business, used, calls), used)
    decreases |calls|
  {
    if calls != [] {
      var call := calls[0];
      if Takes(rules, business, used, call) {
        OnePerKey(rules, rules.act(business, call.user, call.action).value.state, used + {call.key.value}, calls[1..]);
      } else {
        OnePerKey(rules, business, used, calls[1..]);
      }
    }
  }

  // ---- retries

  /** A row, once written, stays; an unused key is taken only with a finished result. */
  lemma {:induction false} RowsStay<S, A, B>(rules: Rules<S, A, B>, at: Ledger<S, B>, calls: seq<Call<A>>, key: Key)
    requires key in at.operations
    ensures key in Run(rules, at, calls).operations && Run(rules, at, calls).operations[key] == at.operations[key]
    decreases |calls|
  {
    if calls != [] {
      RowsStay(rules, Mutate(rules, at, calls[0]).0, calls[1..], key);
    }
  }

  ghost predicate Finished<S, B>(at: Ledger<S, B>) {
    forall key | key in at.operations :: at.operations[key].result.Some?
  }

  lemma {:induction false} AlwaysFinished<S, A, B>(rules: Rules<S, A, B>, at: Ledger<S, B>, calls: seq<Call<A>>)
    requires Finished(at)
    ensures Finished(Run(rules, at, calls))
    decreases |calls|
  {
    if calls != [] {
      AlwaysFinished(rules, Mutate(rules, at, calls[0]).0, calls[1..]);
    }
  }

  /** Whatever happens between a successful call and its retry, the retry changes nothing and is answered
      with the first response, or with NotFound when the caller may no longer see the request; the same key
      from another user or with another fingerprint conflicts and changes nothing. */
  lemma {:induction false} Retry<S, A, B>(rules: Rules<S, A, B>, at: Ledger<S, B>, call: Call<A>, between: seq<Call<A>>,
      again: Call<A>)
    requires Finished(at) && Mutate(rules, at, call).1.Response? && again.key == call.key && rules.valid(again.action)
    ensures var first := Mutate(rules, at, call);
            var later := Run(rules, first.0, between);
            var retried := Mutate(rules, later, again);
            && call.key.Some? && call.key.value in first.0.operations
            && retried.0 == later
            && (var row := first.0.operations[call.key.value];
                && row.result.Some? && first.1 == Response(row.result.value.body, row.result.value.status)
                && retried.1 == if row.user != again.user || row.fingerprint != rules.digest(again.action) then Conflict
                                else if rules.visible(later.business, again.user, row.result.value.request) then first.1
                                else NotFound)
  {
    var first := Mutate(rules, at, call);
    RowsStay(rules, first.0, between, call.key.value);
  }

  lemma {:induction false} RunSplits<S, A, B>(rules: Rules<S, A, B>, at: Ledger<S, B>, a: seq<Call<A>>, b: seq<Call<A>>)
    ensures Run(rules, at, a + b) == Run(rules, Run(rules, at, a), b)
    decreases |a|
  {
    if a == [] {
      assert a + b == b;
    } else {
      assert (a + b)[1..] == a[1..] + b;
      RunSplits(rules, Mutate(rules, at, a[0]).0, a[1..], b);
    }
  }

  /** Retries are invisible: repeating a call at any later point of a run, whatever its user and action,
      leaves the final state as it would have been without the repetition. */
  lemma {:induction false} RepeatsAreInvisible<S, A, B>(rules: Rules<S, A, B>, at: Ledger<S, B>, before: seq<Call<A>>,
      between: seq<Call<A>>, again: Call<A>, after: seq<Call<A>>)
    requires again.key.Some? && again.key.value in Run(rules, at, before).operations
    ensures Run(rules, at, before + between + [again] + after) == Run(rules, at, before + between + after)
  {
    var middle := Run(rules, at, before);
    var later := Run(rules, middle, between);
    RunSplits(rules, at, before, between);
    RowsStay(rules, middle, between, again.key.value);
    assert Mutate(rules, later, again).0 == later;
    assert Run(rules, later, [again]) == later by {
      assert [again][1..] == [];
    }
    RunSplits(rules, at, before + between, [again]);
    RunSplits(rules, at, before + between + [again], after);
    RunSplits(rules, at, before + between, after);
  }

  /** A call that is not answered with a response, at any point of a run, might as well not have been made, and
      one that raises leaves its key free. */
  lemma {:induction false} FailureLeavesTheKeyFree<S, A, B>(rules: Rules<S, A, B>, at: Ledger<S, B>,
      before: seq<Call<A>>, call: Call<A>, after: seq<Call<A>>)
    requires !Mutate(rules, Run(rules, at, before), call).1.Response?
    ensures Run(rules, at, before + [call] + after) == Run(rules, at, before + after)
    ensures Mutate(rules, Run(rules, at, before), call).1.Failed?
        ==> call.key.Some? && call.key.value !in Run(rules, at, before + [call]).operations
  {
    RunSplits(rules, at, before, [call]);
    RunSplits(rules, at, before + [call], after);
    RunSplits(rules, at, before, after);
    assert [call][1..] == [];
  }

  // ---- the wrapper as it runs

  class Desk<S, A, B> {
    const rules: Rules<S, A, B>
    var business: S
    var operations: map<Key, Operation<B>>

    constructor (rules: Rules<S, A, B>, business: S)
      ensures this.rules == rules && State() == Ledger(business, map[])
    {
      this.rules, this.business, operations := rules, business, map[];
    }

    function State(): Ledger<S, B>
      reads this
    {
      Ledger(business, operations)
    }

    method Serve(call: Call<A>) returns (reply: Reply<B>)
      modifies this
      ensures (State(), reply) == Mutate(rules, old(State()), call)
      ensures !reply.Response? ==> unchanged(this)
      ensures reply.Failed? ==> call.key.Some? && call.key.value !in operations
    {
      if !rules.valid(call.action) || call.key.None? {
        return Invalid;
      }
      var key, fingerprint := call.key.value, rules.digest(call.action);
      var savedBusiness, savedOperations := business, operations;
      if key in operations {
        var operation := operations[key];
        if operation.user != call.user || operation.fingerprint != fingerprint {
          return Conflict;
        }
        if operation.result.None? {
          return Unfinished;
        }
        var result := operation.result.value;
        if !rules.visible(business, call.user, result.request) {
          return NotFound;
        }
        return Response(result.body, result.status);
      }
      operations := operations[key := Operation(call.user, fingerprint, None)];
      var outcome := rules.act(business, call.user, call.action);
      if outcome.None? {
        business, operations := savedBusiness, savedOperations;
        return Failed;
      }
      var done := outcome.value;
      business := done.state;
      var result := Result(done.body, rules.status(call.action), done.request);
      operations := operations[key := operations[key].(result := Some(result))];
      assert operations == savedOperations[key := Stored(rules, call, done)];
      return Response(done.body, rules.status(call.action));
    }
  }
}
