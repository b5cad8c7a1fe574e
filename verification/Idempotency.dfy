/**
 * The idempotency cache of POST /orders: looked up and written in the transaction that creates the order.
 * The SHA-256 fingerprint is taken to be injective, so the canonical text stands for it.
 */
module Idempotency {
  import opened Common
  import C = CanonicalJson

  /** An Idempotency-Key header together with the api key it came with. */
  datatype Pair = Pair(key: C.Text, apiKey: nat)

  datatype Response = Response(status: nat, body: nat)

  /** What the transaction would answer without a cached row: only answers that come with an order are stored. */
  datatype Outcome = Created(order: nat, response: Response) | Refused(response: Response)

  datatype Entry = Entry(fingerprint: C.Text, response: Response, createdAt: nat)

  datatype Table = Table(now: nat, cache: map<Pair, Entry>, orders: seq<(Option<Pair>, nat)>)

  const InvalidRequest: Response := Response(400, 0)
  const InvalidKey: Response := Response(400, 1)
  const Conflict: Response := Response(409, 0)
  const ServerError: Response := Response(500, 0)
  const Unavailable: Response := Response(503, 0)
  const MaxKeyLength: nat := 255
  const KeepSeconds: nat := 86400

  /**
   * A POST with the frozen flag as it read it, `refusal`, what its field checks and the resolution of its webhook
   * URL answer, and `uncached`, what its transaction answers without a cached row.
   */
  datatype Step =
    | Post(pair: Pair, request: C.Json, frozen: bool, refusal: Option<Response>, uncached: Outcome)
    | Prune
    | Tick(seconds: nat)

  /** Field checks refuse with an error of their own; only the two answers that come with an order are stored. */
  predicate StepOk(step: Step) {
    step.Post? ==>
      && (step.refusal.Some? ==> step.refusal.value.status >= 400 && step.refusal.value != Conflict)
      && (step.uncached.Created? ==> step.uncached.response.status in {201, 202})
  }

  /** An empty header counts as none. */
  predicate HasKey(pair: Pair) { pair.key != [] }

  /** The answer given before the transaction, if the request does not get that far. */
  function Gate(step: Step): Option<Response>
    requires step.Post?
  {
    if !step.request.JObj? then Some(InvalidRequest)
    else if |step.pair.key| > MaxKeyLength then Some(InvalidKey)
    else if HasKey(step.pair) && C.Canonical(step.request, 0).None? then Some(ServerError)
    else if step.frozen then Some(Unavailable)
    else step.refusal
  }

  function Answer(t: Table, step: Step): Response
    requires step.Post?
  {
    if Gate(step).Some? then Gate(step).value
    else if !HasKey(step.pair) || step.pair !in t.cache then step.uncached.response
    else if t.cache[step.pair].fingerprint != C.Canonical(step.request, 0).value then Conflict
    else t.cache[step.pair].response
  }

  function Next(t: Table, step: Step): Table {
    match step
    case Tick(d) => t.(now := t.now + d)
    case Prune => t.(cache := map p | p in t.cache && t.now <= t.cache[p].createdAt + KeepSeconds :: t.cache[p])
    case Post(pair, request, _, _, uncached) =>
      if Gate(step).Some? || uncached.Refused? then t
      else if !HasKey(pair) then t.(orders := t.orders + [(None, uncached.order)])
      else if pair in t.cache then t
      else
        var entry := Entry(C.Canonical(request, 0).value, uncached.response, t.now);
        t.(cache := t.cache[pair := entry], orders := t.orders + [(Some(pair), uncached.order)])
  }

  /** A keyed body whose nesting the recursion does not reach the end of. */
  predicate TooDeep(step: Step)
    requires step.Post?
  {
    HasKey(step.pair) && C.Nesting(step.request) > C.MaxDepth
  }

  /** What answers before the transaction does, in this order; a frozen platform answers before the field checks. */
  lemma GateAnswers(t: Table, step: Step)
    requires step.Post? && C.Parsed(step.request)
    ensures var obj, short := step.request.JObj?, |step.pair.key| <= 255;
            && (!obj ==> Answer(t, step) == InvalidRequest)
            && (obj && !short ==> Answer(t, step) == InvalidKey)
            && (obj && short && TooDeep(step) ==> Answer(t, step) == ServerError)
            && (obj && short && !TooDeep(step) && step.frozen ==> Answer(t, step) == Unavailable)
            && (obj && short && !TooDeep(step) && !step.frozen && step.refusal.Some? ==>
                  Answer(t, step) == step.refusal.value)
            && (Gate(step).None? <==>
                  obj && short && !TooDeep(step) && !step.frozen && step.refusal.None?)
  {
    C.CanonicalIs(step.request, 0);
  }

  /** The request gets to its transaction, finds no row and creates an order. */
  predicate Creates(t: Table, step: Step) {
    step.Post? && Gate(step).None? && step.uncached.Created? && (step.pair.key == [] || step.pair !in t.cache)
  }

  /** Exactly those requests add an order, and with a key a row; the others change nothing, refused ones included. */
  lemma PostChangesIff(t: Table, step: Step)
    requires step.Post?
    ensures !Creates(t, step) ==> Next(t, step) == t
    ensures Creates(t, step) ==>
              var keyed := step.pair.key != [];
              && Next(t, step).orders == t.orders + [(if keyed then Some(step.pair) else None, step.uncached.order)]
              && Next(t, step).cache.Keys == t.cache.Keys + (if keyed then {step.pair} else {})
              && (forall p :: p in t.cache ==> Next(t, step).cache[p] == t.cache[p])
              && (keyed ==> Next(t, step).cache[step.pair].response == step.uncached.response)
              && Answer(t, step) == step.uncached.response
  {}

  function Exec(t: Table, steps: seq<Step>): Table {
    if steps == [] then t else Next(Exec(t, steps[..|steps| - 1]), steps[|steps| - 1])
  }

  /** How many orders the pair has created. */
  function CreatedFor(orders: seq<(Option<Pair>, nat)>, pair: Pair): nat {
    if orders == [] then 0
    else CreatedFor(orders[..|orders| - 1], pair) + if orders[|orders| - 1].0 == Some(pair) then 1 else 0
  }

  lemma CreatedForAppend(orders: seq<(Option<Pair>, nat)>, o: (Option<Pair>, nat), pair: Pair)
    ensures CreatedFor(orders + [o], pair) == CreatedFor(orders, pair) + if o.0 == Some(pair) then 1 else 0
  {
    assert (orders + [o])[..|orders|] == orders;
  }

  /** A row lives at least a day, unchanged, and while it lives its pair creates nothing. */
  lemma RowStays(t: Table, step: Step, pair: Pair)
    requires pair in t.cache && Next(t, step).now <= t.cache[pair].createdAt + KeepSeconds
    ensures pair in Next(t, step).cache && Next(t, step).cache[pair] == t.cache[pair]
    ensures CreatedFor(Next(t, step).orders, pair) == CreatedFor(t.orders, pair)
  {
    if step.Post? && step.uncached.Created? {
      CreatedForAppend(t.orders, (None, step.uncached.order), pair);
      CreatedForAppend(t.orders, (Some(step.pair), step.uncached.order), pair);
    }
  }

  lemma {:induction false} TimePasses(t: Table, steps: seq<Step>)
    ensures t.now <= Exec(t, steps).now
  {
    if steps != [] { TimePasses(t, steps[..|steps| - 1]); }
  }

  lemma {:induction false} RowStaysOverRun(t: Table, steps: seq<Step>, pair: Pair)
    requires pair in t.cache && Exec(t, steps).now <= t.cache[pair].createdAt + KeepSeconds
    ensures pair in Exec(t, steps).cache && Exec(t, steps).cache[pair] == t.cache[pair]
    ensures CreatedFor(Exec(t, steps).orders, pair) == CreatedFor(t.orders, pair)
  {
    if steps != [] {
      var prefix := steps[..|steps| - 1];
      RowStaysOverRun(t, prefix, pair);
      RowStays(Exec(t, prefix), steps[|steps| - 1], pair);
    }
  }

  /** The first request of a pair that got through to its transaction and created an order. */
  predicate CreatesFirst(t: Table, first: Step) {
    && first.Post? && StepOk(first) && C.Parsed(first.request)
    && HasKey(first.pair) && first.pair !in t.cache && Gate(first).None? && first.uncached.Created?
  }

  /** What the cache has for a retry: the stored answer for a body equal up to property order, else a conflict. */
  function Cached(t: Table, first: Step, retry: Step): Response
    requires first.Post? && retry.Post?
  {
    if C.ValueOf(retry.request) == C.ValueOf(first.request) then Answer(t, first) else Conflict
  }

  /**
   * A request that created an order, retried within a day after anything else happened: the retry gets what the
   * cache has for it exactly when nothing before the transaction refuses it. Either way it changes nothing.
   */
  lemma RetryAnswersIff(t: Table, first: Step, steps: seq<Step>, retry: Step)
    requires CreatesFirst(t, first)
    requires retry.Post? && StepOk(retry) && C.Parsed(retry.request) && retry.pair == first.pair
    requires Exec(Next(t, first), steps).now <= t.now + KeepSeconds
    ensures var u := Exec(Next(t, first), steps);
            && (Answer(u, retry) == Cached(t, first, retry) <==> Gate(retry).None?)
            && (Gate(retry).Some? ==> Answer(u, retry) == Gate(retry).value)
            && Next(u, retry) == u
            && CreatedFor(u.orders, first.pair) == CreatedFor(t.orders, first.pair) + 1
  {
    CreatedForAppend(t.orders, (Some(first.pair), first.uncached.order), first.pair);
    RowStaysOverRun(Next(t, first), steps, first.pair);
    C.CanonicalIs(first.request, 0);
    C.CanonicalIs(retry.request, 0);
    if Gate(retry).None? { C.CanonicalDecidesEquality(first.request, retry.request); }
  }

  /**
   * So a day's retries do not all get the original answer: sent again unchanged while the platform is frozen,
   * a request that created an order is answered 503.
   */
  lemma FrozenRetryRefused(t: Table, first: Step, steps: seq<Step>)
    requires CreatesFirst(t, first) && Exec(Next(t, first), steps).now <= t.now + KeepSeconds
    ensures var retry := first.(frozen := true);
            Answer(Exec(Next(t, first), steps), retry) == Unavailable != Answer(t, first)
  {
    RetryAnswersIff(t, first, steps, first.(frozen := true));
  }

  /** And a different body that the field checks refuse gets their error, not the conflict. */
  lemma RefusedRetryNoConflict(t: Table, first: Step, steps: seq<Step>, retry: Step, error: Response)
    requires CreatesFirst(t, first) && Exec(Next(t, first), steps).now <= t.now + KeepSeconds
    requires retry.Post? && StepOk(retry) && C.Parsed(retry.request) && retry.pair == first.pair
    requires retry.request.JObj? && C.Nesting(retry.request) <= C.MaxDepth && !retry.frozen
             && retry.refusal == Some(error)
    ensures Answer(Exec(Next(t, first), steps), retry) == error != Conflict
  {
    C.CanonicalIs(retry.request, 0);
    RetryAnswersIff(t, first, steps, retry);
  }

  /** The step deletes the pair's row. */
  predicate PrunesRow(t: Table, step: Step, pair: Pair) { pair in t.cache && pair !in Next(t, step).cache }

  predicate RowUnpruned(t: Table, steps: seq<Step>, pair: Pair) {
    steps == [] ||
    (RowUnpruned(t, steps[..|steps| - 1], pair) && !PrunesRow(Exec(t, steps[..|steps| - 1]), steps[|steps| - 1], pair))
  }

  /** Only the prune job deletes rows: those older than a day, and all of them. */
  lemma PruneOnlyAfterADay(t: Table, step: Step, pair: Pair)
    ensures PrunesRow(t, step, pair) <==>
            step.Prune? && pair in t.cache && t.now > t.cache[pair].createdAt + 24 * 60 * 60
  {}

  lemma StepCreates(t: Table, step: Step, pair: Pair)
    requires !PrunesRow(t, step, pair)
    ensures CreatedFor(Next(t, step).orders, pair) ==
            CreatedFor(t.orders, pair) + if pair !in t.cache && pair in Next(t, step).cache then 1 else 0
    ensures pair in t.cache ==> pair in Next(t, step).cache
  {
    if step.Post? && step.uncached.Created? {
      CreatedForAppend(t.orders, (None, step.uncached.order), pair);
      CreatedForAppend(t.orders, (Some(step.pair), step.uncached.order), pair);
    }
  }

  /** Until its row is pruned a pair creates at most one order, and none if it has a row already. */
  lemma {:induction false} AtMostOneOrder(t: Table, steps: seq<Step>, pair: Pair)
    requires RowUnpruned(t, steps, pair)
    ensures CreatedFor(Exec(t, steps).orders, pair) ==
            CreatedFor(t.orders, pair) + if pair !in t.cache && pair in Exec(t, steps).cache then 1 else 0
    ensures pair in t.cache ==> pair in Exec(t, steps).cache
  {
    if steps != [] {
      var prefix := steps[..|steps| - 1];
      AtMostOneOrder(t, prefix, pair);
      StepCreates(Exec(t, prefix), steps[|steps| - 1], pair);
    }
  }
}
