/**
  The body of every generated method: coerce the arguments in place, then
  either append a JSON-RPC 2.0 request to the open batch or build a single
  request from all arguments except the trailing callback.
*/
module Calls {
  import opened Wrappers
  import opened JsValues
  import opened Coercion
  import opened MethodTable

  /** Batch request ids are drawn from [0, IdRange). */
  const IdRange: int := 100000

  /** How far the coercion loop runs: every argument in a batch, all but the last otherwise. */
  function Limit(argCount: nat, batching: bool): (r: int)
    ensures r == argCount || r == argCount - 1
    ensures r == argCount <==> batching
  {
    if batching then argCount else argCount - 1
  }

  /** What the loop does to position `i`: apply its coercer when it is below the limit and has one. */
  function CoerceAt(tags: seq<Tag>, limit: int, i: nat, v: Value, natives: Natives): (r: Result<Value, Exception>)
    ensures i < limit && i < |tags| ==> r == Apply(tags[i], v, natives)
    ensures i >= limit || i >= |tags| ==> r == Ok(v)
  {
    if i < limit && i < |tags| then Apply(tags[i], v, natives) else Ok(v)
  }

  /** The arguments once positions below `n` have been visited, or the first exception thrown. */
  function CoercePrefix(args: seq<Value>, tags: seq<Tag>, limit: int, natives: Natives, n: nat): (r: Result<seq<Value>, Exception>)
    requires n <= |args|
    ensures r.Ok? ==> |r.value| == |args|
    ensures r.Ok? ==> forall k | n <= k < |args| :: r.value[k] == args[k]
  {
    if n == 0 then Ok(args)
    else
      match CoercePrefix(args, tags, limit, natives, n - 1)
      case Err(e) => Err(e)
      case Ok(done) =>
        match CoerceAt(tags, limit, n - 1, args[n - 1], natives)
        case Err(e) => Err(e)
        case Ok(v) => Ok(done[n - 1 := v])
  }

  /** The coercion loop over a whole argument list. */
  function CoerceArgs(args: seq<Value>, tags: seq<Tag>, limit: int, natives: Natives): Result<seq<Value>, Exception> {
    CoercePrefix(args, tags, limit, natives, |args|)
  }

  /** Each visited position holds its coerced value; the rest are untouched. */
  lemma {:induction false} PrefixPointwise(args: seq<Value>, tags: seq<Tag>, limit: int, natives: Natives, n: nat)
    requires n <= |args|
    requires CoercePrefix(args, tags, limit, natives, n).Ok?
    ensures forall k | 0 <= k < n ::
              CoerceAt(tags, limit, k, args[k], natives).Ok? &&
              CoercePrefix(args, tags, limit, natives, n).value[k] == CoerceAt(tags, limit, k, args[k], natives).value
  {
    if n > 0 {
      PrefixPointwise(args, tags, limit, natives, n - 1);
    }
  }

  /** The loop throws exactly when some visited position's coercer throws, and with the first such exception. */
  lemma {:induction false} PrefixThrows(args: seq<Value>, tags: seq<Tag>, limit: int, natives: Natives, n: nat)
    requires n <= |args|
    ensures CoercePrefix(args, tags, limit, natives, n).Err? <==>
              exists k | 0 <= k < n :: CoerceAt(tags, limit, k, args[k], natives).Err?
    ensures CoercePrefix(args, tags, limit, natives, n).Err? ==>
              exists k | 0 <= k < n ::
                && CoerceAt(tags, limit, k, args[k], natives).Err?
                && CoercePrefix(args, tags, limit, natives, n).error == CoerceAt(tags, limit, k, args[k], natives).error
                && forall j | 0 <= j < k :: CoerceAt(tags, limit, j, args[j], natives).Ok?
  {
    if n > 0 {
      PrefixThrows(args, tags, limit, natives, n - 1);
      if CoercePrefix(args, tags, limit, natives, n - 1).Ok? {
        PrefixPointwise(args, tags, limit, natives, n - 1);
      }
    }
  }

  /** Positions at or beyond the limit are never coerced, so the loop may stop at the limit. */
  lemma {:induction false} PrefixStopsAtLimit(args: seq<Value>, tags: seq<Tag>, limit: int, natives: Natives, n: nat)
    requires n <= |args| && limit <= n
    requires limit >= 0 ==> limit <= |args|
    ensures CoercePrefix(args, tags, limit, natives, n) ==
            CoercePrefix(args, tags, limit, natives, if limit < 0 then 0 else limit)
  {
    var start := if limit < 0 then 0 else limit;
    if n > start {
      PrefixStopsAtLimit(args, tags, limit, natives, n - 1);
      var prev := CoercePrefix(args, tags, limit, natives, n - 1);
      if prev.Ok? {
        assert prev.value[n - 1 := args[n - 1]] == prev.value;
      }
    }
  }

  /**
    The argument count never changes; a position below the limit that has a
    coercer holds the coerced value; every other position is left as it was.
  */
  lemma CoerceArgsShape(args: seq<Value>, tags: seq<Tag>, limit: int, natives: Natives, k: nat)
    requires CoerceArgs(args, tags, limit, natives).Ok?
    requires k < |args|
    ensures |CoerceArgs(args, tags, limit, natives).value| == |args|
    ensures k < limit && k < |tags| ==>
              Apply(tags[k], args[k], natives).Ok? &&
              CoerceArgs(args, tags, limit, natives).value[k] == Apply(tags[k], args[k], natives).value
    ensures (k >= limit || k >= |tags|) ==> CoerceArgs(args, tags, limit, natives).value[k] == args[k]
  {
    PrefixPointwise(args, tags, limit, natives, |args|);
  }

  /**
    The loop over a whole argument list throws exactly when the coercion of
    some position throws, and then with the exception of the first such position.
  */
  lemma CoerceArgsThrows(args: seq<Value>, tags: seq<Tag>, limit: int, natives: Natives)
    ensures CoerceArgs(args, tags, limit, natives).Err? <==>
              exists k | 0 <= k < |args| :: CoerceAt(tags, limit, k, args[k], natives).Err?
    ensures CoerceArgs(args, tags, limit, natives).Err? ==>
              exists k | 0 <= k < |args| ::
                && CoerceAt(tags, limit, k, args[k], natives).Err?
                && CoerceArgs(args, tags, limit, natives).error == CoerceAt(tags, limit, k, args[k], natives).error
                && forall j | 0 <= j < k :: CoerceAt(tags, limit, j, args[j], natives).Ok?
  {
    PrefixThrows(args, tags, limit, natives, |args|);
  }

  /** Outside a batch the trailing argument is never coerced. */
  lemma TrailingArgumentUntouched(args: seq<Value>, tags: seq<Tag>, natives: Natives)
    requires |args| > 0
    requires CoerceArgs(args, tags, Limit(|args|, false), natives).Ok?
    ensures CoerceArgs(args, tags, Limit(|args|, false), natives).value[|args| - 1] == args[|args| - 1]
  {
    CoerceArgsShape(args, tags, Limit(|args|, false), natives, |args| - 1);
  }

  /** The arguments without the last one, and no arguments when there are none. */
  function AllButLast(args: seq<Value>): (r: seq<Value>)
    ensures |args| == 0 ==> r == []
    ensures |args| > 0 ==> |r| == |args| - 1 && r + [args[|args| - 1]] == args
  {
    if |args| == 0 then [] else args[..|args| - 1]
  }

  /**
    The parameters of a single call are the batch coercion of all arguments
    but the last: dropping the trailing callback before or after the loop
    gives the same parameters.
  */
  lemma {:induction false} SingleParamsDropCallback(args: seq<Value>, tags: seq<Tag>, natives: Natives)
    ensures var single := CoerceArgs(args, tags, Limit(|args|, false), natives);
            var prefix := AllButLast(args);
            var batched := CoerceArgs(prefix, tags, Limit(|prefix|, true), natives);
            single.Ok? == batched.Ok? &&
            (single.Ok? ==> AllButLast(single.value) == batched.value) &&
            (single.Err? ==> single.error == batched.error)
  {
    var n := |args|;
    if n == 0 {
      return;
    }
    var prefix := AllButLast(args);
    var lim := n - 1;
    PrefixStopsAtLimit(args, tags, lim, natives, n);
    assert Limit(|prefix|, true) == lim;
    EqualPrefixesAgree(args, prefix, tags, lim, natives, lim);
  }

  /** Two argument lists that agree below `n` give the same loop outcomes there. */
  lemma {:induction false} EqualPrefixesAgree(a: seq<Value>, b: seq<Value>, tags: seq<Tag>, limit: int, natives: Natives, n: nat)
    requires n <= |a| && n <= |b| && a[..n] == b[..n]
    requires |b| == n
    ensures CoercePrefix(a, tags, limit, natives, n).Ok? == CoercePrefix(b, tags, limit, natives, n).Ok?
    ensures CoercePrefix(a, tags, limit, natives, n).Ok? ==>
              CoercePrefix(a, tags, limit, natives, n).value[..n] == CoercePrefix(b, tags, limit, natives, n).value
    ensures CoercePrefix(a, tags, limit, natives, n).Err? ==>
              CoercePrefix(a, tags, limit, natives, n).error == CoercePrefix(b, tags, limit, natives, n).error
  {
    var ra, rb := CoercePrefix(a, tags, limit, natives, n), CoercePrefix(b, tags, limit, natives, n);
    PrefixThrows(a, tags, limit, natives, n);
    PrefixThrows(b, tags, limit, natives, n);
    assert forall k | 0 <= k < n :: a[k] == b[k] by {
      forall k | 0 <= k < n ensures a[k] == b[k] { assert a[..n][k] == a[k] && b[..n][k] == b[k]; }
    }
    if ra.Ok? {
      PrefixPointwise(a, tags, limit, natives, n);
      PrefixPointwise(b, tags, limit, natives, n);
      assert ra.value[..n] == rb.value;
    } else {
      var ka :| 0 <= ka < n && CoerceAt(tags, limit, ka, a[ka], natives).Err? && ra.error == CoerceAt(tags, limit, ka, a[ka], natives).error
                && forall j | 0 <= j < ka :: CoerceAt(tags, limit, j, a[j], natives).Ok?;
      var kb :| 0 <= kb < n && CoerceAt(tags, limit, kb, b[kb], natives).Err? && rb.error == CoerceAt(tags, limit, kb, b[kb], natives).error
                && forall j | 0 <= j < kb :: CoerceAt(tags, limit, j, b[j], natives).Ok?;
      assert ka == kb;
    }
  }

  /** A random draw in [0, 1) scaled to the id range and truncated to an integer. */
  function RandomId(random: real): (id: int)
    requires 0.0 <= random < 1.0
    ensures 0 <= id < IdRange
  {
    (random * 100000.0).Floor
  }

  /** A JSON-RPC request; the `jsonrpc` member is present only on batched requests. */
  datatype Request = Request(jsonrpc: Option<string>, methodName: string, params: seq<Value>, id: int)

  /** What is sent to the transport: one request, or the batch array. */
  datatype Payload = Single(request: Request) | Many(requests: seq<Request>)

  /**
    One call made on the client: the name called, its arguments, the random
    draw for its id, and whether the calling code catches what the call throws.
  */
  datatype Invocation = Invocation(name: string, args: seq<Value>, random: real, caught: bool)

  predicate ValidDraw(c: Invocation) {
    0.0 <= c.random < 1.0
  }

  /**
    The request one call produces, batched or not; a name the client does
    not have throws like calling `undefined`. Outside a batch the id comes
    from a random draw of the same range as batch ids.
  */
  function Dispatch(methods: map<string, RpcMethod>, natives: Natives, batching: bool, c: Invocation): (r: Result<Request, Exception>)
    requires ValidDraw(c)
    ensures c.name !in methods ==> r == Err(NotAFunction(c.name))
    ensures r.Ok? ==> c.name in methods && r.value.methodName == methods[c.name].name && 0 <= r.value.id < IdRange
    ensures r.Ok? ==> (r.value.jsonrpc == Some("2.0") <==> batching) && (r.value.jsonrpc.Some? <==> batching)
  {
    if c.name !in methods then Err(NotAFunction(c.name))
    else
      var m := methods[c.name];
      match CoerceArgs(c.args, m.tags, Limit(|c.args|, batching), natives)
      case Err(e) => Err(e)
      case Ok(args) =>
        if batching then Ok(Request(Some("2.0"), m.name, args, RandomId(c.random)))
        else Ok(Request(None, m.name, AllButLast(args), RandomId(c.random)))
  }

  /**
    A call of an installed method throws exactly when the coercion loop throws,
    and with its exception; otherwise a batched request carries the coerced
    arguments and a single one all of them but the last.
  */
  lemma DispatchCoerces(methods: map<string, RpcMethod>, natives: Natives, batching: bool, c: Invocation)
    requires ValidDraw(c)
    requires c.name in methods
    ensures var r := Dispatch(methods, natives, batching, c);
            var coerced := CoerceArgs(c.args, methods[c.name].tags, Limit(|c.args|, batching), natives);
            && (r.Err? <==> coerced.Err?)
            && (r.Err? ==> r.error == coerced.error)
            && (r.Ok? && batching ==> r.value.params == coerced.value)
            && (r.Ok? && !batching ==> r.value.params == AllButLast(coerced.value))
  {
  }

  /**
    A request built by a generated method names the method in lower case and
    carries an id in range; a batched one is JSON-RPC 2.0 and carries every
    argument, a single one carries every argument but the last.
  */
  lemma DispatchShape(entries: seq<(string, string)>, natives: Natives, batching: bool, c: Invocation)
    requires ValidDraw(c)
    requires Dispatch(TableOf(entries), natives, batching, c).Ok?
    ensures var req := Dispatch(TableOf(entries), natives, batching, c).value;
            && req.methodName == Lower(c.name)
            && 0 <= req.id < IdRange
            && (batching ==> req.jsonrpc == Some("2.0") && |req.params| == |c.args|)
            && (!batching ==> req.jsonrpc.None? && |req.params| == if |c.args| == 0 then 0 else |c.args| - 1)
  {
    TableNames(entries, c.name);
  }

  /** What the calls made inside a batch callback leave in the batch, and the exception that ended it early, if any. */
  datatype Accumulated = Accumulated(requests: seq<Request>, thrown: Option<Exception>)

  /**
    What one call inside a batch callback does: the request it appends or the
    exception it throws, and whether the callback catches that exception.
  */
  datatype Step = Step(outcome: Result<Request, Exception>, caught: bool)

  /** A step whose exception the callback does not catch, so that the callback ends there. */
  predicate Escapes(step: Step) {
    step.outcome.Err? && !step.caught
  }

  /** The steps of the callback's calls, one per call, each dispatched inside the open batch. */
  function StepsOf(methods: map<string, RpcMethod>, natives: Natives, calls: seq<Invocation>): (steps: seq<Step>)
    requires forall k | 0 <= k < |calls| :: ValidDraw(calls[k])
    ensures |steps| == |calls|
    ensures forall k | 0 <= k < |calls| :: steps[k] == Step(Dispatch(methods, natives, true, calls[k]), calls[k].caught)
  {
    seq(|calls|, k requires 0 <= k < |calls| => Step(Dispatch(methods, natives, true, calls[k]), calls[k].caught))
  }

  /**
    The batch after the steps in order: a step that succeeds appends its
    request, a caught exception leaves the batch as it was, and an escaping
    one ends the callback.
  */
  function Collect(steps: seq<Step>): (r: Accumulated)
    ensures |r.requests| <= |steps|
  {
    if |steps| == 0 then Accumulated([], None)
    else
      var init := steps[..|steps| - 1];
      var last := steps[|steps| - 1];
      var acc := Collect(init);
      if acc.thrown.Some? then acc
      else
        match last.outcome
        case Err(e) => if last.caught then acc else Accumulated(acc.requests, Some(e))
        case Ok(req) => Accumulated(acc.requests + [req], None)
  }

  /**
    The batch a callback's calls leave: at most one request per call, and
    every request in it is a JSON-RPC 2.0 request that one of the calls built.
  */
  function Accumulate(methods: map<string, RpcMethod>, natives: Natives, calls: seq<Invocation>): (r: Accumulated)
    requires forall k | 0 <= k < |calls| :: ValidDraw(calls[k])
    ensures |r.requests| <= |calls|
    ensures forall k | 0 <= k < |r.requests| ::
              && r.requests[k].jsonrpc == Some("2.0")
              && exists j | 0 <= j < |calls| :: Dispatch(methods, natives, true, calls[j]) == Ok(r.requests[k])
  {
    AccumulateProduced(methods, natives, calls);
    Collect(StepsOf(methods, natives, calls))
  }

  /** Every request the steps of a callback collect was built by one of its calls. */
  lemma AccumulateProduced(methods: map<string, RpcMethod>, natives: Natives, calls: seq<Invocation>)
    requires forall k | 0 <= k < |calls| :: ValidDraw(calls[k])
    ensures forall k | 0 <= k < |Collect(StepsOf(methods, natives, calls)).requests| ::
              && Collect(StepsOf(methods, natives, calls)).requests[k].jsonrpc == Some("2.0")
              && exists j | 0 <= j < |calls| ::
                   Dispatch(methods, natives, true, calls[j]) == Ok(Collect(StepsOf(methods, natives, calls)).requests[k])
  {
    var steps := StepsOf(methods, natives, calls);
    var r := Collect(steps);
    CollectProduced(steps);
    forall k | 0 <= k < |r.requests|
      ensures r.requests[k].jsonrpc == Some("2.0")
      ensures exists j | 0 <= j < |calls| :: Dispatch(methods, natives, true, calls[j]) == Ok(r.requests[k])
    {
      var j :| 0 <= j < |steps| && steps[j].outcome == Ok(r.requests[k]);
      assert Dispatch(methods, natives, true, calls[j]) == Ok(r.requests[k]);
    }
  }

  /** Every request in the batch is one that a step produced. */
  lemma {:induction false} CollectProduced(steps: seq<Step>)
    ensures forall k | 0 <= k < |Collect(steps).requests| ::
              exists j | 0 <= j < |steps| :: steps[j].outcome == Ok(Collect(steps).requests[k])
  {
    var n := |steps|;
    if n > 0 {
      var init := steps[..n - 1];
      assert forall j | 0 <= j < n - 1 :: init[j] == steps[j];
      CollectProduced(init);
      var before := Collect(init).requests;
      assert Collect(steps).requests == before ||
             (steps[n - 1].outcome.Ok? && Collect(steps).requests == before + [steps[n - 1].outcome.value]);
      forall k | 0 <= k < |Collect(steps).requests|
        ensures exists j | 0 <= j < |steps| :: steps[j].outcome == Ok(Collect(steps).requests[k])
      {
        if k < |before| {
          assert Collect(steps).requests[k] == before[k];
          var j :| 0 <= j < n - 1 && init[j].outcome == Ok(before[k]);
          assert steps[j] == init[j];
        } else {
          assert steps[n - 1].outcome == Ok(Collect(steps).requests[k]);
        }
      }
    } else {
      assert |Collect(steps).requests| == 0;
    }
  }

  /**
    One more step: a success appends its request, a caught exception changes
    nothing, and an escaping one ends the callback with that exception.
  */
  lemma CollectNext(steps: seq<Step>, i: nat)
    requires i < |steps|
    requires Collect(steps[..i]).thrown.None?
    ensures steps[i].outcome.Ok? ==>
              Collect(steps[..i + 1]) == Accumulated(Collect(steps[..i]).requests + [steps[i].outcome.value], None)
    ensures steps[i].outcome.Err? && steps[i].caught ==> Collect(steps[..i + 1]) == Collect(steps[..i])
    ensures Escapes(steps[i]) ==>
              Collect(steps[..i + 1]) == Accumulated(Collect(steps[..i]).requests, Some(steps[i].outcome.error))
  {
    assert steps[..i + 1][..i] == steps[..i];
  }

  /** The callback runs to its end exactly when no step's exception escapes it. */
  lemma {:induction false} CollectRunsToEnd(steps: seq<Step>)
    ensures Collect(steps).thrown.None? <==> forall k | 0 <= k < |steps| :: !Escapes(steps[k])
  {
    var n := |steps|;
    if n > 0 {
      var init := steps[..n - 1];
      assert forall k | 0 <= k < n - 1 :: init[k] == steps[k];
      CollectRunsToEnd(init);
    }
  }

  /**
    When an exception escapes, it is the first escaping step's, and the batch
    holds what the steps before that one left.
  */
  lemma {:induction false} CollectStopsAtFirstEscape(steps: seq<Step>)
    requires Collect(steps).thrown.Some?
    ensures exists n | 0 <= n < |steps| ::
              && Escapes(steps[n])
              && (forall k | 0 <= k < n :: !Escapes(steps[k]))
              && Collect(steps) == Accumulated(Collect(steps[..n]).requests, Some(steps[n].outcome.error))
  {
    var n := |steps|;
    var init := steps[..n - 1];
    assert forall k | 0 <= k < n - 1 :: init[k] == steps[k];
    if Collect(init).thrown.Some? {
      CollectStopsAtFirstEscape(init);
      var m :| 0 <= m < |init|
               && Escapes(init[m])
               && (forall k | 0 <= k < m :: !Escapes(init[k]))
               && Collect(init) == Accumulated(Collect(init[..m]).requests, Some(init[m].outcome.error));
      assert init[..m] == steps[..m];
    } else {
      CollectRunsToEnd(init);
      assert Escapes(steps[n - 1]);
    }
  }

  /** When no step throws, the batch holds one request per step, in step order. */
  lemma {:induction false} CollectInOrder(steps: seq<Step>)
    requires forall k | 0 <= k < |steps| :: steps[k].outcome.Ok?
    ensures Collect(steps).thrown.None?
    ensures |Collect(steps).requests| == |steps|
    ensures forall k | 0 <= k < |steps| :: steps[k].outcome == Ok(Collect(steps).requests[k])
  {
    var n := |steps|;
    if n > 0 {
      var init := steps[..n - 1];
      assert forall k | 0 <= k < n - 1 :: init[k] == steps[k];
      CollectInOrder(init);
      var before := Collect(init).requests;
      assert Collect(steps).requests == before + [steps[n - 1].outcome.value];
      forall k | 0 <= k < n
        ensures steps[k].outcome == Ok(Collect(steps).requests[k])
      {
        if k < n - 1 {
          assert Collect(steps).requests[k] == before[k];
        }
      }
    }
  }

  /** When no call in the callback throws, the batch holds one request per call, in call order. */
  lemma AccumulateInOrder(methods: map<string, RpcMethod>, natives: Natives, calls: seq<Invocation>)
    requires forall k | 0 <= k < |calls| :: ValidDraw(calls[k])
    requires forall k | 0 <= k < |calls| :: Dispatch(methods, natives, true, calls[k]).Ok?
    ensures Accumulate(methods, natives, calls).thrown.None?
    ensures |Accumulate(methods, natives, calls).requests| == |calls|
    ensures forall k | 0 <= k < |calls| ::
              Dispatch(methods, natives, true, calls[k]) == Ok(Accumulate(methods, natives, calls).requests[k])
  {
    CollectInOrder(StepsOf(methods, natives, calls));
  }

  /** A step whose exception the callback catches leaves no trace: the batch is as if it had not happened. */
  lemma {:induction false} CaughtStepLeavesNoTrace(steps: seq<Step>, k: nat)
    requires k < |steps|
    requires steps[k].outcome.Err? && steps[k].caught
    ensures Collect(steps) == Collect(steps[..k] + steps[k + 1..])
  {
    var n := |steps|;
    var rest := steps[..k] + steps[k + 1..];
    if k == n - 1 {
      assert rest == steps[..n - 1];
    } else {
      var init := steps[..n - 1];
      CaughtStepLeavesNoTrace(init, k);
      assert init[..k] + init[k + 1..] == rest[..|rest| - 1];
      assert init[k] == steps[k];
      assert rest[|rest| - 1] == steps[n - 1];
    }
  }

  /** Once the loop has thrown, visiting more positions does not change the outcome. */
  lemma {:induction false} PrefixErrorPersists(args: seq<Value>, tags: seq<Tag>, limit: int, natives: Natives, n: nat, m: nat)
    requires n <= m <= |args|
    requires CoercePrefix(args, tags, limit, natives, n).Err?
    ensures CoercePrefix(args, tags, limit, natives, m) == CoercePrefix(args, tags, limit, natives, n)
  {
    if m > n {
      PrefixErrorPersists(args, tags, limit, natives, n, m - 1);
    }
  }

  /** Once a step has ended the callback, later steps add nothing. */
  lemma {:induction false} CollectPersists(steps: seq<Step>, n: nat)
    requires n <= |steps|
    requires Collect(steps[..n]).thrown.Some?
    ensures Collect(steps) == Collect(steps[..n])
  {
    if n < |steps| {
      var init := steps[..|steps| - 1];
      assert init[..n] == steps[..n];
      CollectPersists(init, n);
    } else {
      assert steps[..n] == steps;
    }
  }
}
