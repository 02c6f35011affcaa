/**
  The client object: the generated methods observe and extend its
  `batchedCalls` field, `batch` moves that field from absent to an open list
  and back, and `rpc` hands a payload to the transport and settles it. The
  network is the `transport` function; `errorLog` receives the lines the
  client passes to `log.error`; `sent` records every payload handed over.
*/
module Client {
  import opened Wrappers
  import opened JsValues
  import opened Responses
  import opened Coercion
  import opened MethodTable
  import opened Calls

  /** How a `batch` call ends. */
  datatype BatchOutcome =
    | Completed                    // the send resolved; the batch is closed
    | CallbackThrew(e: Exception)  // a call inside the callback threw; nothing was sent
    | SendRejected(reason: Rejection)  // the send rejected; the batch stays open

  class RpcClient {
    const natives: Natives
    const transport: Payload -> Reply
    /** The generated methods, under their declared and their lower-case names. */
    const methods: map<string, RpcMethod>
    /** `null` outside a batch; the requests accumulated so far inside one. */
    var batchedCalls: Option<seq<Request>>
    var errorLog: seq<string>
    ghost var sent: seq<Payload>

    constructor (natives: Natives, transport: Payload -> Reply)
      ensures this.natives == natives && this.transport == transport
      ensures methods == TableOf(CallSpec)
      ensures batchedCalls == None && errorLog == [] && sent == []
    {
      this.natives := natives;
      this.transport := transport;
      var table := GenerateRpcMethods(CallSpec);
      methods := table;
      batchedCalls := None;
      errorLog := [];
      sent := [];
    }

    /** `rpc(request)`: one exchange over the transport, settled by the status/body decision tree. */
    method Rpc(payload: Payload) returns (s: Settlement)
      modifies this`errorLog, this`sent
      ensures var reply := transport(payload);
              var c := Classify(reply.status, reply.body, reply.parsed);
              && s == c.settlement
              && errorLog == old(errorLog) + c.errorLog
              && sent == old(sent) + [payload]
    {
      sent := sent + [payload];
      var reply := transport(payload);
      var c := Classify(reply.status, reply.body, reply.parsed);
      errorLog := errorLog + c.errorLog;
      s := c.settlement;
    }

    /**
      The in-place coercion loop of a generated method: overwrites each
      argument below `limit` that has a coercer, and stops at the first
      coercer that throws.
    */
    method CoerceInPlace(args: array<Value>, tags: seq<Tag>, limit: int) returns (thrown: Option<Exception>)
      requires limit <= args.Length
      modifies args
      ensures var r := CoerceArgs(old(args[..]), tags, limit, natives);
              && (thrown.None? <==> r.Ok?)
              && (r.Ok? ==> args[..] == r.value)
              && (r.Err? ==> thrown == Some(r.error))
    {
      ghost var original := args[..];
      var i := 0;
      while i < limit
        invariant 0 <= i <= args.Length
        invariant limit >= 0 ==> i <= limit
        invariant limit < 0 ==> i == 0
        invariant CoercePrefix(original, tags, limit, natives, i) == Ok(args[..])
      {
        assert args[i] == original[i];
        if i < |tags| {
          var coerced := Apply(tags[i], args[i], natives);
          if coerced.Err? {
            assert CoercePrefix(original, tags, limit, natives, i + 1) == Err(coerced.error);
            PrefixThrows(original, tags, limit, natives, i + 1);
            PrefixStopsAtLimit(original, tags, limit, natives, args.Length);
            PrefixErrorPersists(original, tags, limit, natives, i + 1, if limit < 0 then 0 else limit);
            return Some(coerced.error);
          }
          args[i] := coerced.value;
        } else {
          assert args[..][i := original[i]] == args[..];
        }
        i := i + 1;
      }
      assert i == if limit < 0 then 0 else limit;
      PrefixStopsAtLimit(original, tags, limit, natives, args.Length);
      thrown := None;
    }

    /**
      A generated method called with `args`: inside a batch it appends a
      JSON-RPC 2.0 request with every argument; outside it sends a single
      request with all arguments but the last and discards the settlement.
    */
    method Call(m: RpcMethod, args: array<Value>, random: real) returns (thrown: Option<Exception>)
      requires 0.0 <= random < 1.0
      modifies this`batchedCalls, this`errorLog, this`sent, args
      ensures var batching := old(batchedCalls).Some?;
              var r := CoerceArgs(old(args[..]), m.tags, Limit(args.Length, batching), natives);
              && (thrown.None? <==> r.Ok?)
              && (r.Err? ==> thrown == Some(r.error) && batchedCalls == old(batchedCalls)
                               && errorLog == old(errorLog) && sent == old(sent))
              && (r.Ok? && batching ==>
                    && args[..] == r.value
                    && batchedCalls == Some(old(batchedCalls).value + [Request(Some("2.0"), m.name, r.value, RandomId(random))])
                    && errorLog == old(errorLog) && sent == old(sent))
              && (r.Ok? && !batching ==>
                    var request := Request(None, m.name, AllButLast(r.value), RandomId(random));
                    var reply := transport(Single(request));
                    && args[..] == r.value
                    && batchedCalls == None
                    && sent == old(sent) + [Single(request)]
                    && errorLog == old(errorLog) + Classify(reply.status, reply.body, reply.parsed).errorLog)
    {
      var limit := if batchedCalls.Some? then args.Length else args.Length - 1;
      thrown := CoerceInPlace(args, m.tags, limit);
      if thrown.Some? {
        return;
      }
      var id := RandomId(random);
      if batchedCalls.Some? {
        batchedCalls := Some(batchedCalls.value + [Request(Some("2.0"), m.name, args[..], id)]);
      } else {
        var _ := Rpc(Single(Request(None, m.name, AllButLast(args[..]), id)));
      }
    }

    /**
      Calls the method installed under `c.name`, on a fresh argument array; a
      name with no generated method throws as calling `undefined` does.
    */
    method Invoke(c: Invocation) returns (thrown: Option<Exception>)
      requires ValidDraw(c)
      modifies this`batchedCalls, this`errorLog, this`sent
      ensures var d := Dispatch(methods, natives, old(batchedCalls).Some?, c);
              && (thrown.None? <==> d.Ok?)
              && (d.Err? ==> thrown == Some(d.error) && batchedCalls == old(batchedCalls)
                               && errorLog == old(errorLog) && sent == old(sent))
              && (d.Ok? && old(batchedCalls).Some? ==>
                    batchedCalls == Some(old(batchedCalls).value + [d.value])
                    && errorLog == old(errorLog) && sent == old(sent))
              && (d.Ok? && old(batchedCalls).None? ==>
                    var reply := transport(Single(d.value));
                    && batchedCalls == None
                    && sent == old(sent) + [Single(d.value)]
                    && errorLog == old(errorLog) + Classify(reply.status, reply.body, reply.parsed).errorLog)
    {
      if c.name !in methods {
        return Some(NotAFunction(c.name));
      }
      var args := new Value[|c.args|](k requires 0 <= k < |c.args| => c.args[k]);
      assert args[..] == c.args;
      thrown := Call(methods[c.name], args, c.random);
    }

    /**
      `batch(callback)`: opens a batch, runs the callback's calls in order
      (a throw the callback catches does not end it), sends the whole batch as
      one payload, and closes the batch only once the send has resolved.
    */
    method Batch(calls: seq<Invocation>) returns (outcome: BatchOutcome)
      requires forall k | 0 <= k < |calls| :: ValidDraw(calls[k])
      modifies this`batchedCalls, this`errorLog, this`sent
      ensures var acc := Accumulate(methods, natives, calls);
              && (acc.thrown.Some? ==>
                    && outcome == CallbackThrew(acc.thrown.value)
                    && batchedCalls == Some(acc.requests)
                    && errorLog == old(errorLog) && sent == old(sent))
              && (acc.thrown.None? ==>
                    var reply := transport(Many(acc.requests));
                    var c := Classify(reply.status, reply.body, reply.parsed);
                    && sent == old(sent) + [Many(acc.requests)]
                    && errorLog == old(errorLog) + c.errorLog
                    && (c.settlement.Resolved? ==> outcome == Completed && batchedCalls == None)
                    && (c.settlement.Rejected? ==>
                          outcome == SendRejected(c.settlement.reason) && batchedCalls == Some(acc.requests)))
    {
      ghost var steps := StepsOf(methods, natives, calls);
      assert Accumulate(methods, natives, calls) == Collect(steps);
      batchedCalls := Some([]);
      var i := 0;
      while i < |calls|
        invariant 0 <= i <= |calls|
        invariant Collect(steps[..i]).thrown.None?
        invariant batchedCalls == Some(Collect(steps[..i]).requests)
        invariant errorLog == old(errorLog) && sent == old(sent)
      {
        assert steps[i] == Step(Dispatch(methods, natives, true, calls[i]), calls[i].caught);
        CollectNext(steps, i);
        var thrown := Invoke(calls[i]);
        if thrown.Some? && !calls[i].caught {
          CollectPersists(steps, i + 1);
          return CallbackThrew(thrown.value);
        }
        i := i + 1;
      }
      assert steps[..i] == steps;
      var s := Rpc(Many(batchedCalls.value));
      if s.Resolved? {
        batchedCalls := None;
        outcome := Completed;
      } else {
        outcome := SendRejected(s.reason);
      }
    }
  }
}
