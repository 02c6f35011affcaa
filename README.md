# qtumscan-rpc client core in Dafny

This project models the JSON-RPC client of `packages/qtumscan-rpc/index.js`: the
client a Qtum block explorer uses to call a node. The model keeps the logic
the client runs around its HTTP exchange and leaves the exchange out:

- **Response classification** (`Responses`). The `end` handler's decision tree
  maps a status code, the raw body and the outcome of parsing that body to a
  settlement. A settlement either resolves with a value or rejects with an
  error. The error is either one the client builds (prefixed
  `Qtum JSON-RPC: `) or the server's own error object, passed through unchanged.
  The lines the handler writes to `log.error` are recorded.
- **Coercers** (`Coercion`). The `str`, `int`, `float`, `bool` and `obj` entries
  of the `types` table. They work on the JavaScript values of `JsValues`, which
  models `toString`, truthiness and `toLowerCase`.
- **Method table** (`MethodTable`). Each tag string is split on single spaces
  and each token is resolved in place to a coercer; unknown tokens become
  `str`. Each method is installed under its declared name and under its
  lower-case name. The call table itself is the constant `CallSpec`.
- **Call builder** (`Calls`, `Client.RpcClient.Call`). Arguments are coerced in
  place up to a limit that depends on batch mode. The call then either appends
  a JSON-RPC 2.0 request to the open batch or sends a single request built from
  all arguments but the last.
- **Batch session** (`Client.RpcClient.Batch`). The field `batchedCalls` is
  absent (`null`) outside a batch. `batch` opens it as an empty list, the
  callback's calls append to it, and the list is sent as one payload. The field
  is cleared only when that send resolves. The callback is the sequence of
  client calls it makes; each call is marked as caught or not, according to
  whether the callback catches what that call throws.

The network is the client's `transport` function. It maps a payload to a
`Reply`: status, body and parse outcome. `JSON.parse` and
`Number.parseFloat` are the `Natives` parameters of the coercers. `Math.random`
is an argument `random` in [0, 1). The ghost field `sent` records every payload
handed to the transport.

Where the code and the intended design differ, the model follows the code:

- `bool` and `str` throw a TypeError for `undefined` and `null`, because both
  reach `arg.toString()`. They do not return false or a text.
- `int` and `float` return whatever `Number.parseFloat` gives, NaN included. They
  never throw.
- A rejected batch send leaves `batchedCalls` set (still in batch mode). A
  callback that throws does the same.
- Calling `batch` while a batch is open silently restarts it with an empty list.
- A single request has no `jsonrpc` member. The generated method discards the
  settlement of a single call and never calls the trailing callback.

As written, three ReferenceErrors stop the client from working at all. The
model follows the evident intent in each case:

- `rpc` declares `option` (index.js:31) but reads `options`. The read at
  index.js:46 is inside the Promise executor, so every promise `rpc` returns
  rejects before any request is made. With `httpOptions` set, index.js:40 throws
  even earlier, synchronously. So `batch` never gets past its `await`
  (index.js:87), and `batchedCalls` is never reset. The model sends the request
  built from the options object.
- `getRandomId` (index.js:207) is never defined. Every call outside a batch
  throws while its request is built, after coercion, and sends nothing. The
  model gives single requests an id drawn like batch ids.
- `generateRPCMethods(rpc)` (index.js:235) reads `rpc`, which is not bound at
  module scope. Loading the module throws, so no method is installed and
  nothing is exported. The model runs the generator, which never uses its
  parameter.

## Model

| member | source | states |
|---|---|---|
| `Responses.Classify` | packages/qtumscan-rpc/index.js:49-72 | Every client-built error starts with the prefix. Only the queue-full error carries a code, and that code is 429. The server's error is passed through unchanged exactly when it is truthy. Otherwise a successful parse resolves with `result`. Only a failed parse logs anything, and then exactly the stack, the body and the status line. |
| `Responses.AuthRejectionIgnoresBody` | packages/qtumscan-rpc/index.js:43-53 | Status 401 and status 403 each reject with the prefix plus a fixed message, whatever the body and its parse are. Nothing is logged. |
| `Responses.OverloadRejection` | packages/qtumscan-rpc/index.js:54-57 | Status 500 with body `Work queue depth exceeded` rejects with the prefix plus that body and code 429. |
| `Responses.Status500OtherBodyFallsThrough` | packages/qtumscan-rpc/index.js:54-65 | Status 500 with any other body settles exactly as an ordinary status does. |
| `Responses.OrdinaryStatusesAlike` | packages/qtumscan-rpc/index.js:58-71 | Outside 401, 403 and 500 the settlement does not depend on the status. When the parse fails, two statuses give the same log exactly when they are equal. |
| `Responses.ParseFailureRejection` | packages/qtumscan-rpc/index.js:66-71 | A failed parse rejects with prefix + `Error Parsing JSON: ` + the cause. Before that it logs the stack, the raw body and `HTTP Status code: <status>`, in that order. |
| `JsValues.IntToDecimalInjective` | packages/qtumscan-rpc/index.js:69 | Distinct statuses give distinct decimal texts in the status log line. |
| `JsValues.Lower` | packages/qtumscan-rpc/index.js:217 | Lower-casing keeps the length and lower-cases each character on its own. |
| `JsValues.LowerIdempotent` | packages/qtumscan-rpc/index.js:230-231 | Lower-casing a lower-case name changes nothing. |
| `JsValues.IntTextNotTrue` | packages/qtumscan-rpc/index.js:217 | The text of an integer never lower-cases to `true`. |
| `JsValues.NumberTextNotTrue` | packages/qtumscan-rpc/index.js:217 | No number's text, NaN and non-integers included, lower-cases to `true`. |
| `JsValues.Truthy` | packages/qtumscan-rpc/index.js:61 | The falsy values are exactly undefined, null, false, 0, NaN and the empty string. The same test decides batch mode at index.js:190 and index.js:196. |
| `JsValues.JsString` | packages/qtumscan-rpc/index.js:214 | A string is its own text. A boolean's text is `true` exactly when it is true. No number's text lower-cases to `true`. A one-element array shows as its element. |
| `JsValues.JoinElementsAppend` | packages/qtumscan-rpc/index.js:214 | An array's joined text splits at any point into the two parts' texts joined by one comma. |
| `Responses.StatusLine` | packages/qtumscan-rpc/index.js:69 | The third log line is the label `HTTP Status code: ` followed by the status in decimal. |
| `Responses.StatusLineInjective` | packages/qtumscan-rpc/index.js:69 | Distinct statuses give distinct status lines. |
| `Coercion.TagOf` | packages/qtumscan-rpc/index.js:224-228 | A token that names a coercer selects that coercer. Every other token selects `str`. |
| `Coercion.TagNameRoundTrip` | packages/qtumscan-rpc/index.js:213-219 | Each coercer's key in `types` resolves back to that coercer. |
| `Coercion.UnknownTokensAreStr` | packages/qtumscan-rpc/index.js:183 | The empty token and `string` both resolve to `str`. |
| `Coercion.CoerceStr` | packages/qtumscan-rpc/index.js:214 | `str` throws exactly for undefined and null. Otherwise it yields the argument's string form. |
| `Coercion.CoerceBool` | packages/qtumscan-rpc/index.js:217 | `bool` throws exactly for undefined and null. Otherwise it yields true exactly when the argument is `true`, `1` or `'1'`, or its string form lower-cases to `true`. |
| `Coercion.CoerceObj` | packages/qtumscan-rpc/index.js:218 | `obj` passes non-strings through. It parses a string, and throws the parser's SyntaxError when the parse fails. |
| `Coercion.Apply` | packages/qtumscan-rpc/index.js:193 | A coercer throws in exactly two cases: `str`/`bool` on a nullish argument, and `obj` on unparsable text. `str` yields a string, `int`/`float` a number and `bool` a boolean. |
| `Coercion.IntAndFloatAgree` | packages/qtumscan-rpc/index.js:215-216 | `int` and `float` are the same coercer: `Number.parseFloat` of the argument's text. They never throw. |
| `Coercion.CoercionIdempotent` | packages/qtumscan-rpc/index.js:214-217 | Applying `str` or `bool` a second time changes nothing. |
| `Coercion.StrKeepsStrings` | packages/qtumscan-rpc/index.js:214 | `str` returns a string argument unchanged. |
| `Coercion.BoolOfNumber` | packages/qtumscan-rpc/index.js:217 | `bool` maps a number to true exactly when it is 1. |
| `Coercion.BoolOfTrueInputs` | packages/qtumscan-rpc/index.js:217 | `true`, `1`, `'1'`, `'true'`, `'TRUE'` and `'True'` all yield true. |
| `Coercion.BoolOfFalseInputs` | packages/qtumscan-rpc/index.js:217 | `false`, `0`, `'0'`, `'false'` and `''` all yield false. |
| `Coercion.NullishArgumentsThrow` | packages/qtumscan-rpc/index.js:214-217 | Undefined and null make `bool` and `str` throw. |
| `Coercion.BoolOfArrays` | packages/qtumscan-rpc/index.js:217 | `bool` reads an array through its joined text: `['TRUE']` and `[true]` give true, `[1]` gives false. |
| `Coercion.StrOfStructured` | packages/qtumscan-rpc/index.js:214 | `str` turns arrays into comma-joined text and objects into `[object Object]`. |
| `MethodTable.Split` | packages/qtumscan-rpc/index.js:222 | Splitting on spaces yields at least one token, and no token contains a space. |
| `MethodTable.JoinOfSplit` | packages/qtumscan-rpc/index.js:222 | Joining the tokens with spaces gives back the tag string. |
| `MethodTable.SplitOfJoin` | packages/qtumscan-rpc/index.js:222 | Splitting the join of space-free tokens gives back those tokens. |
| `MethodTable.SplitCount` | packages/qtumscan-rpc/index.js:222 | There is one token more than there are spaces. |
| `MethodTable.ResolveSpec` | packages/qtumscan-rpc/index.js:223-229 | The in-place loop replaces every token by the coercer it selects. |
| `MethodTable.TagsOf` | packages/qtumscan-rpc/index.js:222-229 | A tag string resolves to one coercer per token, position by position. |
| `MethodTable.OneCoercerPerToken` | packages/qtumscan-rpc/index.js:222-229 | A tag string with n spaces yields n + 1 coercers. |
| `MethodTable.EmptyTagString` | packages/qtumscan-rpc/index.js:102 | The empty tag string yields exactly one `str` coercer. |
| `MethodTable.StringTokenIsStr` | packages/qtumscan-rpc/index.js:183 | `string int` yields `[str, int]`. |
| `MethodTable.TagsOfTwoWords` | packages/qtumscan-rpc/index.js:222-229 | Two space-free tokens joined by one space yield their two coercers, in order. |
| `MethodTable.InstallEffect` | packages/qtumscan-rpc/index.js:230-231 | `Install` writes exactly the declared name and its lower-case form, both with the same method. Every other installed name keeps its method. |
| `MethodTable.GenerateRpcMethods` | packages/qtumscan-rpc/index.js:221-232 | The generator loop installs exactly the table of the entries taken in order. |
| `MethodTable.TableNames` | packages/qtumscan-rpc/index.js:230-231 | In `TableOf`, every installed method sends the lower-case form of the name it is installed under. |
| `MethodTable.TableKeys` | packages/qtumscan-rpc/index.js:231 | A name is installed exactly when some entry has it as its declared or lower-case name. |
| `MethodTable.TableLookup` | packages/qtumscan-rpc/index.js:221-232 | A name's method is built from the last entry that writes that name. |
| `Calls.Limit` | packages/qtumscan-rpc/index.js:190 | The loop covers every argument exactly in batch mode. Otherwise it covers one fewer. |
| `Calls.CoerceAt` | packages/qtumscan-rpc/index.js:191-193 | A position below the limit that has a coercer gets that coercer's result. Any other position is left as it is. |
| `Calls.CoercePrefix` | packages/qtumscan-rpc/index.js:191-195 | The loop keeps the argument count and leaves unvisited positions unchanged. |
| `Calls.PrefixPointwise` | packages/qtumscan-rpc/index.js:191-195 | Each visited position holds its coercer's result, or is unchanged when it has no coercer. |
| `Calls.PrefixThrows` | packages/qtumscan-rpc/index.js:191-195 | The loop throws exactly when a visited coercer throws, and it throws the first such exception. |
| `Calls.PrefixStopsAtLimit` | packages/qtumscan-rpc/index.js:190-191 | Positions at or beyond the limit are never coerced. |
| `Calls.CoerceArgsThrows` | packages/qtumscan-rpc/index.js:190-195 | `CoerceArgs` throws exactly when some position's coercion throws, and then with the first such exception. |
| `Calls.CoerceArgsShape` | packages/qtumscan-rpc/index.js:190-195 | The argument count never changes. A position below the limit with a coercer holds the coerced value. Every other position, including those beyond the tag list, is unchanged. |
| `Calls.TrailingArgumentUntouched` | packages/qtumscan-rpc/index.js:190 | Outside a batch the last argument is never coerced. |
| `Calls.AllButLast` | packages/qtumscan-rpc/index.js:206 | The single-call parameters are all arguments but the last, and empty when there are no arguments. |
| `Calls.SingleParamsDropCallback` | packages/qtumscan-rpc/index.js:190-206 | A single call's parameters equal the batch-mode coercion of all arguments but the last. Both succeed or throw together, and they throw the same exception. |
| `Calls.RandomId` | packages/qtumscan-rpc/index.js:201 | A batch id lies in [0, 100000). |
| `Calls.Dispatch` | packages/qtumscan-rpc/index.js:196-208 | A name with no generated method throws. A built request names the installed method and carries an id in range. It has a `jsonrpc` member, `2.0`, exactly in batch mode. |
| `Calls.DispatchCoerces` | packages/qtumscan-rpc/index.js:190-208 | A generated method throws exactly when its coercion loop throws, and with the same exception. Otherwise a batched request carries the coerced arguments, and a single request carries all of them but the last. |
| `Calls.DispatchShape` | packages/qtumscan-rpc/index.js:196-208 | A built request carries the method name lower-cased and an id in range. A batched request is JSON-RPC 2.0 with every argument. A single request has no `jsonrpc` member and drops the last argument. |
| `Calls.Accumulate` | packages/qtumscan-rpc/index.js:86 | A callback leaves at most one request per call in the batch. Every request there is a JSON-RPC 2.0 request that one of its calls built. |
| `Calls.AccumulateProduced` | packages/qtumscan-rpc/index.js:86 | Every request the callback's steps collect was built by one of its calls, in batch mode. |
| `Calls.AccumulateInOrder` | packages/qtumscan-rpc/index.js:84-89 | When no call throws, the batch holds one request per call, in call order. |
| `Calls.CollectRunsToEnd` | packages/qtumscan-rpc/index.js:86 | The callback runs to its end exactly when no call throws an exception the callback fails to catch. |
| `Calls.CollectStopsAtFirstEscape` | packages/qtumscan-rpc/index.js:86 | An uncaught throw is the first one. The batch then holds what the calls before it left, and no later call counts. |
| `Calls.CollectNext` | packages/qtumscan-rpc/index.js:86 | One more call appends its request, leaves the batch alone if its throw is caught, or ends the callback if its throw is not caught. |
| `Calls.CaughtStepLeavesNoTrace` | packages/qtumscan-rpc/index.js:86 | A call whose throw the callback catches leaves the batch as if the call had not been made. |
| `Calls.CollectPersists` | packages/qtumscan-rpc/index.js:86 | Once the callback has ended with an uncaught throw, later calls add nothing. |
| `Client.RpcClient.constructor` | packages/qtumscan-rpc/index.js:22 | A new client is outside a batch, has logged nothing and carries the generated table. |
| `Client.RpcClient.Rpc` | packages/qtumscan-rpc/index.js:28-82 | One payload goes to the transport. The reply is settled by `Classify` and its log lines are appended. |
| `Client.RpcClient.CoerceInPlace` | packages/qtumscan-rpc/index.js:190-195 | The in-place loop leaves the array equal to the specified coercion, or returns its first exception. |
| `Client.RpcClient.Call` | packages/qtumscan-rpc/index.js:189-210 | If coercion throws, nothing changes. In batch mode exactly one request is appended to the end of `batchedCalls`. Outside a batch exactly one single request is sent and `batchedCalls` stays absent. |
| `Client.RpcClient.Invoke` | packages/qtumscan-rpc/index.js:230-231 | Calling a name follows `Dispatch` on the installed table. A name with no generated method throws and changes nothing. |
| `Client.RpcClient.Batch` | packages/qtumscan-rpc/index.js:84-89 | Opens `batchedCalls` as `[]`, runs the callback's calls (a caught throw does not stop it) and sends what `Accumulate` collected as one payload. It clears the field only when the send resolves. If the send rejects, or a throw escapes the callback, the field stays set. |

## Left out

- HTTP/HTTPS request construction, socket events, the `Content-Length` and `Authorization` headers and Base64 encoding: network I/O and wire encoding. The transport is an abstract function from payload to reply.
- The request-error rejection (`Request Error: ...`): it only arises from socket failures, which the model does not have.
- `JSON.stringify`, `JSON.parse` and `Number.parseFloat`: library calls, passed in as parameters or summarised by the parse outcome.
- Logger selection and the `none`/`normal`/`debug` tables: console plumbing. The model records the lines passed to `log.error`.
- Installation on `RpcClient.prototype`: reflection. The table is a map from name to method.
- Constructor defaults (host, port, credentials, TLS, agent): plain configuration with no logic.
- Concurrency: events that happen while a send is pending, such as calls made by other code during the `await` in `batch`. The model runs each operation to completion.
- Prototype-inherited keys of `types` (a token such as `constructor`): no tag string in the call table contains one, so tokens other than the five coercer names resolve to `str`.
- Objects with their own `toString`: a plain object's text is `[object Object]`.
- `Calls.RandomId`: does not model that `Number.parseInt` first turns the product into text. For a draw above 0 but below 1e-11 the product is written in exponent notation (`5e-7`, say), and its leading digit gives an id from 1 to 9 instead of 0. The range [0, 100000) still holds.
- `Lower`: lower-cases ASCII letters only. No other character lower-cases into `t`, `r`, `u` or `e`, so the comparison with `true` is exact.
- `Calls.Dispatch`: the single request's id comes from the same draw as batch ids. As written, the call to the undefined `getRandomId` throws instead, and nothing is sent.
- `Calls.Accumulate`, `Calls.AccumulateInOrder`: the batch callback is the sequence of client calls it makes, each marked as caught or not. Other code in the callback is not modelled: a throw of its own, a call whose arguments depend on an earlier call, asynchronous work.
- `Client.RpcClient.Invoke`: covers the generated methods and names the client lacks, which throw as calls of `undefined`. Inside a callback, calls of the client's own `rpc` and `batch` and of inherited object methods such as `toString` are not modelled.
- Numbers other than safe integers and NaN: they carry the text JavaScript displays for them. That text uses only digits, `.`, signs, `e` and `Infinity`, and is never the text of a safe integer. Which text a given fraction or huge magnitude shows is left to floating-point formatting, which is not modelled.
