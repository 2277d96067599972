# nim-proxy: the chat-completions handler, modelled in Dafny

The proxy accepts OpenAI-style `POST /v1/chat/completions` requests and rewrites each body for an
NVIDIA NIM upstream. It resolves the client's model name through a fixed six-entry table. It
forces `chat_template_kwargs: { thinking: true }` into `extra_body`. It fills in `max_tokens: 4096`
when the client's value is falsy. It then forwards the request. A streamed reply is passed on chunk
by chunk, except that a chunk whose text contains `[DONE]` is dropped whole. A heartbeat comment
(`: keep-alive`) is written every ten seconds until the upstream stream ends or fails. A
non-streamed reply's JSON body is returned as it is. A failed upstream call becomes a 500
response with `{"error": "Proxy Error"}`.

Modules (one per piece of the handler):

- `JsValues` (`json.dfy`): parsed JSON values and the JavaScript semantics the handler relies on.
  These are truthiness, `a || b` and object spread `{ ...v }`. Spreading a string or an array
  yields its elements under decimal index keys, so index keys are proved distinct.
- `ModelResolution` (`models.dfy`): the table and `MODEL_MAPPING[requested] || requested`.
  Indexing the table converts the value to a property key. A string is its own key. A
  one-element array converts as its element does, so `["gpt-4o"]` resolves too, while `[null]`
  converts to the empty string. An object with its own `toString` property cannot be converted:
  the read throws a `TypeError`, alone or inside an array. The `catch` then answers 500 and the
  upstream is never called. No other value has a string form that is a table key.
- `RequestRewrite` (`rewrite.dfy`): the shallow copy and the three assignments of lines 35-40.
  These are pure functions on values, so the client's own body is never changed. The rewrite
  either yields the request or throws where the table read does.
- `StreamForwarding` (`stream.dfy`): chunks as bytes and the `[DONE]` search. `Forwarded` is what
  the `data` callbacks write. `StreamBody` adds the heartbeats interleaved with the chunks.
  Searching the decoded text of a chunk for `[DONE]` is modelled as a byte search for its ASCII
  bytes. UTF-8 decoding never changes an ASCII byte, so the two searches agree.
  The filter looks at one chunk at a time, so a `[DONE]` split across two chunks is forwarded:
  each half is written, and the client's byte stream then contains the terminator.
- `ChatProxy` (`proxy.dfy`): the Express response object as a class, and the handler as methods.
  `OnData` models the per-chunk callback. `Heartbeats` models the timer firings. `ForwardStream`
  models the streaming branch as a loop over the chunks. `HandleChatCompletions` models the whole
  exchange. The upstream provider is a function parameter. It receives the rewritten body and the
  response type, and the branch taken follows the body's `stream` field, as the handler's does.

The handler forwards stream chunks unmodified, and it returns the non-streamed JSON body unmodified.

## Model

| member | source | states |
|---|---|---|
| `JsValues.Truthy` | server.js:37-40 | a value is falsy exactly when it is `undefined`, `null`, `false`, `0` or the empty string |
| `JsValues.SpreadOf` | server.js:39 | object spread copies an object's own fields; an array's or a string's elements land under exactly the index keys below its length; `undefined`, `null`, booleans and numbers contribute nothing |
| `JsValues.IndexedEntries` | server.js:39 | the spread of an array has exactly the index keys below its length, each holding its element |
| `JsValues.SpreadOfNonObjectKeysAreNumerals` | server.js:39 | every key spread out of a non-object is a decimal numeral, so it can never be `chat_template_kwargs` |
| `ModelResolution.ValueKey` | server.js:37 | a string converts to itself; a converted name always comes from a string inside one-element arrays; an object throws exactly when it has its own `toString`, and an array holding such an object at any position throws |
| `ModelResolution.TableKeyOf` | server.js:37 | an absent model converts to no table key; a converted name always comes from a string inside one-element arrays |
| `ModelResolution.WrappedIsNamed` | server.js:37 | conversely, a string inside any number of one-element arrays converts to that string |
| `ModelResolution.KeyErrorCases` | server.js:37 | `{"toString": 0}` throws, so do `[{"toString": 0}]` and a longer array holding such an object; an object without its own `toString` and `[null]` convert to non-keys |
| `ModelResolution.Lookup` | server.js:37 | the table read throws exactly when the key conversion does; otherwise it yields a value exactly when the requested value names a table entry, and that value is the entry's identifier |
| `ModelResolution.ResolveModel` | server.js:37 | the lookup throws exactly when key conversion throws; a table key becomes its mapped identifier; any other value, and an absent model, passes through unchanged |
| `ModelResolution.MappedIdentifiersAreNotNames` | server.js:15-22 | no mapped identifier is itself a table key |
| `ModelResolution.ResolveModelIdempotent` | server.js:37 | resolving a resolved model gives it back |
| `ModelResolution.ResolveKnownNames` | server.js:15-22 | each of the six names resolves to its listed identifier |
| `ModelResolution.ResolveOtherValues` | server.js:37 | a name outside the table, a different-case name, `null` and an absent model are forwarded as they are |
| `ModelResolution.ResolveSingletonArray` | server.js:37 | `["gpt-4o"]` hits the table through key conversion; a two-element array does not |
| `RequestRewrite.ShallowCopy` | server.js:35 | copying an object body gives exactly its fields |
| `RequestRewrite.Assign` | server.js:37 | assignment sets the one key (or leaves it out of the sent body when the value is `undefined`) and keeps every other key |
| `RequestRewrite.MergedExtraBody` | server.js:39 | the merged `extra_body` has `{thinking: true}` under `chat_template_kwargs` and every other spread key with its value |
| `RequestRewrite.Augment` | server.js:39-40 | the body gains `extra_body` and `max_tokens`; `max_tokens` is 4096 exactly when the previous value is falsy; every other key keeps its value |
| `RequestRewrite.AugmentBareBody` | server.js:39-40 | a body without `extra_body` and `max_tokens` gains exactly `extra_body: {chat_template_kwargs: {thinking: true}}` and `max_tokens: 4096` |
| `RequestRewrite.RewriteRequest` | server.js:35-40 | the rewrite throws exactly when the client's model cannot be converted to a key; otherwise the sent body has the copy's keys plus `extra_body` and `max_tokens` |
| `RequestRewrite.RewriteModel` | server.js:36-37 | `model` is present exactly when the client sent one, and then it holds the resolved name |
| `RequestRewrite.RewriteExtraBody` | server.js:39 | `extra_body` keeps every client key except `chat_template_kwargs`, which is replaced wholesale; a missing, null, boolean or numeric `extra_body` yields only that key |
| `RequestRewrite.RewriteMaxTokens` | server.js:40 | `max_tokens` becomes 4096 exactly when the client value is falsy; any truthy value, even below 4096, is kept |
| `RequestRewrite.RewriteKeepsOtherFields` | server.js:35 | every other field (`messages`, `stream`, `temperature`, ...) is carried over unchanged |
| `RequestRewrite.RewriteIsRewritten` | server.js:35-40 | every rewritten body has a self-resolving model, the forced `extra_body` entry and a truthy `max_tokens` |
| `RequestRewrite.RewrittenIsFixed` | server.js:35-40 | a body of that shape does not throw and is left unchanged by the rewrite |
| `RequestRewrite.RewriteIdempotent` | server.js:35-40 | rewriting a rewritten body changes nothing |
| `RequestRewrite.RewriteGpt4oRequest` | server.js:35-40 | `{model: "gpt-4o", messages, stream: false}` is sent as the GLM model with `max_tokens` 4096 and the thinking flag |
| `RequestRewrite.RewriteObjectModelThrows` | server.js:37 | a model object with its own `toString` makes the rewrite throw |
| `StreamForwarding.Includes` | server.js:54 | the search answers true exactly when the needle occurs at some position of the chunk |
| `StreamForwarding.Kept` | server.js:54 | a chunk's callback writes nothing exactly when its text contains `[DONE]`, and otherwise writes the chunk itself |
| `StreamForwarding.Forwarded` | server.js:53-55 | the callbacks never write more chunks than arrived |
| `StreamForwarding.ForwardedAppend` | server.js:53-55 | forwarding a stream in two parts is forwarding each part in turn |
| `StreamForwarding.ForwardedMembers` | server.js:53-55 | a chunk is written exactly when it arrived and its text does not contain `[DONE]` |
| `StreamForwarding.ForwardedInOrder` | server.js:53-55 | the written chunks are the `[DONE]`-free chunks at strictly increasing upstream positions, byte for byte |
| `StreamForwarding.ForwardedVerbatim` | server.js:53-55 | a stream without `[DONE]` is written exactly as it arrived |
| `StreamForwarding.DataThenDoneDropped` | server.js:54 | a chunk that carries data frames followed by `data: [DONE]` is dropped whole, data included |
| `StreamForwarding.KeepAliveHasNoDone` | server.js:51 | the heartbeat comment does not contain `[DONE]` |
| `StreamForwarding.Interleaved` | server.js:51-55 | the interleaved output is at least as long as the forwarded chunks; its layout is given by `InterleavedLayout` |
| `StreamForwarding.InterleavedStep` | server.js:51-55 | one more chunk appends the heartbeats that fire before it and what its `data` callback writes |
| `StreamForwarding.StreamBody` | server.js:51-57 | the streamed body holds at least the forwarded chunks and the heartbeats after the last one; its layout is given by `StreamBodyLayout` |
| `StreamForwarding.InterleavedWithoutBeats` | server.js:51-55 | with no heartbeat firing, the interleaved output is exactly the forwarded chunks |
| `StreamForwarding.StreamBodyWithoutBeats` | server.js:51-57 | with no heartbeat firing, the streamed body is exactly the forwarded chunks |
| `StreamForwarding.InterleavedFrames` | server.js:51-55 | every frame written is a heartbeat comment or an upstream chunk without `[DONE]`, and every upstream chunk without `[DONE]` is written |
| `StreamForwarding.InterleavedSlots` | server.js:53-55 | the forwarded chunks sit in the output in upstream order at strictly increasing positions |
| `StreamForwarding.InterleavedGaps` | server.js:51 | every other position of the output holds a keep-alive comment |
| `StreamForwarding.InterleavedLayout` | server.js:51-55 | with heartbeats, the forwarded chunks appear in upstream order at strictly increasing positions, and every other position is a keep-alive comment |
| `StreamForwarding.StreamBodyLayout` | server.js:51-57 | the whole streamed body has that same layout |
| `StreamForwarding.StreamBodyHasNoDone` | server.js:51-57 | no frame of the streamed body contains `[DONE]`, every frame is a heartbeat or an upstream chunk, and every `[DONE]`-free chunk is among them |
| `StreamForwarding.SplitDoneReachesClient` | server.js:53-55 | `data: [DO` followed by `NE]\n\n` passes the per-chunk filter whole, and the two written chunks together contain `[DONE]` |
| `ChatProxy.StreamMode` | server.js:49 | the streaming branch is skipped exactly when `stream` is absent, `null`, `false`, `0` or the empty string |
| `ChatProxy.ResponseType` | server.js:44 | the upstream response type is `stream` exactly when the handler takes the streaming branch, and `json` otherwise |
| `ChatProxy.StreamModeFollowsClient` | server.js:44-49 | streaming is requested and taken exactly when the client's `stream` field is truthy |
| `ChatProxy.Response.SetHeader` | server.js:50 | a header is set before anything is sent, and nothing else changes |
| `ChatProxy.Response.SetStatus` | server.js:62 | the status is set before anything is sent |
| `ChatProxy.Response.Write` | server.js:54 | a write appends the chunk and is only allowed before `end` |
| `ChatProxy.Response.End` | server.js:56-57 | ending keeps everything written |
| `ChatProxy.Response.SendJson` | server.js:59 | on a response with no `Content-Type` yet, `json` sends the value as the body with the JSON content type and ends the response |
| `ChatProxy.OnData` | server.js:53-55 | the callback appends the chunk unless its text contains `[DONE]` |
| `ChatProxy.Heartbeats` | server.js:51 | `n` timer firings append `n` keep-alive comments |
| `ChatProxy.ForwardStream` | server.js:49-57 | the streaming branch sets the event-stream header, writes exactly `StreamBody` of the chunks, records the `clearInterval` call made by either closing event, and ends the response |
| `ChatProxy.HandleChatCompletions` | server.js:33-64 | a `TypeError` in the rewrite or a failed call gives 500 with the error body and the JSON content type; otherwise the upstream receives the rewritten body and the response type; the event-stream header is set exactly when the client's `stream` is truthy; a JSON reply is returned unchanged; a streamed reply is forwarded as `StreamBody`; every started heartbeat is recorded as cleared |

## Left out

- Express routing, CORS, the body-size limits, the health routes and `app.listen` (server.js:24-31, 66-69) are HTTP plumbing.
- The HTTPS agent, timeouts and the bearer header (server.js:11, 42-47) are out of scope. The upstream call itself is a function parameter of `HandleChatCompletions`.
- The environment settings `PORT`, `NIM_API_BASE` and `NIM_API_KEY` (server.js:9, 12-13) are ambient process state.
- The heartbeat's clock is not modelled. How many ten-second periods pass before each chunk and before the closing event is an input (`beats`).
- Both closing events (`end` and `error`) stop the timer and end the response. The timer is not modelled: `heartbeatRunning` only records the `clearInterval` call. No error is reported to the client after streaming has begun.
- The handler's asynchrony is not modelled. Events are processed in arrival order, one at a time, as the event loop does.
- JSON serialisation is not modelled. Key order in objects is not kept (objects are maps), and numbers are reals rather than IEEE doubles.
- An absent model, whose property holds `undefined` after the assignment, is modelled as an absent key. JSON serialisation omits such a property.
- `ModelResolution.ResolveModel`: names inherited from JavaScript's object prototype (`constructor`, `toString`, ...) are assumed not to hit the table. In JavaScript, `MODEL_MAPPING["constructor"]` yields a function, so `model` would be dropped from the serialised body (and `"__proto__"` would send `{}`). The model forwards such a name unchanged instead.
- `JsValues.SpreadOf`: a string is spread one Dafny character per index key. JavaScript spreads UTF-16 code units, which differ for characters outside the Basic Multilingual Plane.
- A body that is neither an object nor an array cannot reach the handler, because JSON body parsing accepts only those. Its spread is still modelled.
- server.js:70-96 is a pasted chat transcript, not code, so nothing there is modelled.
