# Legal-assistant chat proxy: token interceptor and tool dispatch

This project is a Dafny model of the two deterministic pieces of a chat proxy.
The proxy forwards a conversation to a hosted language model and lets the model
ask for "tools" (legal-text helper prompts) in the middle of its streamed reply.

- **Token interceptor** (`app/api/chat/route.ts`, the `onToken` callback).
  Four per-request variables: `fullResponse`, `toolCallBuffer`,
  `isCollectingToolCall` and `shouldSkipTokens`. A token that contains the
  sentinel `[USE_TOOL]` is dropped whole, empties the buffer and starts
  collecting. While collecting, tokens go to the buffer. Collecting ends on the
  first token after which the buffer holds `}`. The buffer is then matched
  against `/\[USE_TOOL\](\w+)(.*)/`, and a match is dispatched as a tool call.
  Any other token is appended to `fullResponse`. `fullResponse` is only logged
  by the route: it is the narrative the interceptor accumulates, not what the
  client receives (the stream reaches the client independently).
  `Interceptor.Step` and `Interceptor.Run` state this on values. The class
  `Interceptor.TokenInterceptor` is the callback with its four fields updated
  in place, proved equal to `Run` of the tokens it has seen.
  A dispatch is recorded as the matched tool name and raw argument text.
- **Regular expression** (`ToolCallPattern`): a hand-written matcher with
  JavaScript semantics (leftmost match; `\w` is `[A-Za-z0-9_]`; `.` excludes
  LF, CR, U+2028 and U+2029). `MatchUnique` shows it returns exactly the
  position and groups of a declarative description of the match.
- **Tool registry** (`src/utils/agent.ts`, `tools`): the eleven descriptors as
  a constant sequence of datatypes.
- **Dispatch routing** (`handleToolUse`): `Route(name)` is the switch, giving
  the handler and the `input` fields it is passed. `HandleToolUse` adds the
  "Unknown tool" default and the conversion of a throw into `"Error: " + message`.
  The handlers are a function parameter.
- **Request shaping** (`ChatRequest`): the role mapping of the client's messages
  and the tool catalog embedded in the system prompt.

Consequences the proofs make explicit:

- A dispatch needs the sentinel to reach the buffer split across two or more
  collected tokens (`DispatchNeedsSplitSentinel`). The token that carries a whole
  sentinel is discarded with everything on it (`WholeSentinelNotDispatched`).
- A sentinel token during a collection restarts it: the buffer is emptied.
- Completion is judged by the first `}`, not by balanced braces. The buffer is
  not cleared at completion; it is only emptied by the next sentinel token.
- Routing depends on the name alone. The registry's `required` lists are not
  checked before a handler is called (`MissingRequiredFieldDispatched`).
- In short, the code does not check required fields, ends a collection at the
  first `}` rather than at balanced braces, and restarts the collection on a
  second sentinel token instead of buffering it as text.

## Model

| member | source | states |
|---|---|---|
| `Strings.Contains` | app/api/chat/route.ts:59 | `String.prototype.includes`: some index holds the searched text; no contract of its own |
| `Strings.Join` | app/api/chat/route.ts:12 | `Array.prototype.join`: the pieces with the separator between adjacent ones; no contract of its own, its round trip with `Split` is `Strings.SplitJoin` |
| `Strings.SplitJoin` | app/api/chat/route.ts:12 | splitting the join of a non-empty list of separator-free pieces on the separator gives the pieces back |
| `Strings.OccurrenceStraddles` | app/api/chat/route.ts:59-72 | if no token contains the sentinel on its own, every occurrence of it in their concatenation straddles a boundary between two tokens, so there are at least two tokens |
| `ToolCallPattern.FindFrom` | app/api/chat/route.ts:71 | returns the leftmost position at or after `from` where the sentinel is followed by a word character, or none if there is no such position |
| `ToolCallPattern.WordRunEnd` | app/api/chat/route.ts:71 | `(\w+)` is greedy: the end of the maximal run of word characters |
| `ToolCallPattern.LineEnd` | app/api/chat/route.ts:71 | `(.*)` stops at the first line terminator or the end of the text |
| `ToolCallPattern.Match` | app/api/chat/route.ts:71-73 | no match exactly when no position has the sentinel followed by a word character; otherwise the groups are those of the leftmost such position: a maximal non-empty word run as the name, then everything up to the first line terminator as the argument |
| `ToolCallPattern.MatchUnique` | app/api/chat/route.ts:71-73 | any leftmost position and groups satisfying the description are exactly what `Match` returns |
| `ToolCallPattern.MatchNeedsSentinel` | app/api/chat/route.ts:71-72 | a successful match implies the text contains the whole sentinel |
| `Interceptor.Step` | app/api/chat/route.ts:56-91 | one call of `onToken`: `fullResponse` never loses text, and a dispatch happens only on a sentinel-free token that completes a collection in progress and ends it; the branch-by-branch effects are `SentinelTokenRestarts`, `CollectingBuffers`, `PassthroughAppends` and `DispatchOnCompletion` |
| `Interceptor.Run` | app/api/chat/route.ts:47-91 | the callback over a whole stream from the initial values: the skip flag mirrors the collecting flag and there are at most as many dispatches as tokens; the stream-level properties are the lemmas below |
| `Interceptor.RunInvariant` | app/api/chat/route.ts:47-90 | after any stream, `shouldSkipTokens` equals `isCollectingToolCall`; while collecting, the buffer holds no `}` and equals the concatenation of the sentinel-free tokens since the last sentinel token |
| `Interceptor.PassthroughIdentity` | app/api/chat/route.ts:59-89 | with no sentinel token, `fullResponse` is the in-order concatenation of all tokens, the buffer is empty, collecting is off and nothing is dispatched |
| `Interceptor.SentinelTokenRestarts` | app/api/chat/route.ts:59-63 | a sentinel token leaves `fullResponse` unchanged, empties the buffer, sets both flags, dispatches nothing, whether or not a collection was in progress |
| `Interceptor.CollectingBuffers` | app/api/chat/route.ts:66-70 | while collecting, a sentinel-free token is appended to the buffer, not to `fullResponse`, and collecting ends exactly when the token holds `}` |
| `Interceptor.PassthroughAppends` | app/api/chat/route.ts:86-89 | outside a collection, also right after one completed, a sentinel-free token is appended to `fullResponse` and nothing else changes |
| `Interceptor.DispatchOnCompletion` | app/api/chat/route.ts:69-85 | one token adds at most one dispatch to the log, and only by extending it; it adds one exactly when it completes a collection whose buffer matches, and the dispatch is that match |
| `Interceptor.DispatchCount` | app/api/chat/route.ts:59-77 | dispatches plus one for a collection still open never exceed the number of sentinel tokens: at most one dispatch per collection, none for one left open |
| `Interceptor.OpenCollectionNoDispatch` | app/api/chat/route.ts:66-77 | a stream that ends while collecting dispatched nothing since the sentinel token that opened the collection |
| `Interceptor.AppendOnly` | app/api/chat/route.ts:88-89 | `fullResponse` after a prefix of the stream is a prefix of `fullResponse` after the whole stream |
| `Interceptor.DispatchNeedsSplitSentinel` | app/api/chat/route.ts:59-72 | a dispatch happens only when the completed buffer is the concatenation of at least two sentinel-free tokens with a boundary strictly inside the matched sentinel |
| `Interceptor.WholeSentinelNotDispatched` | app/api/chat/route.ts:59-89 | for the stream `Hi`, `[USE_TOOL]`, `a{}`, `!`: nothing is dispatched and `fullResponse` is `Hi!` |
| `Interceptor.SplitSentinelDispatched` | app/api/chat/route.ts:59-85 | for the stream `[USE_TOOL]`, `[USE_`, `TOOL]a{}`: exactly the call named `a` with argument `{}` is dispatched |
| `Interceptor.TokenInterceptor.constructor` | app/api/chat/route.ts:47-50 | the four variables start as `''`, `''`, `false`, `false`, with no tokens seen and no dispatch |
| `Interceptor.TokenInterceptor.OnToken` | app/api/chat/route.ts:56-91 | the fields become `Step` of the old fields and the token, the dispatch log grows by the step's dispatch, and the object stays equal to `Run` of all tokens seen |
| `Registry.Tools` | src/utils/agent.ts:23-147 | the eleven descriptors, in source order, with their names, descriptions, properties and required lists; no contract of its own, its properties are `ToolNamesDistinct`, `SchemasWellFormed` and `RequiredFields` |
| `Registry.ToolNamesDistinct` | src/utils/agent.ts:23-147 | there are eleven tools and their names are pairwise distinct |
| `Registry.SchemasWellFormed` | src/utils/agent.ts:23-147 | every schema has type "object" and every required name is a key of its properties |
| `Registry.RequiredFields` | src/utils/agent.ts:23-147 | every tool requires "text"; a tool requires "regulation" exactly when it is compliance_checker |
| `Dispatch.Route` | src/utils/agent.ts:171-224 | a routed name is the case label of the handler it selects, and the handler is passed at least one field |
| `Dispatch.RouteByLabel` | src/utils/agent.ts:171-220 | every handler's case label routes to that handler |
| `Dispatch.UnknownExactly` | src/utils/agent.ts:171-223 | a name falls to the default case exactly when it is no handler's case label |
| `Dispatch.ArgumentRouting` | src/utils/agent.ts:172-220 | compliance_checker passes text and regulation; review_legal_text text and extractedInfo; draft_improved_legal_text originalText and reviewSummary; plan_legal_process process and context; every other routed name only text |
| `Dispatch.RegisteredToolsRouted` | src/utils/agent.ts:188-220 | every registered tool has a case, and the fields passed are exactly its schema's required fields, in order |
| `Dispatch.RoutedButUnregistered` | src/utils/agent.ts:172-187 | extract_legal_info, review_legal_text, draft_improved_legal_text and plan_legal_process are routed but are not in the registry |
| `Dispatch.HandleToolUse` | src/utils/agent.ts:165-232 | an unrouted name gives "Unknown tool"; a routed one gives the handler's return value, or "Error: " and the message when the handler or reading a field of a null input throws |
| `Dispatch.AdvertisedButUnhandled` | src/utils/agent.ts:221-223 | todo_manager and missing_clause_detector get exactly "Unknown tool" whatever the input |
| `Dispatch.MissingRequiredFieldDispatched` | src/utils/agent.ts:209-211 | a compliance_checker call without "regulation" still reaches the handler, with `undefined` for the regulation |
| `ChatRequest.ToolCatalog` | app/api/chat/route.ts:12 | `tools.map(tool => name + ': ' + description).join('\n')`; no contract of its own, its property is `CatalogOneLinePerTool` |
| `ChatRequest.CatalogOneLinePerTool` | app/api/chat/route.ts:12 | for tools whose names and descriptions have no line break, the catalog splits into one `name: description` line per tool, in order |
| `ChatRequest.ToModelMessages` | app/api/chat/route.ts:42-45 | the mapping keeps length, order and content; every output role is "user" or "assistant", and it is "user" exactly when the input role is "user" |
| `ChatRequest.ToModelMessagesKeepsValidRoles` | app/api/chat/route.ts:42-45 | messages whose roles are already "user" or "assistant" are unchanged |
| `ChatRequest.ToModelMessagesIdempotent` | app/api/chat/route.ts:42-45 | mapping twice gives the same messages as mapping once |

## Left out

- The remote model calls, streaming (app/api/chat/route.ts:100-108) and non-streaming (in the handlers), are left out: they are remote I/O. So are `AnthropicStream`, `StreamingTextResponse` and the HTTP 500 fallback, which are framework and transport plumbing.
- `JSON.parse` of the matched argument is not modelled: it is a foreign library. Its success or failure, like the handler's result, never changes the interceptor's state. So each dispatch is recorded as the raw name and argument text of the match.
- The handler bodies and the eleven empty stub handlers of src/utils/agent.ts are not modelled: they build a prompt and call the model, or do nothing. `HandleToolUse` takes what each handler returns or throws as the parameter `invoke`. The stub handlers resolve to `undefined`, so for every registered tool with a non-null input `handleToolUse` returns `undefined`; `Returned` carries only strings and cannot express that. The result is only logged by the route, so nothing modelled depends on it.
- `error instanceof Error ? error.message : String(error)` is abstracted: a throw is modelled by its message text. The TypeError message for reading a field of a `null` input is the parameter `nullRead`.
- Whether the framework awaits the asynchronous `onToken` before delivering the next token is not modelled: it is a concurrency question. The model processes tokens one at a time, in order.
- A JavaScript string holding a lone surrogate has no counterpart: strings are modelled as sequences of Unicode scalar values. The sentinel, `}`, `\w` and the line terminators are single code units, so on every other string the searches and captured groups agree with JavaScript.
- The `onStart`, `onCompletion` and `onFinal` callbacks and every `console.log`/`console.error` only log, so they are left out.
- The system prompt's fixed text (app/api/chat/route.ts:10-36) is left out apart from the tool catalog embedded in it.
- ChatRequest.CatalogOneLinePerTool: it is stated for every catalog whose names and descriptions contain no line break. That the eleven literal descriptions of the registry contain none is not proved, because the verifier cannot check character-by-character facts about long string literals within its resource limit.
- No to-do store or `todo_manager` handler exists in src/utils/agent.ts or app/api/chat/route.ts; a to-do store is not part of this model.
