# Ollama engine: prompt flattening, request resolution and error text

This project models the pure core of `OllamaEngine` in opencommit
(`src/engine/ollama.ts`): the engine that sends a commit-message conversation to a
local Ollama server. It covers four things:

- how a chat conversation (role-tagged messages) is flattened into a single prompt;
- how the configuration resolves to the client's base URL and its headers;
- how the model name and the `POST /api/generate` body are chosen;
- what message the thrown error carries when the request fails.

Everything is modelled as total functions, with lemmas about them. The source has no
loops and no state that changes: the constructor assigns `config` and `client` once.

- `wrappers.dfy`, module `Wrappers`: `Option` stands for JavaScript values that may be
  `undefined` or `null`. `Result` is the returned text or the thrown error.
- `prompt.dfy`, module `Prompt`: `Message`, the line of one message (`LineOf`),
  `Array.prototype.join` (`Join`), the `map` over the messages (`Lines`) and the prompt
  (`BuildPrompt`). `JoinLeft` is a reference definition of joining, built from the left;
  `Join` is proved equal to it.
- `ollama.dfy`, module `Ollama`: JavaScript's `??` (`NullishCoalesce`), `||` on strings
  (`LogicalOr`) and object spread (`Spread`, using Dafny's right-biased map `+`). On top
  of these: configuration resolution, the engine's constructor, the request body, the
  error chain `err.response?.data?.error ?? err.message`, and `Generate`. The HTTP call
  and `removeContentTags` are parameters of `Generate`.

A message's role is kept as the string the chat API uses. So "any other role" means any
string other than `system`, `user` and `assistant`, as in the source's `===` tests.

## Model

The helpers `Ollama.NullishCoalesce` (`??`, src/engine/ollama.ts:45 and 57), `Ollama.LogicalOr` (`||`, line 22) and `Ollama.Spread` (the spread at line 18) carry no contract of their own. Their behaviour is stated by the contracts of their callers: `Ollama.ResolveModel` and `Ollama.ErrorDetail` for `??`, `Ollama.ResolveBaseURL` for `||`, and `Ollama.MergeHeaders` for the spread.

| member | source | states |
|---|---|---|
| `Prompt.LineOf` | src/engine/ollama.ts:32-40 | A message's line is its role's label from the table {system: `System: `, user: `User: `, assistant: `Assistant: `} (empty for any other role), followed by the content verbatim. The content is always a suffix of the line. |
| `Prompt.StripLabelOfLine` | src/engine/ollama.ts:32-40 | Removing the role's label from a message's line gives back exactly the content. |
| `Prompt.LineOfInjective` | src/engine/ollama.ts:32-40 | For two messages with the same role, the lines are equal if and only if the contents are equal. |
| `Prompt.Join` | src/engine/ollama.ts:42 | Joining no lines gives the empty string. Otherwise the length is the total length of the lines plus one separator per gap between lines. |
| `Prompt.JoinAppend` | src/engine/ollama.ts:42 | Joining `a + b` (both non-empty) is `join(a)`, then one separator, then `join(b)`. |
| `Prompt.JoinMatchesLeft` | src/engine/ollama.ts:42 | `Join` equals the left-to-right reference definition on every input. |
| `Prompt.JoinAt` | src/engine/ollama.ts:42 | Line `i` appears in the joined text between the join of the lines before it and the join of the lines after it, with a separator only on a side that has lines. So the order is kept and there is no leading or trailing separator. |
| `Prompt.JoinStartsAndEnds` | src/engine/ollama.ts:42 | A non-empty join starts with the first line and ends with the last one. |
| `Prompt.Lines` | src/engine/ollama.ts:31-41 | The mapped list has one line per message, and the line at each position is that message's `LineOf`. |
| `Prompt.BuildPrompt` | src/engine/ollama.ts:31-42 | No messages give the empty prompt. A single message gives exactly its own line, with no separator. |
| `Prompt.BuildPromptAppend` | src/engine/ollama.ts:31-42 | The prompt of two non-empty conversations in a row is the first prompt, a blank line, then the second prompt. |
| `Prompt.BuildPromptAt` | src/engine/ollama.ts:31-42 | Message `i`'s line sits between the prompt of the earlier messages and the prompt of the later ones, with `"\n\n"` only where there are messages on that side. |
| `Ollama.ResolveBaseURL` | src/engine/ollama.ts:22 | A present, non-empty base URL is used as it is. An absent or empty one gives `http://localhost:11434`. |
| `Ollama.ResolveModel` | src/engine/ollama.ts:45 | A present model is used as it is, even the empty string. Only an absent model gives `llama3.2:3b`. |
| `Ollama.EmptyModelKeptEmptyBaseURLReplaced` | src/engine/ollama.ts:45 | An empty model is sent as `""`, while an empty base URL (line 22) falls back to the default. |
| `Ollama.CoalesceAgreesWithOr` | src/engine/ollama.ts:22 | `??` and `||` with the same operands give different results if and only if the left operand is `""` and the fallback is not. |
| `Ollama.MergeHeaders` | src/engine/ollama.ts:16-19 | The merged keys are `Content-Type` plus the custom header names, and no others. Every custom header keeps its custom value. `Content-Type` is `application/json` unless a custom header of that name overrides it. |
| `Ollama.MergeHeadersIdempotent` | src/engine/ollama.ts:16-19 | Merging the merged headers a second time changes nothing. |
| `Ollama.NewEngine` | src/engine/ollama.ts:12-25 | The engine keeps its configuration. Its client gets the resolved base URL and the merged headers. |
| `Ollama.BuildRequest` | src/engine/ollama.ts:44-48 | `stream` is always false, `prompt` is the built prompt, and `model` follows the `??` rule above. |
| `Ollama.ServerError` | src/engine/ollama.ts:57 | The optional chain yields a value if and only if the response, its data and its `error` field are all present, and then it is that `error` string. |
| `Ollama.ErrorDetail` | src/engine/ollama.ts:57 | The detail is the server's `error` string when the whole optional chain is present (even an empty string), otherwise the transport error's message. |
| `Ollama.ErrorMessage` | src/engine/ollama.ts:57-58 | The message is `Ollama provider error: ` followed by the server's `error` string when present (even an empty one), otherwise by the transport error's message. |
| `Ollama.ErrorMessageRoundTrip` | src/engine/ollama.ts:57-58 | Removing the prefix from the error message gives back exactly the detail it was built from. |
| `Ollama.ErrorMessageOnlyKeepsDetail` | src/engine/ollama.ts:57-58 | Two failures give the same message if and only if their details agree. No other part of the original error reaches the caller. |
| `Ollama.ModelNotFoundReported` | src/engine/ollama.ts:57-58 | A server payload `{error: "model not found"}` gives exactly `Ollama provider error: model not found`, whatever the transport message is. |
| `Ollama.TransportMessageReported` | src/engine/ollama.ts:57-58 | A failure with no server response gives the prefix followed by the transport message. |
| `Ollama.Generate` | src/engine/ollama.ts:27-60 | The request posted to `/api/generate` through the engine's client is the built request. The call succeeds if and only if the post does, and then returns `removeContentTags(responseText, 'think')`. Otherwise it fails with the normalised error message, which gives back its detail. |

## Left out

- The creation of the axios client and the `POST` itself (src/engine/ollama.ts:21-24, 51) are network I/O through a library that is not part of this model. The client is the record of its base URL and headers, and the post is the parameter `post` of `Generate`.
- `async`/`await` and promises are left out: the logic around the one suspension point is sequential.
- `removeContentTags` (imported at src/engine/ollama.ts:3) is defined in `src/utils/removeContentTags`, which is not part of this model. It is the uninterpreted parameter `strip` of `Generate`, and nothing is claimed about tag removal.
- Reading `response.data.response` (src/engine/ollama.ts:53-54) is not modelled: a successful reply is its `response` string. The case of a missing field is left out, because its behaviour depends on the HTTP library.
- Exceptions thrown inside the `try` block by anything other than the post (unwrapping the reply, `removeContentTags`) are not modelled: `post` and `strip` are total.
- Message `content` is a string. The chat API's non-string contents, and how a template literal stringifies them, are left out.
- The error's `error` field and `message` are strings. Non-string payloads and an undefined `message` (stringified by the template literal) are left out.
- Header names are compared exactly, as object keys are in JavaScript. So a custom `content-type` sits beside `Content-Type` in the merged object. How the HTTP library later treats header names case-insensitively, and in what order it sends them, is left out.
- Only the `baseURL`, `model` and `customHeaders` fields of the configuration are modelled. The other fields of `AiEngineConfig` (src/engine/Engine.ts is not part of this model) are not read by this file.
- The error detail uses `??`, so a server `error` field that is the empty string is kept, and does not fall back to the transport message (`Ollama.ErrorMessage`).
