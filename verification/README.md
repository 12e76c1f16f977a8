# Circuit Solver Pro: conversation store and send cycle

A model of the chat core of Circuit Solver Pro, a single-page React front end
that sends circuit problems (text and/or an image) to a hosted
text-generation service and streams the answer back into the transcript.

What is modelled:

- **Data model** (`types.dfy`, module `Types`): `Role` (`User` | `Model`),
  `MessagePart` with an optional `text` and an optional `inlineData`
  (`mimeType`, `data`), and `Message` (`id`, `role`, `parts`, `timestamp`).
- **JavaScript strings** (`js_strings.dfy`, module `JsStrings`):
  `String.prototype.trim` over the ECMAScript whitespace and line-terminator
  set, which is the send gate's test. It also holds `Concat`, the left fold of
  streamed fragments (`accumulatedText += chunk`).
- **Service boundary** (`gemini_service.dfy`, module `GeminiService`): the
  conversion of the message list into the request's `contents`. The role
  becomes `"user"` or `"model"`. A part becomes `{text}` when its text is
  truthy, else `{inlineData}`, else `{text: ""}`. This module also holds the
  strings the stream generator yields (`chunk.text || ""`) and the `Stream`
  the app consumes: a finite sequence of fragments plus an optional index at
  which it raises. The conversion has a partner: reading the wire back gives
  each role and each single-field part unchanged.
- **Conversation store** (`app.dfy`, module `App`): class `ChatApp` holds the
  four state fields `messages`, `input`, `isLoading` and `selectedImage`. Its
  methods perform `handleSend` step by step:
  - the gate
  - building the parts by push
  - appending the user message and resetting the input
  - appending the placeholder
  - the for-await fold with replace-by-id
  - the error append
  - clearing the loading flag
  
  Another method performs `clearChat`. The pure list transforms are
  `ReplaceById` and `AfterStream`. `SendOutcome` specifies the message list
  after a whole send, and `HandleSend` is proved to produce exactly that.
  Lemmas about `SendOutcome` state the send cycle's properties:
  - the placeholder holds the concatenation of the delivered fragments
  - on failure exactly one error message is appended and the partial
    placeholder stays
  - earlier messages keep their id, role and timestamp
  - the request ends with the user's turn

Inputs the model takes as parameters: the message ids (`Date.now()`-derived
strings), the timestamps (`new Date()`), the `confirm()` answer, the image
that the file reader produced, and the service's response, including where
it fails.

The send button is disabled while `isLoading` holds (App.tsx:201).
But the Enter key calls `handleSend` directly (App.tsx:187-191), and
`handleSend` tests only the blank-input/no-image gate (App.tsx:45). So
`HandleSend` and `BeginSend` do not require `!isLoading`. `SendEnabled`
models the button. `BeginSend` proves that the button is disabled once a
send has started.

## Model

| member | source | states |
|---|---|---|
| JsStrings.TrimStart | App.tsx:45 | the result is a suffix of the input; everything dropped is whitespace; the result does not start with whitespace |
| JsStrings.TrimEnd | App.tsx:45 | the result is a prefix of the input; everything dropped is whitespace; the result does not end with whitespace |
| JsStrings.Trim | App.tsx:45 | `trim()` of the input is empty exactly when every character is whitespace; a non-empty result starts and ends with non-whitespace |
| JsStrings.ConcatAppend | App.tsx:82 | accumulating two runs of fragments in order equals accumulating each run and joining the results |
| GeminiService.WireRole | services/geminiService.ts:22 | the wire role is `"user"` exactly for role USER, and `"model"` for every other role |
| GeminiService.RoleFromWire | services/geminiService.ts:22 | reading back either wire role string gives a role that maps to the same string |
| GeminiService.ToWireParts | services/geminiService.ts:23-27 | same length and order as the parts. Each non-empty text becomes `{text}` only and drops `inlineData`. Absent or empty text with `inlineData` becomes `{inlineData}` unchanged. A part with neither becomes `{text: ""}` |
| GeminiService.ToWireContents | services/geminiService.ts:21-28 | one record per message, in order, with the mapped role and that message's mapped parts |
| GeminiService.FromWirePart | services/geminiService.ts:24-26 | reading a wire part back yields a single-field part that converts to the same wire part |
| GeminiService.FromWireParts | services/geminiService.ts:23-27 | reading wire parts back preserves length and order and converts to the same wire parts |
| GeminiService.WirePartRoundTrip | services/geminiService.ts:24-26 | a part survives conversion and read-back exactly when it carries exactly one of text and inline data |
| GeminiService.WirePartsRoundTrip | services/geminiService.ts:23-27 | a message's parts survive the round trip exactly when every part carries one field |
| GeminiService.WireRoundTrip | services/geminiService.ts:21-28 | for messages made of single-field parts, the round trip preserves every role, every text and every image's MIME type and data |
| GeminiService.ToWireContentsAppend | services/geminiService.ts:21 | converting a conversation distributes over concatenation |
| GeminiService.YieldedTexts | services/geminiService.ts:41-44 | one yielded string per response chunk, in order: its text, or `""` when the text is absent |
| GeminiService.YieldedTextsAppend | services/geminiService.ts:41-44 | the yielded strings of two runs of chunks are the two runs' yielded strings, joined |
| GeminiService.EmptyChunkInvisible | services/geminiService.ts:41-44 | a chunk with absent or empty text leaves the accumulated text exactly as without it |
| GeminiService.SendMessageStream | services/geminiService.ts:41-44 | the stream the app consumes has one fragment per response chunk (the chunk's yielded text) and fails where the response fails |
| GeminiService.Delivered | services/geminiService.ts:41-44 | the delivered fragments are a prefix of the stream. A failure at index k before the end delivers exactly the first k fragments. No failure, or a failure after the last fragment, delivers all of them |
| App.UserParts | App.tsx:47-53 | the image part comes first when an image is staged. A text part follows exactly when the trimmed input is non-empty, and it carries the untrimmed input. There is one part per staged image plus one per non-blank input, so 1 or 2 exactly when the gate is open. Each part carries one field |
| App.ErrorMessage | App.tsx:91-96 | the error message has role MODEL, an id that is `error-` followed by exactly the stamp, the given timestamp, and the single fixed apology text part |
| App.CanSend | App.tsx:45 | the gate is open exactly when the input has a non-whitespace character or an image is staged |
| App.AfterStream | App.tsx:81-88 | after a non-empty run of fragments, every message with the placeholder id holds one text part with their concatenation. Every other message is unchanged and ids, roles and timestamps are kept. No fragments, or no matching id, leaves the list unchanged |
| App.SendOutcome | App.tsx:44-100 | a closed gate leaves the list unchanged. An open gate adds two messages, or three when the stream fails, and the third is then the last: the error message |
| App.ReplaceById | App.tsx:83-87 | same length and order, and ids, roles and timestamps are kept. Every message with the id (not only the first) gets the new parts. Every other message is unchanged. With no match the list is unchanged |
| App.ReplaceByIdOverwrites | App.tsx:81-88 | a later replace-by-id of the same id supersedes an earlier one, so only the latest accumulation is visible |
| App.AfterStreamStep | App.tsx:81-88 | folding fragment i+1 extends the accumulator by that fragment and republishes it to the placeholder |
| App.AfterStreamFresh | App.tsx:70-88 | when no earlier message has the placeholder's id, after the first k fragments the earlier messages are untouched and the placeholder's single text part is the concatenation of those k fragments |
| App.SendOutcomeFresh | App.tsx:44-100 | with fresh ids, a send appends the user message and the placeholder holding all delivered text. On failure it appends exactly one error message after them and keeps the partial placeholder. Earlier messages stay as they were |
| App.SendOnlyAppends | App.tsx:44-100 | whatever the ids, a send never shortens the list, and every earlier message keeps its id, role and timestamp |
| App.UserPartsOnWire | App.tsx:47-53 | the user message's parts go on the wire as the image's inline data first, then the untrimmed input as text |
| App.UserTurnOnWire | App.tsx:62-72 | the request is the wire form of the earlier conversation followed by one `"user"` turn holding those parts |
| App.StaleChunkAfterClear | App.tsx:102-110 | after a confirmed clear, a fragment for any placeholder id other than `welcome` changes nothing |
| App.ChatApp.constructor | App.tsx:9-19 | initial state: the single welcome message (id `welcome`, role MODEL), empty input, not loading, no staged image |
| App.ChatApp.SendEnabled | App.tsx:201 | the send button is enabled exactly when not loading and the input is non-blank or an image is staged |
| App.ChatApp.SetInput | App.tsx:186 | the input becomes the typed text |
| App.ChatApp.StageImage | App.tsx:35-38 | the image the reader delivered becomes the staged image |
| App.ChatApp.RemoveImage | App.tsx:160 | the staged image is removed |
| App.ChatApp.BuildUserParts | App.tsx:47-53 | the parts pushed (image, then text when the trimmed input is non-empty) are `UserParts` of the current input and staged image |
| App.ChatApp.BeginSend | App.tsx:45-66 | A closed gate changes no state at all. Otherwise `messages` becomes the old list plus the user message, `input` becomes `''`, `selectedImage` becomes null and `isLoading` becomes true, which disables the send button |
| App.ChatApp.AppendPlaceholder | App.tsx:74-79 | appends a MODEL message with the model id and exactly one part, `{text: ''}` |
| App.ChatApp.FoldChunk | App.tsx:82-87 | the accumulator grows by the fragment, and the list becomes the replace-by-id of the old list with the single text part of the new accumulator |
| App.ChatApp.ConsumeStream | App.tsx:81-88 | after the loop the list is the old list with the delivered fragments folded into the placeholder; it reports whether the stream raised |
| App.ChatApp.AppendError | App.tsx:89-96 | appends exactly the error message, leaving all earlier messages, including the placeholder, as they were |
| App.ChatApp.FinishLoading | App.tsx:97-99 | `isLoading` is false |
| App.ChatApp.HandleSend | App.tsx:44-100 | The list ends as `SendOutcome` of the old state. A closed gate sends no request and changes nothing. Otherwise the request is the wire form of the old list plus the user message, and afterwards `input` is `''`, no image is staged and `isLoading` is false, on success and on failure alike |
| App.ChatApp.ClearChat | App.tsx:102-110 | with confirmation the list is exactly one message, with id `welcome` and role MODEL; without it the list is unchanged |

The rows do not cover the functions that only build a value for the members above.
- `App.UserMessage`, `App.Placeholder` and `App.ClearedConversation` build the records of App.tsx:55-60, :74-79 and :104-109.
- `GeminiService.ToWirePart` and `GeminiService.ToWireContent` are the per-element conversions of services/geminiService.ts:22-26.
- `GeminiService.ChunkText` is the `c.text || ""` of services/geminiService.ts:43.

Their behaviour is stated by the contracts of `ToWireParts`, `ToWireContents`, `YieldedTexts`, `SendOutcome`, `AppendPlaceholder` and `ClearChat`.

## Left out

- Rendering: the JSX tree, CSS classes, the scroll effect and the Enter/Shift+Enter key handling. The Enter key is reflected only in `HandleSend` having no `isLoading` precondition.
- components/ChatBubble.tsx and components/MarkdownRenderer.tsx are not part of this model. They are presentation built on Markdown and math rendering libraries.
- index.tsx (DOM bootstrap) and the unused `AppState` interface of types.ts are not part of this model.
- `handleFileChange`: reading the file is asynchronous I/O, so the staged image arrives as a parameter of `StageImage`.
- The generation client, API key, model name, system instruction and sampling settings: these are network calls and configuration. The response is a parameter, a finite sequence of chunks with an optional failure index.
- Asynchronous scheduling: `HandleSend` runs a send to its end without interleaving. A `clearChat` arriving mid-stream is covered only by `StaleChunkAfterClear`, and an error arriving after such a clear would be appended to the cleared list by `AppendError`.
- `Date.now()`, `new Date()`, `confirm()` and `console.error`. Ids, timestamps and the confirmation are parameters, and logging has no effect on state. Whether the ids are unique is a hypothesis of `SendOutcomeFresh`, not something the model derives from the clock.
- JavaScript strings are UTF-16 and the model's strings are sequences of Unicode scalar values. Every character that `trim` removes lies in the Basic Multilingual Plane, so the gate is unaffected.
