# WebSearch proxy and chat front end: a Dafny model

WebSearch is a small Express server that forwards chat questions to OpenAI or
DeepSeek, optionally grounded in the text of an uploaded PDF, together with a
React chat page. This project models the parts of it that are deterministic
logic and proves what they promise:

- **Uploads** (`upload.dfy`): multer's `fileFilter` (only `application/pdf`),
  the `filename` callback that sanitises the original name with
  `/[^a-zA-Z0-9.\-]/g → '_'` and prefixes the timestamp, and the reply of
  `POST /api/upload`.
- **Chat dispatch** (`dispatch.dfy`): the request that `POST /api/chat`,
  `POST /api/deepseek` and `POST /api/parse-pdf` send: endpoint, key, bearer
  header, proxy agent, model name, the exact system and user turns, and
  `stream: false`. It also models how each route turns the provider's answer
  into `{ result }`, or into a 500 reply with its fixed message. A provider
  registry (`Registry`) serves as the reference. Every route is proved to take
  its URL, its key and its agent from one registry entry.
- **Chat page** (`chat_app.dfy`): the `handleAsk` / `handleReset` state machine
  over `inputValue`, `history`, `loading` and `model`, as class `ChatSession`.
  `handleAsk` is split at its `await` into `Ask` and `Answer`.
- **Legacy echo page** (`legacy_app.dfy`): `handleSend` / `handleReset` over
  `outputLines` and `inputValue`, as class `EchoPanel`, plus the numbered
  rendering `${index + 1}. ${line}`.
- **JavaScript text semantics** (`js_text.dfy`): `String.prototype.trim`
  (ECMAScript WhiteSpace and LineTerminator code points), integral
  `Number → String`, and UTF-16 code units. A first-occurrence search helper
  (`IndexOf`, which gives |s| when the character is absent) is used only to
  take modelled strings apart again (`SplitStoredName`, `ParseNumberedLine`).
- `wrappers.dfy` (Option) and `messages.dfy` (roles and chat messages) are shared.

Modelling choices:

- **Original names are UTF-16.** An upload's original name is a sequence of
  UTF-16 code units. The regex has no `u` flag, so it matches one code unit at
  a time, and a character outside the Basic Multilingual Plane becomes two
  underscores wherever it stands in the name
  (`AstralCharacterBecomesTwoUnderscores`). "Same length" is
  measured in code units.
- **Timestamps.** The timestamp is an integer in the ECMAScript time-value
  range of ±8.64·10^15 ms. In that range `${timestamp}` is a plain decimal,
  and a clock before 1970 gives a leading `-`.
- **Undefined values.** Unset environment variables and absent body fields
  are `None`. The code interpolates them as `"undefined"`, so an unset key
  gives `Bearer undefined`. A `model` counts as truthy when it is a non-empty
  string.
- **Parameters, not I/O.** The clock, the environment, the extracted PDF
  text, the provider's answer and the front end's answer are parameters.

What the code does where one might expect otherwise:

- **Missing configuration.** Nothing fails fast on a missing environment
  value. The code just sends `undefined`. A PDF-route selector other than
  `'deepseek'` is not an error: it goes to OpenAI
  (`PdfSelectorOnlyDeepSeekMatters`).
- **PDF prompt.** The grounded user turn is
  `"文档内容：\n" + text + "\n\n请回答：" + question`, labels included
  (`PdfPrompt`).
- **Stored names are not unique.** Two uploads in the same millisecond whose
  names sanitise alike get the same stored name. For example, a name with a
  space and the same name with `_` in its place, such as `a b.pdf` and
  `a_b.pdf`, collide (`SameMillisecondCollision`). Only different timestamps are guaranteed
  to give different names (`StoredNamesDifferAcrossTimestamps`).
- **No path-traversal guarantee.** `/api/parse-pdf` resolves the `filename`
  from the request body unchanged. Only upload-generated names go through the
  sanitiser, so the model claims no traversal safety for that route.
- **Filter rejection is not a 400.** A file refused by the filter is passed
  as an `Error` to Express's error handler. The route's own 400 applies only
  when no file arrived (`HandleUpload`).

## Model

| member | source | states |
|---|---|---|
| JsText.Trim | src/App.tsx:16 | `trim()` gives empty exactly when every character is ECMAScript whitespace or a line terminator; otherwise the result neither starts nor ends with one |
| JsText.TrimOfPadded | src/Legacy/1App.tsx:12 | whitespace padding around a core that neither starts nor ends with whitespace trims to exactly that core |
| JsText.TrimIdempotent | src/App.tsx:16-19 | trimming a trimmed string changes nothing |
| JsText.Digits | src/Legacy/1App.tsx:50 | the decimal numeral is non-empty, all digits, without leading zeros |
| JsText.DigitsRoundTrip | src/Legacy/1App.tsx:50 | reading back a printed non-negative integer gives that integer |
| JsText.IntegerToString | server/index.ts:102 | `${timestamp}` is digits with a leading `-` exactly for negative values |
| JsText.IntegerRoundTrip | server/index.ts:102 | parsing `${timestamp}` gives the timestamp back |
| JsText.Utf16 | server/index.ts:101 | `file.originalname`, a JavaScript string, is stored as UTF-16 code units, at least one per character |
| Upload.NextMatch | server/index.ts:101 | the global regex scan finds the first code unit at or after a position that lies outside `[a-zA-Z0-9.-]` |
| Upload.ReplaceFrom | server/index.ts:101 | the global replacement from a position on yields one character per remaining code unit: the kept ones unchanged, every other one `_` |
| Upload.Sanitise | server/index.ts:101 | the sanitised name has the original's length in code units; kept code units stay in place, every other one becomes `_` |
| Upload.SanitiseAppend | server/index.ts:101 | sanitising a concatenation is the concatenation of the sanitised parts |
| Upload.SanitiseAlphabet | server/index.ts:101 | every character of a sanitised name is in `[a-zA-Z0-9._-]`; it contains no `/` or `\` |
| Upload.SanitiseFixedPoint | server/index.ts:101 | a name passes unchanged if and only if it already uses only `[a-zA-Z0-9._-]` |
| Upload.SanitiseIdempotent | server/index.ts:101 | sanitising twice equals sanitising once |
| Upload.AstralCharacterBecomesTwoUnderscores | server/index.ts:101 | any character outside the BMP, wherever it stands in the name, is two code units and becomes `__`, the rest of the name sanitising as it would on its own |
| Upload.SplitAfterInteger | server/index.ts:102 | a decimal integer followed by `_` and any text splits at that `_` back into the integer and the text |
| Upload.StoredName | server/index.ts:100-102 | the stored name splits back into exactly the timestamp and the sanitised original name |
| Upload.StoredNamesDifferAcrossTimestamps | server/index.ts:100-102 | equal stored names imply equal timestamps and equal sanitised originals |
| Upload.SameMillisecondCollision | server/index.ts:100-102 | for any name, the version with a space and the version with `_` in its place are distinct originals that get the same stored name in the same millisecond |
| Upload.StoredNameIsSegment | server/index.ts:99-103 | a stored name uses only `[a-zA-Z0-9._-]`, contains `_`, has no `/`, and is neither `.` nor `..` |
| Upload.FileFilter | server/index.ts:105-108 | an upload is accepted if and only if its MIME type is `application/pdf`; otherwise it is rejected with the only-PDF error |
| Upload.HandleUpload | server/index.ts:105-112 | a file is saved if and only if one arrived with the PDF type, under the stored name and served at `/uploads/` + that name; no file gives 400 |
| Upload.SavedPathIsOneSegment | server/index.ts:112 | the public path is `/uploads/` followed by a single segment, the stored name |
| Dispatch.Interpolate | server/index.ts:52 | `${v}` is the string itself, or `"undefined"` when the value is absent |
| Dispatch.ChatAgent | server/index.ts:34 | a proxy agent exists if and only if CHATGPT_PROXY is a non-empty string, and it uses that URL |
| Dispatch.Registry | server/index.ts:138-140 | the OpenAI URL goes with the OpenAI key and the proxy agent; the DeepSeek URL goes with the DeepSeek key and no agent |
| Dispatch.AuthHeaders | server/index.ts:141 | `Authorization` is `"Bearer " + key` and the content type is JSON |
| Dispatch.ChatRouteRequest | server/index.ts:40-56 | `/api/chat` sends to the OpenAI entry with the proxy agent; the model is the truthy caller model or `gpt-4o`; turns are exactly the helpful-assistant system turn and the message; `stream: false` |
| Dispatch.DeepSeekRouteRequest | server/index.ts:69-84 | `/api/deepseek` sends to the DeepSeek entry without an agent, always as `deepseek-chat`, with the QA-assistant system turn and the message; `stream: false` |
| Dispatch.PdfPrompt | server/index.ts:134 | the user turn is the document label, the text, the question label and the question, in that order and nothing else |
| Dispatch.PdfRouteRequest | server/index.ts:130-146 | `/api/parse-pdf` uses DeepSeek's URL, key, no agent and `deepseek-chat` if and only if the selector is `'deepseek'`, and OpenAI's URL, key, agent and `gpt-4o` otherwise; the system persona follows the same choice |
| Dispatch.ProviderOf | server/index.ts:138 | a call reaches DeepSeek if and only if it is `/api/deepseek` or a PDF question with selector `'deepseek'` |
| Dispatch.BuildRequest | server/index.ts:37-153 | every route's URL, bearer key and agent come from the same provider entry; two turns (system, user); `stream: false`; DeepSeek is never proxied and always `deepseek-chat`; only `/api/chat` honours a caller model |
| Dispatch.PdfSelectorOnlyDeepSeekMatters | server/index.ts:131-145 | in the PDF route every selector other than `'deepseek'`, absent included, sends the same OpenAI request |
| Dispatch.ErrorMessage | server/index.ts:61-151 | each route has its own fixed 500 message (lines 61, 89 and 151), and the message identifies the route |
| Dispatch.Respond | server/index.ts:58-61 | the reply is `{ result }` with the first choice's content if and only if the call succeeded with at least one choice; otherwise it is 500 with the route's message |
| Dispatch.HandleCall | server/index.ts:116-153 | nothing is sent if and only if the PDF text could not be obtained, which gives 500; otherwise the built request is sent and answered as `Respond` says |
| ChatApp.BackendFor | src/App.tsx:23-26 | the ChatGPT call is used if and only if the model is `'gpt'` |
| ChatApp.BackendRoute | src/api/chatgpt.ts:8-11 | the ChatGPT client posts `{ message, model: 'gpt-4o' }` to `/api/chat`; the DeepSeek client posts `{ message }` to `/api/deepseek` |
| ChatApp.QuestionReachesChosenProvider | src/App.tsx:23-26 | the asked question is the user turn of the outbound request, and it reaches DeepSeek exactly when DeepSeek is selected |
| ChatApp.ChatSession.constructor | src/App.tsx:10-13 | starts with empty input and history, not loading, model `'gpt'` |
| ChatApp.ChatSession.EditInput | src/App.tsx:73 | typing replaces the input only, keeping the session invariant |
| ChatApp.ChatSession.SelectModel | src/App.tsx:45 | the radio group replaces the model only, keeping the session invariant |
| ChatApp.ChatSession.Ask | src/App.tsx:15-21 | a blank trimmed input changes nothing and sends nothing; otherwise the trimmed question is appended as a user turn, input cleared, loading set, and the question goes to the selected backend |
| ChatApp.ChatSession.Answer | src/App.tsx:28-29 | the answer is appended as an assistant turn and loading cleared; earlier entries unchanged |
| ChatApp.ChatSession.HandleAsk | src/App.tsx:15-30 | a full uninterrupted `handleAsk` appends the user turn and then the assistant turn after all earlier entries |
| ChatApp.ChatSession.Reset | src/App.tsx:32-35 | history and input are emptied; model and loading stay; every entry is a user or assistant turn and user turns are non-empty and trimmed (kept by every method) |
| LegacyApp.EchoPanel.constructor | src/Legacy/1App.tsx:8-9 | starts with empty input and no lines |
| LegacyApp.EchoPanel.EditInput | src/Legacy/1App.tsx:63 | typing replaces the input only; every stored line stays non-empty and trimmed |
| LegacyApp.EchoPanel.Send | src/Legacy/1App.tsx:11-16 | a blank trimmed input changes nothing; otherwise the lines become the old lines plus the trimmed input and the input is cleared; every stored line stays non-empty and trimmed |
| LegacyApp.EchoPanel.Reset | src/Legacy/1App.tsx:18-21 | lines and input are emptied |
| LegacyApp.NumberedLine | src/Legacy/1App.tsx:50 | `${index + 1}. ${line}` reads back as exactly its number and its text |
| LegacyApp.SplitAfterDigits | src/Legacy/1App.tsx:50 | a decimal number followed by `. ` and any text splits back into the number and the text |
| LegacyApp.RenderLines | src/Legacy/1App.tsx:48-50 | one displayed line per stored line, the i-th being `decimal(i+1) + ". " + line` |
| LegacyApp.RenderLinesInjective | src/Legacy/1App.tsx:48-50 | different line lists are displayed differently |

## Left out

- HTTP plumbing (Express setup, CORS, JSON middleware, static serving of `/uploads`, `listen`, PORT): no logic to model.
- The axios calls, `HttpsProxyAgent` construction and console logging: foreign I/O. A call's outcome is the parameter `Upstream`; an agent is a value carrying its proxy URL.
- Environment loading, `Date.now()`, `fs` and `path.resolve`: I/O. They are parameters (`Config`, the timestamp, `extracted`).
- pdf-parse text extraction: an opaque library. Its text, or its failure, is an input to `HandleCall`.
- multer's multipart parsing: not modelled, apart from its filter and filename decisions. A file part under another field name (multer's "unexpected field" error) is left out too.
- A `message` missing from the body of `/api/chat` or `/api/deepseek`: the model takes `message` as a string and does not model JSON dropping an `undefined` content. Non-string `model` values are left out as well.
- `response.data.choices[0].message.content` being absent inside a present first choice: the content is a string in the model.
- The client wrappers in `src/api/`: only the route and body they post are modelled (`BackendRoute`). Their fallback error string is just one of the arbitrary answers `Answer` takes.
- React rendering, and antd's Send button ignoring clicks while loading. `Ask` is allowed in any state; a `handleReset` arriving between `Ask` and `Answer` is covered, because the two steps are separate methods.
- Overlapping `handleAsk` calls and React's batching of state updates: concurrency. The steps are modelled as atomic updates in sequence.
- Legacy rendering: `Digits` is exact for integers below 10^21, where JavaScript would switch to exponent notation. Line numbers stay below 2^32, the JavaScript array limit.
- `vite.config.ts`: dev-server configuration only.
