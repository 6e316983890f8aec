# EduAI query pipeline — a Dafny model

EduAI is a question-and-answer app for students. A student picks a curriculum board and asks a
question. The backend sends a tutoring prompt to Google's Gemini model, stores the question and
answer as a `Query` document for the logged-in user, and returns `{ text, visual }`. A second
route lists the caller's stored questions, newest first. This project models that request path,
plus the email check and state updates of the login form, and proves what each part promises.

Modules, one per source file:

- `QuerySchema` (`query_schema.dfy`) covers the Mongoose `Query` schema. A document is built
  from the supplied fields, and `createdAt` defaults to the clock. The document passes
  validation when `user` is set and `board`, `query` and `response` are non-empty strings.
  A failed save carries Mongoose's message naming the paths that failed.
- `GeminiService` (`gemini_service.dfy`) covers the adapter. It builds the fixed prompt, makes
  one uninterpreted remote call (class `GenerativeModel`, which logs every prompt), and reads
  `text` and the first `fileData.uri` from the reply. When there is no usable uri it uses the
  placeholder image.
- `QueryController` (`query_controller.dfy`) covers `processQuery`, written as a method of the
  class `QueryStore`, which holds the stored documents as a `seq` plus the ObjectId counter.
  The pure function `HandleQuery` states the method's whole effect: the reply, the prompts
  sent, the documents added and the ids used.
- `HistoryController` (`history_controller.dfy`) covers `getHistory`: a read-only function
  that filters by owner and sorts by `createdAt`, newest first.
- `Login` (`login.dfy`) covers the email regular expression. It is written twice: as a
  pattern (the regex's language) and as an executable test, proved to accept the same
  strings. The class `LoginForm` models `handleSubmit` and the setter calls it makes.
- `Pipeline` (`pipeline.dfy`) holds properties that span files: an empty answer becomes a
  500, and submitting the same request twice stores two separate records.

External services are parameters:

- The Gemini reply is `respond(prompt, callIndex)`. `response.text()` may throw, so it is a
  `Result` in the reply.
- The clock reading is `now`.
- A store failure is `storeFault` for saves and `storeUp` for the history query.
- The authenticated user is `userId`, which stands for `req.user.userId`.

Two behaviours worth knowing, both following from the code:

- There is no mock mode. `Backend/services/gemini/geminiService.js:3` reads the API key
  unconditionally, and every request calls the remote model.
- The controller never checks that the generated `text` is non-empty. A 200 still always has
  non-empty `text`, because schema validation rejects an empty `response` and the controller
  reports that as a 500 (`Pipeline.EmptyAnswerIsServerError`).

## Model

| member | source | states |
|---|---|---|
| QuerySchema.IsValid | Backend/models/Query.js:4-7 | the required-field check: `user` set, and `board`, `query`, `response` present and non-empty; `visual` is not consulted |
| QuerySchema.MissingPaths | Backend/models/Query.js:4-7 | lists a required path exactly when its check fails (`user` absent; `board`/`query`/`response` absent or empty); the list is empty iff the document is valid |
| QuerySchema.ValidationMessage | Backend/models/Query.js:4-7 | the rejection message starts with "Query validation failed: " and is longer than that prefix when any path failed |
| QuerySchema.VisualIsOptional | Backend/models/Query.js:8 | changing or dropping `visual` never changes validity |
| QuerySchema.EmptyResponseMessage | Backend/models/Query.js:7 | a document whose only defect is an empty `response` fails on `response` alone, with that path's message |
| QueryController.Truthy | Backend/controllers/queryController.js:8 | JavaScript truthiness of a body field: present and not `""` (a string of blanks is truthy) |
| GeminiService.BuildPrompt | Backend/services/gemini/geminiService.js:7 | the prompt is the fixed opening, the board, the fixed middle, the question and the fixed closing, each at its position |
| GeminiService.ParseBuiltPrompt | Backend/services/gemini/geminiService.js:7 | parsing a built prompt gives back its board and question |
| GeminiService.BuildParsedPrompt | Backend/services/gemini/geminiService.js:7 | any string that parses is exactly the prompt of its parsed board and question |
| GeminiService.PromptDeterminesRequest | Backend/services/gemini/geminiService.js:7 | for boards of equal length, equal prompts mean equal boards and questions |
| GeminiService.FindFileDataPart | Backend/services/gemini/geminiService.js:11 | returns the index of the first part with `fileData`, or none when no part has it |
| GeminiService.SelectVisual | Backend/services/gemini/geminiService.js:11 | `visual` is never empty; it is the placeholder when no part has `fileData`, otherwise the first such part's uri when non-empty, else the placeholder |
| GeminiService.ReadReply | Backend/services/gemini/geminiService.js:8-12 | success iff the call resolved, `text()` did not throw and a candidate exists; then `text` is the reply text unchanged and `visual` comes from `candidates[0]`'s parts; each failure carries its message, including the TypeError for no candidate |
| GeminiService.OnlyFirstCandidateConsulted | Backend/services/gemini/geminiService.js:11 | candidates after the first never change the result |
| GeminiService.GenerativeModel.GenerateContent | Backend/services/gemini/geminiService.js:8 | one remote call: the prompt is appended to the call log and the reply is the model's answer for that prompt and call index |
| GeminiService.GenerateResponse | Backend/services/gemini/geminiService.js:5-13 | sends exactly one prompt, the tutoring prompt for `(board, query)`, and returns the reply read as `{ text, visual }` |
| QueryController.ErrorText | Backend/controllers/queryController.js:27 | the 500 error text is never empty; it is the thrown message when that is non-empty, else "Failed to process query" |
| QueryController.BuiltDocumentValid | Backend/controllers/queryController.js:15-21 | the document built from a request passes the schema check exactly when the question, the board and the generated text are all non-empty; the id, the clock and `visual` never matter |
| QueryController.SaveError | Backend/controllers/queryController.js:22 | a save succeeds iff the document is valid and the store does not fail; validation failure takes precedence and reports the missing paths |
| QueryController.HandleQuery | Backend/controllers/queryController.js:4-29 | the status is 400 exactly when `query` or `board` is falsy, and then the body is "Query and board are required" with no prompt, no record and no id used; otherwise exactly one prompt, the template for `(board, query)`, is sent; a generator failure gives 500 `err.message` (or the fallback) with no record and no id used; after a successful generation one id is used and the save decides: on a save error a 500 with that error's text and nothing stored, on success exactly the built document (caller, board, query, response = text, visual, createdAt = now, fresh id) is added and the reply is the generated `{ text, visual }` |
| QueryController.QueryStore.FreshId | Backend/controllers/queryController.js:15 | issues the next ObjectId and advances the counter |
| QueryController.QueryStore.Valid | Backend/models/Query.js:3-10 | the store invariant: every stored document passed validation and has its own `_id`, issued earlier by the counter |
| QueryController.QueryStore.Save | Backend/controllers/queryController.js:22 | appends the document exactly when the save succeeds, otherwise leaves the store as it was; the store invariant (all valid, ids distinct) is kept |
| QueryController.QueryStore.ProcessQuery | Backend/controllers/queryController.js:4-29 | reply, prompts sent, stored records and id counter are exactly as `HandleQuery` gives for this call's model reply; the store invariant is kept |
| HistoryController.FindByUser | Backend/controllers/historyController.js:5 | every returned record is the caller's, and there are no more of them than stored records |
| HistoryController.FindByUserCount | Backend/controllers/historyController.js:5 | each caller record occurs in the filter result as often as in the store; others' records never occur |
| HistoryController.FindByUserNone | Backend/controllers/historyController.js:5 | a store with none of the caller's records filters to the empty list |
| HistoryController.FindByUserAppend | Backend/controllers/historyController.js:5 | one more stored document extends the filter result by that document exactly when it is the caller's |
| HistoryController.SortNewestFirst | Backend/controllers/historyController.js:5 | the result is ordered by `createdAt`, non-increasing, and is a permutation of the input |
| HistoryController.GetHistory | Backend/controllers/historyController.js:3-10 | on store failure: 500 `{ msg: "Server error" }` and no data; otherwise the caller's records only, newest first, and a permutation of the filter result |
| HistoryController.HistoryCounts | Backend/controllers/historyController.js:5 | the listing holds each caller record exactly as often as the store, and no record of anyone else |
| HistoryController.HistoryIsComplete | Backend/controllers/historyController.js:5 | every stored record of the caller is in the listing (no limit or paging) |
| HistoryController.HistoryLength | Backend/controllers/historyController.js:5 | the listing has exactly as many entries as the caller has records |
| HistoryController.EmptyHistoryForNewCaller | Backend/controllers/historyController.js:5-6 | a caller with no records gets an empty list |
| HistoryController.SavedRecordJoinsHistory | Backend/controllers/historyController.js:5 | saving one more caller record adds exactly that record to the caller's listing |
| HistoryController.TwoSavesJoinHistory | Backend/controllers/historyController.js:5 | two saves of caller records add both to the listing |
| HistoryController.OtherUsersRecordsInvisible | Backend/controllers/historyController.js:5 | saving another user's record leaves the caller's listing unchanged |
| Login.MatchesEmailPattern | vite-project/src/components/Auth/Login.jsx:29 | the language of `^[^\s@]+@[^\s@]+\.[^\s@]+$`: a non-empty run without whitespace or `@`, an `@`, a non-empty run, a `.`, and a non-empty run |
| Login.IndexOf | vite-project/src/components/Auth/Login.jsx:29 | returns the first index holding the character, or none when it does not occur |
| Login.EmailRegexTest | vite-project/src/components/Auth/Login.jsx:29-30 | an accepted address has no whitespace, is non-empty and does not start with `@` |
| Login.AcceptedMatchesPattern | vite-project/src/components/Auth/Login.jsx:29 | every address the test accepts is in the language of `^[^\s@]+@[^\s@]+\.[^\s@]+$` |
| Login.PatternIsAccepted | vite-project/src/components/Auth/Login.jsx:29 | every address in that language is accepted by the test |
| Login.EmailRegexTestIsPattern | vite-project/src/components/Auth/Login.jsx:29 | the test accepts exactly the strings the regular expression matches |
| Login.AcceptedEmailShape | vite-project/src/components/Auth/Login.jsx:29 | an accepted address has exactly one `@`, not first; no whitespace; and a `.` after the `@` that is neither the first nor the last character there |
| Login.LoginErrorText | vite-project/src/components/Auth/Login.jsx:43 | the login error is the server's `msg` when present and non-empty, else "Invalid credentials"; never empty |
| Login.LoginForm.SetError | vite-project/src/components/Auth/Login.jsx:25 | `setError`: `error` takes the new message and the call is appended to the setter log |
| Login.LoginForm.SetIsLoading | vite-project/src/components/Auth/Login.jsx:26 | `setIsLoading`: `isLoading` takes the new flag and the call is appended to the setter log |
| Login.LoginForm.HandleSubmit | vite-project/src/components/Auth/Login.jsx:23-46 | every submission first sets `error` to "" and `isLoading` to true; an invalid email then sets the invalid-email error and `isLoading` false and sends no request; a valid one sends exactly one request with the form's email and password; success stores the returned token (the string "undefined" when the reply has none); failure sets the server's message or the default and `isLoading` false |
| Pipeline.NonEmptyAnswerIsServed | Backend/controllers/queryController.js:13-24 | a validated request whose reply reads as a non-empty answer, saved without store failure, is answered with exactly that `{ text, visual }` |
| Pipeline.EmptyAnswerIsServerError | Backend/controllers/queryController.js:15-28 | an empty generated `text` makes the save fail on `response`: 500 with the validation message, nothing stored |
| Pipeline.BlankQueryPassesValidation | Backend/controllers/queryController.js:8-13 | a query made only of blanks, with a non-empty board, is not rejected with 400, and its tutoring prompt is sent to the model |
| Pipeline.ResubmissionIsNotDeduplicated | Backend/controllers/queryController.js:15-22 | two successful submissions of the same request store two records with the same owner, question and board under different ids, and both join the caller's history |

## Left out

- The Gemini SDK and network call (`geminiService.js:3`, `:6`, `:8`) are uninterpreted. The reply to each call is the parameter `respond(prompt, callIndex)`. The model name, the API key and `getGenerativeModel` are not modelled.
- A candidate with no `content` or `parts` is not modelled: every candidate always has a parts list. Only the error for an empty `candidates` array (the TypeError at line 11) is modelled.
- Body fields that are JSON values other than strings (numbers, booleans, objects) are not modelled. A field is a string or absent, so "falsy" means absent or `""`.
- MongoDB itself is not modelled. Stored documents are a `seq`, and a store failure is an injected parameter. `find`/`sort` are stated by their postconditions. MongoDB does not fix the order of equal `createdAt` values; the model comes out with the later-stored record first among ties.
- The Mongoose validation message is modelled in its usual format, listing failed paths in schema order. Mongoose's casting of `userId` to an ObjectId, and the CastError that can raise, are not modelled.
- Requests are treated as atomic and one at a time. Interleaving of concurrent requests at their `await` points is not modelled.
- `console.log` and `console.error` calls, the Express wiring (`server.js`, `routes/*.js`) and the unseen auth middleware are left out. The middleware's output is the `userId` parameter.
- `Login.jsx`: navigation to `/dashboard` is not modelled. React's rendering and batching of setter calls are not modelled: `LoginForm.updates` records the setter calls in order. `handleInputChange`, the password visibility toggle and the logging effect are UI only.
- JavaScript's `\s` is written out as its fixed list of characters: ECMAScript WhiteSpace and LineTerminator, with the Unicode space separators listed by hand.
- The React pages and components, the speech-recognition hook, the canvas and the mermaid wrapper are rendering and browser code. The tests assert rendered text only.
