# Video-script wizard: key rotation, session state and error links

This project models the logic core of a small web application. The
application turns a story idea into a video script in three steps: story
ideas, characters, then a scene-by-scene script. Each step calls a remote
generation model through a service. The service owns a pool of API keys and
rotates through them when a key is refused.

The model covers three parts of the application.

- **The generation service** (`gemini_service.dfy`, module `GeminiService`).
  - The key pool is built once from the candidate environment values.
  - A round-robin cursor hands the keys out in turn.
  - The retry loop walks the pool at most once per call. It moves on after
    quota, permission and suspension failures and stops at once on any other
    failure.
  - Failure texts are mapped to user-facing messages in a fixed priority order.
  - The three generation operations shape their requests: the story list is
    cut to the requested count, the scene count is derived from the duration,
    and the roster is listed one character per line.

  The pool and its cursor form the class `KeyPool`. `CallWithRetry` is a loop
  proved against the specification function `Retry`, and the lemmas about
  `Retry` state which keys are tried, how often, and which outcome comes out.

- **The wizard's session** (`app.dfy`, module `App`). The class `Session`
  holds the component's state variables. Its methods are the event handlers:
  - restoring, saving and deleting keys;
  - the three generation steps with their "no keys" and "no story chosen"
    guards;
  - editing one field of a character;
  - reporting a failure;
  - starting over.

  Each method states its whole new state as an update of the old one. The
  values the handlers compute are functions with lemmas of their own: key
  validation, 1-based numbering, story lookup and the field edit.

- **The character card's error display** (`character_card.dfy`, module
  `CharacterCard`). A failure message that holds a markdown-style link is
  split into three parts: the rest of the message (trimmed), the link text
  and the URL. The single regular-expression match is written out by hand:
  - the leftmost `[`;
  - the shortest first capture;
  - then the shortest second capture;
  - `.` does not match line breaks.

  Lemmas prove that this is the first match in the engine's order.

Shared pieces:
- `strings.dfy` (module `Strings`) models the JavaScript string operations
  used: `trim` with its whitespace set, ASCII `toLowerCase`, `includes` and
  `join`.
- `types.dfy` (module `Types`) mirrors the record types together with the
  `Option` and `Outcome` wrappers.

The remote model is a function parameter in this model. The service takes
one `attempt: string -> Outcome<T>` per call, and the session's handlers
take the awaited service call. `Err(m)` carries the text of the thrown
value.

The model follows the code in these points, which are easy to misread:
- A pooled key must be longer than 10 characters, and the service does not
  trim keys; only the key dialog trims.
- "overloaded" is not a rotation marker. A failure whose text holds
  "overloaded" and none of the five rotation markers ends the call at once.
  Its message is the overload message unless the text also holds "billed
  users", which takes priority.
- With an empty pool the loop never runs. The message is then the generic
  one built from the text "undefined"; `getNextApiKey`'s own "no key" error
  is never reached from `callWithRetry`.
- The session reopens the key dialog only for the message `MISSING_KEYS`.
  `App.ServiceErrorsNeverMissingKeys` shows that no message the
  service builds is `MISSING_KEYS`, so that branch is unreachable with this
  service.

## Model

| member | source | states |
|---|---|---|
| GeminiService.AvailableApiKeys | services/geminiService.ts:5-20 | the pool has no more entries than the candidates; every pooled key is a string candidate longer than 10 characters; every such candidate is pooled |
| GeminiService.AvailableApiKeysConcat | services/geminiService.ts:5-20 | filtering keeps the candidates' order: the pool of `a + b` is the pool of `a` followed by the pool of `b` |
| GeminiService.KeyPool.constructor | services/geminiService.ts:23-24 | the pool is built once from the candidates and the cursor starts at 0 |
| GeminiService.KeyPool.NextKey | services/geminiService.ts:27-32 | an empty pool yields the "no key configured" error and leaves the cursor alone; otherwise the key under the cursor is returned and the cursor moves one place around the pool, staying in range |
| GeminiService.KeyPool.CallWithRetry | services/geminiService.ts:35-60 | the loop's result and attempt count are those of `Retry` from the starting cursor; attempt `j` uses pool position `(start + j) mod N`; the cursor ends just past the last key used |
| GeminiService.Retry | services/geminiService.ts:39-59 | a call makes at most N attempts, and at least one when the pool is not empty |
| GeminiService.RetryExplained | services/geminiService.ts:39-56 | every attempt but the last failed rotatably; a success is the last attempt's answer; a call that stops early stopped at a success or at a non-rotating failure |
| GeminiService.RetryRotateStep | services/geminiService.ts:45-50 | one failure that rotates moves the call on to the next key, remembering that failure |
| GeminiService.RetrySkipsRotatable | services/geminiService.ts:45-50 | attempts that fail rotatably are passed over, keeping only the last failure text |
| GeminiService.RetrySucceedsAt | services/geminiService.ts:41-42 | after `k` rotating failures, a success on the next key is returned after exactly `k + 1` attempts |
| GeminiService.RetryStopsAtTerminal | services/geminiService.ts:53-54 | a non-rotating failure ends the call at once with `handleGeminiError` of that failure |
| GeminiService.RetryExhausted | services/geminiService.ts:58-59 | when every key fails rotatably, each key is tried once and the last failure is reported |
| GeminiService.RetryEmptyPool | services/geminiService.ts:36-59 | an empty pool makes no attempt, and the message is the generic one built from "undefined" |
| GeminiService.RetryAllSuspended | services/geminiService.ts:58-69 | when every key fails with a suspension notice (and no billing or overload marker), the user is told that all keys are locked |
| GeminiService.TriedIndicesDistinct | services/geminiService.ts:29-30 | within one call no pool position is used twice |
| GeminiService.KeyIndexStart | services/geminiService.ts:29 | the first attempt uses the key under the cursor |
| GeminiService.KeyIndexStep | services/geminiService.ts:30 | advancing the cursor after attempt `i` points it at the key of attempt `i + 1` |
| GeminiService.FullRotationReturnsToStart | services/geminiService.ts:30 | after N attempts the cursor is back where the call found it |
| GeminiService.IsRotatableMeaning | services/geminiService.ts:45-48 | a failure rotates exactly when its lower-cased text contains "permission denied", "suspended", "resource_exhausted", "429" or "403" at some position |
| GeminiService.ErrorText | services/geminiService.ts:59 | `String(lastError)` is the last failure's text when one was seen; it is "undefined" exactly when none was seen or that text is itself "undefined" |
| GeminiService.RetryAll | services/geminiService.ts:39-59 | one whole call makes at most one attempt per key, and at least one when the pool is not empty |
| GeminiService.HandleGeminiError | services/geminiService.ts:63-72 | the message is one of the three fixed messages or the generic message with the context and the lower-cased failure text |
| GeminiService.HandleGeminiErrorPriority | services/geminiService.ts:65-71 | each message is produced exactly when its marker is present and every earlier marker is absent, in the order billing, overload, suspension, generic |
| GeminiService.TerminalFailureNeverReportsAllLocked | services/geminiService.ts:48-54 | a failure that does not rotate never yields the "all keys locked" message |
| GeminiService.StoryAttempt | services/geminiService.ts:78-103 | for every key, a failure of the request is passed on unchanged, and a success is `slice(0, count)` of the answer |
| GeminiService.SliceFromZero | services/geminiService.ts:103 | `slice(0, count)` is a prefix of the answer whose length is `min(count, length)`; a negative count counts back from the end |
| GeminiService.KeyPool.GenerateStoryIdeas | services/geminiService.ts:77-105 | the call retries the story request over the pool; a success is `slice(0, count)` of the answer some pooled key got, so it holds at most `count` ideas; the cursor ends one place past each attempt made |
| GeminiService.KeyPool.GenerateCharacterDetails | services/geminiService.ts:107-131 | the call retries the character request built from the story's title and summary; the cursor ends one place past each attempt made |
| GeminiService.KeyPool.GenerateScript | services/geminiService.ts:146-189 | the call retries the script request built from the story, the roster and the duration; the cursor ends one place past each attempt made |
| GeminiService.ExpectedScenes | services/geminiService.ts:150 | the scene count is the least `n` with `duration <= 8n` |
| GeminiService.ExpectedScenesExamples | services/geminiService.ts:150 | 150 seconds need 19 scenes, 8 seconds one, 0 seconds none |
| GeminiService.CharacterLines | services/geminiService.ts:149 | one line `- name: prompt` per character, in roster order |
| GeminiService.CharDesc | services/geminiService.ts:149 | the roster text is empty exactly when the roster is |
| GeminiService.CharDescAppend | services/geminiService.ts:149 | adding a character adds one line after a line break at the end of the roster text |
| GeminiService.ScriptRequestFor | services/geminiService.ts:149-150 | the script request carries the covering scene count and the roster text |
| Strings.LeadingWhitespace | App.tsx:98 | the count covers exactly the run of whitespace at the start of the text |
| Strings.TrimEnd | App.tsx:98 | the result is a prefix of the text that does not end in whitespace and is followed only by whitespace |
| Strings.Trim | App.tsx:98 | `trim` gives a text no longer than its input that neither starts nor ends with whitespace |
| Strings.TrimIdempotent | App.tsx:98 | trimming twice is trimming once |
| Strings.ToLower | services/geminiService.ts:45 | lower-casing keeps the length and lowers each ASCII capital |
| Strings.ContainsMeaning | services/geminiService.ts:48 | `Contains` models `includes`: it holds exactly when the needle occurs at some position |
| Strings.Join | services/geminiService.ts:149 | `join` of no parts is empty, of one part is that part, and otherwise starts with the first part |
| Strings.JoinAppend | services/geminiService.ts:149 | joining two non-empty lists puts one separator between their joins |
| App.ValidKeys | App.tsx:98 | validation keeps no more lines than it was given, each kept key longer than 10 characters |
| App.ValidKeysAreTrimmedLines | App.tsx:98 | every saved key is the trimmed form of an input line and is already trimmed |
| App.ValidKeysKeepsLongLines | App.tsx:98 | every input line longer than 10 characters once trimmed is saved |
| App.ValidKeysConcat | App.tsx:98 | validation keeps the input order |
| App.NumberStories | App.tsx:129 | the stories get ids 1..n in answer order, with title and summary copied |
| App.NumberCharacters | App.tsx:146-151 | the characters get ids 1..n in answer order, with name, description and prompt copied and no role |
| App.FindStory | App.tsx:138 | `find` returns a listed story with the requested id, and nothing exactly when no story has that id |
| App.FindStoryAt | App.tsx:138 | a story is found by its id when no earlier story shares it |
| App.FindNumberedStory | App.tsx:129-138 | after numbering, id `k` selects the `k`-th idea of the answer, and ids outside 1..n select nothing |
| App.UpdateCharacter | App.tsx:161-163 | the edit keeps the length, order, ids and roles; only the named field of the characters with a matching id takes the new value |
| App.UpdateCharacterIdempotent | App.tsx:162 | typing the same value twice leaves the list as typing it once |
| App.UpdateCharacterCommutes | App.tsx:162 | edits to different fields can be applied in either order |
| App.ErrorMessage | App.tsx:114 | an `Error` shows its own message; the "unknown error" text is shown exactly for a non-`Error` value or an `Error` carrying that very text |
| App.ApiErrorState | App.tsx:115-119 | after a reported failure loading is off, the dialog is open exactly when it was or the message is `MISSING_KEYS`, and nothing else changes |
| App.ServiceErrorsNeverMissingKeys | App.tsx:117-119 | no message the service builds equals `MISSING_KEYS` |
| App.Session.constructor | App.tsx:55-80 | the initial state: story step, not loading, dialog closed, no keys, empty lists, 3 stories, 2 characters, 150 seconds, narration style |
| App.Session.RestoreKeys | App.tsx:83-96 | a non-empty stored list becomes the session's and the service's keys; otherwise only the key dialog opens |
| App.Session.SaveKeys | App.tsx:97-104 | nothing changes when no line survives validation; otherwise the session and the service get exactly the valid keys and the dialog closes |
| App.Session.DeleteKeys | App.tsx:105-112 | once confirmed, the keys are cleared everywhere and the dialog opens; otherwise nothing changes |
| App.Session.HandleApiError | App.tsx:113-120 | shows the error's message, or the "unknown error" text for a non-`Error`; stops loading; opens the dialog exactly for `MISSING_KEYS` |
| App.Session.GenerateStories | App.tsx:123-134 | without keys the dialog opens and the service is not called; otherwise the answer is numbered or the failure reported, and loading ends |
| App.Session.ApplyStories | App.tsx:128-133 | a success stores the stories numbered 1..n; a failure goes through `handleApiError`; loading ends either way |
| App.Session.SelectStory | App.tsx:245 | choosing a story records its id and changes nothing else |
| App.Session.CreateCharacters | App.tsx:136-158 | without keys the dialog opens; without a chosen story nothing changes; otherwise the numbered characters are stored and the wizard moves to the character step, or the failure is reported |
| App.Session.ApplyCharacters | App.tsx:143-157 | a success stores the numbered characters and moves to the character step; a failure goes through `handleApiError`; loading ends either way |
| App.Session.CharacterChange | App.tsx:161-163 | only the character list changes, by the single-field edit |
| App.Session.GenerateScript | App.tsx:165-180 | without keys the dialog opens; without a chosen story nothing changes; otherwise the script is stored and shown, or the failure is reported |
| App.Session.ApplyScript | App.tsx:173-179 | a success stores the script and moves to the script step; a failure goes through `handleApiError`; loading ends either way |
| App.Session.ResetApp | App.tsx:190-196 | back to the story step with no stories, no selection, no characters and no script; everything else is kept |
| CharacterCard.LinkAtMeaning | components/CharacterCard.tsx:27 | an occurrence of the pattern is the text `[`, a first capture without line breaks, `](`, a second capture without line breaks, `)` |
| CharacterCard.CloseFrom | components/CharacterCard.tsx:27 | the lazy second capture ends at the first `)` provided no line break comes before it, and there is no close otherwise |
| CharacterCard.MatchFrom | components/CharacterCard.tsx:27 | a match for a fixed `[` closes within the message after the first capture |
| CharacterCard.MatchFromFirst | components/CharacterCard.tsx:27-28 | for a fixed `[`, the match found is a real occurrence and no occurrence comes before it; none is found only when there is none |
| CharacterCard.FindLink | components/CharacterCard.tsx:28 | a match lies inside the message with its parts in order |
| CharacterCard.FindLinkFirst | components/CharacterCard.tsx:27-28 | the search returns the first occurrence in the engine's order, and nothing exactly when there is none |
| CharacterCard.FindLinkIsFirst | components/CharacterCard.tsx:28 | the first occurrence is the one the search reports |
| CharacterCard.RenderError | components/CharacterCard.tsx:24-41 | nothing is shown exactly when the error is absent or empty |
| CharacterCard.RenderErrorPlain | components/CharacterCard.tsx:28-40 | a non-empty message is shown unchanged exactly when it holds no link |
| CharacterCard.RenderErrorLinked | components/CharacterCard.tsx:30-33 | a message with a link shows the first occurrence's captures and the rest of the message, trimmed |
| CharacterCard.LinkedPartsShape | components/CharacterCard.tsx:27-33 | neither capture holds a line break, and the URL holds no `)` |
| CharacterCard.TwoLinksFirstMatch | components/CharacterCard.tsx:27-28 | in `[a](b) [c](d)` the search stops at the first link |
| CharacterCard.TwoLinksRestTrimmed | components/CharacterCard.tsx:31 | trimming drops the space the cut leaves before the second link |
| CharacterCard.RenderErrorFirstLinkOnly | components/CharacterCard.tsx:31 | only the first link is cut out; a later one stays in the text |

## Left out

- `generateCharacterImage` is a wrapper over the image API with no logic of its own, so it is not modelled.
- The remote SDK, the request text and JSON schemas, and `JSON.parse` of the answers are not modelled. Each per-key request is a function parameter, and its parsed answer is a value.
- Console logging, `alert`, `window.confirm`, `setTimeout` and `localStorage` appear only through their effect on the session. The confirmation is a parameter, the stored list is an `Option`, and the delay before the dialog opens is dropped.
- The calls are modelled as sequential steps. The handlers' `await` and any interleaving of two handlers are not modelled.
- All rendering is left out: JSX, icons, the key dialog's markup, `components/Loader.tsx` and the card's other buttons.
- The download and export functions are not modelled, because their bodies are elided in the source.
- Strings.ToLower: lowers ASCII letters only, not the full Unicode mapping of `toLowerCase`. The rotation markers are ASCII, so the result differs only for failure texts that mention non-ASCII capitals.
- Strings.Trim: the contract says only that the result is no longer than the input and neither starts nor ends with whitespace. That the result is the input with both whitespace runs cut off is stated by the contracts of `LeadingWhitespace` and `TrimEnd`, which `Trim` composes.
- GeminiService.ExpectedScenes: integer durations only. A non-numeric duration (NaN in the source) is not modelled.
- GeminiService.SliceFromZero: integer counts only. The story count comes from `parseInt` of a form field and is NaN when the field is empty; `slice(0, NaN)` then returns no stories. The same holds for GeminiService.KeyPool.GenerateStoryIdeas, whose count is an `int`.
- GeminiService.AvailableApiKeys: lengths count Unicode code points, not the UTF-16 code units JavaScript's `length` counts. A key holding characters outside the Basic Multilingual Plane can pass the `length > 10` test in the source and fail it here. Lone surrogates cannot be represented at all, here or anywhere else in the model.
- App.ValidKeys: the same code-point counting applies to the dialog's `length > 10` test.
- The service's `setApiKeys`, `hasApiKeys` and `clearApiKeys` are not part of the service source, so they are not modelled. The session keeps the list it hands over as `serviceKeys` and reads `hasApiKeys()` as "that list is not empty". The service's key pool is built by `KeyPool`'s constructor, so the model does not say what a new key list does to the cursor.
- The session passes five arguments to `generateScript`, while the service declares four and ignores the script style. The session's service parameter takes five arguments; the service's `GenerateScript` takes four.
- The character answer's schema asks for name and prompt only, while the session also copies a description. `CharacterDraft` carries a description, whatever the remote side returns for it.
- The script schema's `narration` field differs from the record's `dialogues`. The parsed script is taken as a `Script` value, and the mismatch is not modelled.
- The visual style passed to `generateCharacterDetails` is not used by the service, so it is not part of `CharacterRequest`.
- The form-input setters (idea, style, language, counts, duration) only assign one field each, so they are not modelled as methods.
