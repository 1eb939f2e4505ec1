# Usage governance of the Jefree meal planner, in Dafny

Jefree is a browser app that uses a language model to plan weekly menus, shopping lists and cost
estimates. It exports the results as a PDF and has a contact form. This project models the
parts of the app that govern usage, together with the code paths they guard. Each part's
properties are proved.

- **Admission counter** (`rateLimiter.consume`). It uses a fixed window: at most 50 chat
  requests per user per 3600 seconds. A window opens at a user's first admitted call, and a
  rejected call changes nothing.
- **Token meter** (`tokenUsageStore`). It keeps a lifetime token total that is never reset,
  and a daily figure that restarts at the next local midnight. The write path
  (`incrementTokens`) and the read path (`getTokenUsage`) roll the day over the same way.
- **PDF download quota** (`pdfLimiter`). Free users get three downloads per local day. The
  rollover that `checkLimit` performs is written back to the stored record. The Dashboard's
  export handler checks the quota first, generates the document, and counts the download
  only after that succeeds.
- **Chat turn** (`handleUserMessage`) and its three wrappers. One turn does the following, in
  order:
  1. It consumes an admission slot, and that slot is never refunded.
  2. It builds the request: the system message (with the preference block when preferences
     are given), the five most recent stored messages, and the new user message.
  3. It calls the model.
  4. Only when the reply is non-empty, it stores the exchange (keeping the last ten messages)
     and records the tokens.

  Errors reach the user in two forms: the upstream 429 error and the generic error.
- **PDF builder** (`generatePDF`). It draws a title block, then the menu and shopping-list
  sections line by line with a vertical cursor. It breaks the page when the cursor passes
  270 (250 for the list heading), adds an optional cost line taken from the estimate with
  `/\d+([.,]\d{1,2})?/`, and finally puts a "Página i de n" footer on every page.
- **Contact form** (`sendContactEmail`). It checks the fields with `trim()`, checks the
  address with `/^[^\s@]+@[^\s@]+\.[^\s@]+$/`, sends a mail to support and then a
  confirmation, and maps every outcome to a result record.

## How it is modelled

- **Modules and files.** Each source module is a Dafny module:
  - `RateLimiter` in `rate_limiter.dfy`
  - `Chat` in `chat.dfy`
  - `Pdf` in `pdf.dfy`
  - `Email` in `email.dfy`
  - `ExportFlow` in `export_flow.dfy`, for the Dashboard handler

  Shared helpers are `Wrappers` (Option, `Map.get`), `Clock` (the next local midnight) and
  `JsString` (JavaScript white space, `trim`, decimal rendering).
- **Stateful parts are classes.**
  - Each of `rateLimiter.ts`'s three module-level maps is a class with one `map` field.
  - The conversation cache is `Chat.ChatSession`.
  - The jsPDF document is `Pdf.PdfDocument` (page count, current page, log of drawn texts).

  Their methods are proved to produce exactly the new state that a pure function of the old
  state describes, for example `ConsumeWindow`, `RecordTokens`, `ChatTurn` or `Document`.
  The lemmas are proved about those functions.
- **Loops stay loops.** The PDF builder's loops are `for` loops over the document. They are
  proved against the pure `PlaceLines` and `Footers`.
- **Inputs instead of effects.** Time is an integer number of milliseconds passed in.
  - A chat turn reads the clock twice: `consume` at `now`, then `incrementTokens`, after the
    awaited model call, at `later`.
  - An export also reads it twice: `checkLimit` at `now`, then `incrementDownloads`, after
    the awaited generation, at `later`.

  The model call, `splitTextToSize`, the cost formatting (`parseFloat` and `toFixed(2)`) and
  the outcomes of the two mail sends are all parameters.
- **Contracts in lemmas.** Some members' facts are stated in lemmas rather than in their own
  `ensures`.
  - `Chat.ChatTurn`, `Pdf.FooterText` and `Email.MatchesEmailPattern` carry no `ensures` at
    all.
  - `Chat.TurnRequest` and `JsString.Trim` state only bounds and end characters.

  The lemmas that state what these members do:
  - `Chat.TurnConsumesSlot`, `Chat.RejectedTurn`, `Chat.AdmittedTurn` and
    `Chat.FailedCallReachesUser` for the turn;
  - `Chat.AdmittedTurn` for the request's contents;
  - `Pdf.FooterTextNamesPages` for the footer;
  - `Email.EmailPatternIffShape` for the pattern;
  - `JsString.TrimRemovesOnlyEnds` for the trimmed text.

## Model

| member | source | states |
|---|---|---|
| RateLimiter.ConsumeWindow | src/lib/rateLimiter.ts:12-29 | With no window or an expired one, a new window with count 1 and end `now + 3600000` is admitted. The call is rejected exactly when a live window already holds 50 or more. Otherwise the count grows by one and the window's end does not move. A valid window stays valid. |
| RateLimiter.AfterConsume | src/lib/rateLimiter.ts:14-28 | A rejection leaves the map unchanged. An admission stores the new window under the caller. Every other user's entry is unchanged. |
| RateLimiter.AdmissionCounter.Consume | src/lib/rateLimiter.ts:11-29 | The new map is `AfterConsume` of the old one. The result resolves exactly when `ConsumeWindow` admits, and otherwise rejects with `rate_limit_exceeded` and no status. The count bound is preserved. |
| RateLimiter.SameInstantConsume | src/lib/rateLimiter.ts:16-28 | At the instant a window opened, the (c+1)-th call is admitted and raises the count to c+1, for any c < 50. |
| RateLimiter.AdmissionsInsideWindow | src/lib/rateLimiter.ts:24-28 | Inside a live window holding c calls, the i-th further call is admitted if and only if c + i < 50. |
| RateLimiter.ExactlyPointsPerWindow | src/lib/rateLimiter.ts:6-29 | For a user with no live window, of the calls made within one hour of the first, call i is admitted if and only if i < 50. |
| RateLimiter.BurstAcrossWindowBoundary | src/lib/rateLimiter.ts:16-28 | A fixed window lets through 99 calls within two milliseconds when they straddle the window's end: the 49 that remain, then 50 more. |
| RateLimiter.AdmissionsConcat | src/lib/rateLimiter.ts:12-29 | The verdicts of two runs of calls are the first run's verdicts, then the second run's verdicts from the window the first run leaves. |
| RateLimiter.RecordTokens | src/lib/rateLimiter.ts:33-53 | The total always grows by `tokens`. Before the stored midnight, the daily figure grows by `tokens` and the midnight does not move. From the stored midnight on, or for an unknown user, the daily figure becomes `tokens` and the next midnight is stored. The daily figure never exceeds the total. |
| RateLimiter.TokenMeter.IncrementTokens | src/lib/rateLimiter.ts:33-53 | Exactly the caller's record is replaced, by `RecordTokens` of the old one. |
| RateLimiter.ReadTokens | src/lib/rateLimiter.ts:55-75 | The total is never changed. From the stored midnight on, or for an unknown user, the daily figure is 0 and the next midnight is stored. Otherwise the record is returned as it is. |
| RateLimiter.TokenMeter.GetTokenUsage | src/lib/rateLimiter.ts:55-75 | It returns the total and daily figures of `ReadTokens`. It writes the record exactly when the read rolls the day over, which includes creating a record for an unknown user. |
| RateLimiter.ReadSeesRecordedTokens | src/lib/rateLimiter.ts:33-75 | Tokens that were recorded are visible, unchanged, to any read before the stored midnight. |
| RateLimiter.ReadThenIncrement | src/lib/rateLimiter.ts:33-75 | A read never changes what a later write stores: both paths roll the day over the same way. |
| RateLimiter.ReadIsIdempotent | src/lib/rateLimiter.ts:55-75 | A second read, at the same time or later, leaves what one read would leave. |
| RateLimiter.ReplayTotal | src/lib/rateLimiter.ts:33-75 | Over any run of reads and writes across any number of days, the total grows by exactly the recorded tokens, and the daily figure stays at most the total. |
| RateLimiter.DownloadAllowed | src/lib/rateLimiter.ts:79-95 | A user with no record, or whose stored midnight has passed, may download. Otherwise the user may download exactly while fewer than 3 downloads are counted. |
| RateLimiter.AfterCheckLimit | src/lib/rateLimiter.ts:84-92 | For an existing record whose midnight has passed, the record becomes count 0 with the next midnight. An unknown user gets no entry. Nothing else changes. |
| RateLimiter.DownloadQuota.CheckLimit | src/lib/rateLimiter.ts:79-95 | The answer is `DownloadAllowed`, and the map becomes `AfterCheckLimit`. |
| RateLimiter.CountDownload | src/lib/rateLimiter.ts:97-115 | The first download of a new day, or of an unknown user, counts 1 with the next midnight. Any other download adds one and keeps the midnight. |
| RateLimiter.DownloadQuota.IncrementDownloads | src/lib/rateLimiter.ts:97-115 | Exactly the caller's record is replaced, by `CountDownload` of the old one. |
| Clock.NextMidnight | src/lib/rateLimiter.ts:35-36 | `setHours(24, 0, 0, 0)` is strictly after `now`, at most a day away, and on a day boundary. |
| Clock.SameDay | src/lib/rateLimiter.ts:44 | Every instant before the next midnight has that same next midnight. |
| ExportFlow.AttemptExport | src/pages/Dashboard.tsx:190-216 | With neither a menu plan nor a list, the handler returns at once and changes nothing. A premium user's record is never touched, and a premium user is never refused. A refusal happens exactly for a free user over the quota. An export succeeds exactly when generation succeeds and the quota allows it. A free user's download is counted only after a successful generation, at the second clock reading, on the record `checkLimit` left. A refused or failed free export keeps that record. |
| ExportFlow.ExportToPdf | src/pages/Dashboard.tsx:190-216 | The handler, on the shared quota, returns the result of `AttemptExport` and stores its record. |
| ExportFlow.CheckedRecord | src/lib/rateLimiter.ts:84-92 | The rollover that `checkLimit` writes through keeps whether there is a record and does not change the verdict. An expired record becomes count 0 with the next midnight after `now`. A live record is kept as it is. |
| ExportFlow.FreeExportsWithinDay | src/pages/Dashboard.tsx:196-214 | Before the stored midnight, with c downloads counted, the i-th further free export succeeds if and only if c + i < 3. |
| ExportFlow.ThreeExportsPerDay | src/pages/Dashboard.tsx:196-214 | A free user without a live record, whose presses all read the clock before the next midnight, can export exactly three times. Later presses are refused. |
| ExportFlow.NewDayRestoresQuota | src/lib/rateLimiter.ts:89-112 | After the stored midnight, a user who had used up the quota exports again, and that export counts as the first of the new day. |
| JsString.TrimEmptyIffBlank | src/lib/email.ts:28 | `s.trim()` is empty exactly when `s` is all JavaScript white space. |
| JsString.Trim | src/lib/email.ts:28 | `s.trim()` is no longer than `s`, and it neither starts nor ends with white space. |
| JsString.TrimRemovesOnlyEnds | src/lib/email.ts:28 | `s.trim()` is a contiguous part of `s`, and what lies before it and after it in `s` is all white space. |
| JsString.NatToString | src/lib/pdf.ts:106 | The rendering of a number in a template literal is a non-empty string of decimal digits that denotes the number, with no leading zero unless the number is 0. |
| Chat.SystemMessageShowsPreferences | src/lib/openai.ts:103-114 | The system message has the role system and starts with the prompt. It carries the preference block exactly when preferences were passed, and is only the prompt when they were not. |
| Chat.SystemMessage | src/lib/openai.ts:103-114 | The system message has the role system. |
| Chat.PreferenceBlock | src/lib/openai.ts:107-111 | The preference block opens with its header, then the family line naming `familySize`. |
| Chat.BuildRequest | src/lib/openai.ts:117-121 | The request starts with the system message and ends with the user message. In between are the last min(5, history length) stored messages, in their order. |
| Chat.TakeLast | src/lib/openai.ts:119 | `s.slice(-n)` returns min(n, \|s\|) elements, and they are a suffix of `s`. |
| Chat.TakeLastOfTakeLast | src/lib/openai.ts:119-142 | The last five of the stored last ten are the last five of the whole history, so trimming to ten loses none of the context sent. |
| Chat.TakeLastAppend | src/lib/openai.ts:138-142 | Trimming after every append gives the same as one trim of the whole log: the stored history is always the last ten messages ever exchanged. |
| Chat.TurnRequest | src/lib/openai.ts:116-121 | The request a turn sends has between 2 and 7 messages. Its contents are stated by `Chat.AdmittedTurn`. |
| Chat.Remember | src/lib/openai.ts:138-142 | The new history ends with the user message and the reply. It is a suffix of the old history plus those two messages, and its length is min(10, old length + 2). |
| Chat.ReplyText | src/lib/openai.ts:134-135 | A reply is used exactly when the call completed and its content is present and non-empty. The text used is then that content. |
| Chat.ReportedTokens | src/lib/openai.ts:144 | `total_tokens \|\| 0` is a completion's reported count when there is one. A positive count only comes from a completion that reports it. |
| Chat.ReplyStatus | src/lib/openai.ts:134-150 | The status the `catch` sees is, for a failed call, exactly that call's own status. A completion whose content is empty raises the empty-reply error, which carries no status. |
| Chat.UserFacingError | src/lib/openai.ts:147-155 | The limit error is raised exactly when the caught error has status 429. Everything else becomes the generic error. |
| Chat.LocalRejectionIsGeneric | src/lib/openai.ts:97 | The local limiter's rejection carries no status, so it reaches the user as the generic error, not the 429 one. |
| Chat.Respond | src/lib/openai.ts:134-146 | Handling the reply never touches the admission map. |
| Chat.TurnConsumesSlot | src/lib/openai.ts:96-97 | Every turn leaves the admission map as `consume` left it, because the slot is never refunded. The model is called exactly when the slot was granted. |
| Chat.RejectedTurn | src/lib/openai.ts:96-97 | A rejected admission changes nothing, sends no request and fails with the generic error. |
| Chat.AdmittedTurn | src/lib/openai.ts:97-146 | An admitted turn sends one request. It starts with the system message and ends with the user message, and between them are the last min(5, \|h\|) messages of the stored history h, in their order. The turn is answered exactly when the model's reply to that request has non-empty text, and a failure carries the error its status selects. The admission map is as `consume` left it, and a failed turn leaves the tokens and histories unchanged. |
| Chat.UnansweredReply | src/lib/openai.ts:134-135 | A failed call or an empty reply leaves the history and the tokens unchanged, and the error is classified by its status. |
| Chat.FailedCallReachesUser | src/lib/openai.ts:123-154 | When an admitted turn's model call fails, the user gets the limit error exactly when the upstream status is 429, and the generic error otherwise. Only the consumed slot is kept. |
| Chat.AnsweredReply | src/lib/openai.ts:138-146 | A non-empty reply is returned as it is. The user's history then ends with the user message and the reply, is a suffix of the old history followed by those two, and holds min(10, old length + 2) messages. No other user's history changes. |
| Chat.AnsweredTokens | src/lib/openai.ts:144 | An answer records the reported tokens at the second clock reading. The lifetime total grows by exactly that many, and so does today's figure before the stored midnight. No other user's record changes, and neither does the admission map. |
| Chat.ResponseIsPartitioned | src/lib/openai.ts:138-144 | Handling the reply leaves every other user's history and tokens unchanged. |
| Chat.TurnIsPartitioned | src/lib/openai.ts:96-146 | A turn leaves every other user's admission window, token record and history unchanged. |
| Chat.EmptyReplyTurn | src/lib/openai.ts:134-135 | When every reply is empty, an admitted turn only consumes the slot. |
| Chat.ZeroTokenAnswer | src/lib/openai.ts:138-144 | When there is room for the exchange, it is appended as it is, and a reply that reports no tokens keeps today's figure at 0. |
| Chat.ExchangeAppended | src/lib/openai.ts:138-142 | Appending one exchange keeps the history alternating between user messages, in order, and replies. |
| Chat.TurnKeepsHistoriesBounded | src/lib/openai.ts:138-142 | No turn lets a stored history grow past ten messages. |
| Chat.EmptyRepliesStoreNothing | src/lib/openai.ts:96-135 | Up to 50 messages by a user with no window, sent at one instant, whose replies are all empty: all are admitted and counted, nothing is stored and no tokens are recorded. |
| Chat.AnsweredTurnsOfNewUser | src/lib/openai.ts:96-146 | Up to five answered messages by a new user at one instant, reporting no tokens: all are admitted, the history holds each message followed by its reply in order, and today's figure stays 0. |
| Chat.ChatSession.HandleUserMessage | src/lib/openai.ts:86-156 | The result and the three maps after the call are those of `ChatTurn` on the maps before it, with `consume` at `now` and `incrementTokens` at `later`. |
| Chat.ChatSession.StoreExchange | src/lib/openai.ts:138-144 | The user's history becomes `Remember` of the old one, and the token record becomes `RecordTokens` of the old one. The admission map is unchanged. |
| Chat.ChatSession.GenerateMenuPlan | src/lib/openai.ts:160-177 | It is one `ChatTurn` with the menu request, and it is the only wrapper that passes the preferences. |
| Chat.ChatSession.GenerateShoppingList | src/lib/openai.ts:179-193 | It is one `ChatTurn` with the shopping-list request and no preferences. |
| Chat.ChatSession.EstimateShoppingCost | src/lib/openai.ts:195-209 | It is one `ChatTurn` with the cost request and no preferences. |
| Chat.MenuPlanRequest | src/lib/openai.ts:162-173 | The menu request opens by naming the number of days. |
| Chat.ShoppingListRequest | src/lib/openai.ts:181-190 | The shopping-list request carries the menu plan right after its opening line. |
| Chat.CostRequest | src/lib/openai.ts:197-206 | The cost request carries the shopping list right after its opening line. |
| Pdf.PlaceLinesBounds | src/lib/pdf.ts:49-56 | The loop draws each line, in order, as a body text at x 20 and at a y between 20 and 270, on a page from the start page to the end page. |
| Pdf.PlaceLinesAdvance | src/lib/pdf.ts:49-56 | The first line goes where the break check puts the start cursor. Each later line is 5 below the one before, or at 20 on the next page when that would pass 270. The cursor ends 5 below the last line. |
| Pdf.PlaceLinesConfined | src/lib/pdf.ts:49-56 | The loop stays between the start page and the end page and leaves no page it opened blank. |
| Pdf.PlaceLinesTexts | src/lib/pdf.ts:49-56 | The loop draws only body lines, and their text is exactly the lines. |
| Pdf.PlaceLines | src/lib/pdf.ts:49-56 | The loop draws one text per line and never goes back a page. |
| Pdf.NextDigit | src/lib/pdf.ts:91 | It finds the first digit at or after `i`, or the end of the string. |
| Pdf.DigitsEnd | src/lib/pdf.ts:91 | It finds the end of the run of digits that starts at `i`. |
| Pdf.CostMatchFound | src/lib/pdf.ts:91-92 | The pattern matches exactly the estimates that contain a digit. |
| Pdf.CostMatchIsAmount | src/lib/pdf.ts:91 | The match is a run of digits, optionally followed by '.' or ',' and one or two digits, and it is the text of the estimate from its first digit on. The match is greedy: it takes the whole run of digits, takes the separator exactly when a digit follows it, and takes two fraction digits when two follow. |
| Pdf.CostMatch | src/lib/pdf.ts:91 | A match is non-empty and starts with a digit. |
| Pdf.CostTexts | src/lib/pdf.ts:87-96 | The cost line is drawn exactly when the estimate is truthy and yields a match. It is not a body line. |
| Pdf.CostOps | src/lib/pdf.ts:87-96 | The cost block draws at most one text: a cost line on the current page. |
| Pdf.MenuSectionPlaced | src/lib/pdf.ts:39-59 | The menu section stays within its pages and keeps every line within the margins. |
| Pdf.MenuSectionTexts | src/lib/pdf.ts:39-59 | A truthy menu plan draws one menu heading and exactly its lines as body text. Otherwise it draws nothing. |
| Pdf.MenuSection | src/lib/pdf.ts:39-59 | A truthy menu plan draws its heading and one text per line. The section never goes back a page. |
| Pdf.ListSectionPlaced | src/lib/pdf.ts:62-97 | The list section stays within its pages, puts the list heading at a y of at most 250, and keeps every line within the margins. |
| Pdf.ListSectionMarks | src/lib/pdf.ts:62-97 | A truthy list draws a list heading, then a cost line exactly when `CostShown`. |
| Pdf.ListSectionBodyTexts | src/lib/pdf.ts:62-84 | The list section's body text is exactly the list's lines. |
| Pdf.ListSection | src/lib/pdf.ts:62-97 | The shopping-list section never goes back a page. |
| Pdf.HeaderTexts | src/lib/pdf.ts:28-34 | The title block is a title and two information lines, with no body text. |
| Pdf.HeaderOps | src/lib/pdf.ts:28-34 | The title block is three texts on page 1, none of them a body line. |
| Pdf.LayoutPlaced | src/lib/pdf.ts:12-97 | The document has at least one page. The pages drawn on are exactly pages 1 to the page count, so none is blank. Every body line and list heading keeps to its margins. |
| Pdf.LayoutMarks | src/lib/pdf.ts:23-97 | The texts other than body lines are, in order: the title block, the menu heading when the plan is truthy, the list heading when the list is truthy, and the cost line when `CostShown`. There are no footers yet. |
| Pdf.LayoutBodyTexts | src/lib/pdf.ts:39-97 | The body text is the menu's lines followed by the list's lines. |
| Pdf.Layout | src/lib/pdf.ts:12-97 | The document has at least one page before the footer loop. |
| Pdf.FooterTextNamesPages | src/lib/pdf.ts:105-106 | A footer reads "Página ", then digits denoting the page, then " de ", then digits denoting the page count. |
| Pdf.Footers | src/lib/pdf.ts:100-111 | The footer loop up to page i draws i texts. |
| Pdf.FootersAt | src/lib/pdf.ts:100-111 | The footer loop draws, for each page q in order, "Página q de n" on page q at (105, 290). |
| Pdf.DocumentFooters | src/lib/pdf.ts:12-114 | The document is the layout's texts followed by exactly one footer per page, in page order, and no other text is a footer. |
| Pdf.DrawLines | src/lib/pdf.ts:49-56 | The loop on the document draws exactly what `PlaceLines` places and leaves the cursor where `PlaceLines` ends. |
| Pdf.DrawHeader | src/lib/pdf.ts:24-34 | It draws exactly the title block on page 1. |
| Pdf.DrawMenu | src/lib/pdf.ts:39-59 | It draws exactly `MenuSection` from the cursor, and the cursor ends where that section ends. |
| Pdf.DrawListHeading | src/lib/pdf.ts:63-71 | It breaks the page when `y > 250`, draws the list heading, and advances the cursor by 10. |
| Pdf.DrawList | src/lib/pdf.ts:62-97 | It draws exactly `ListSection` from the cursor, and the cursor ends where that section ends. |
| Pdf.DrawCost | src/lib/pdf.ts:86-96 | It draws exactly `CostOps`. The cursor moves by 10 exactly when the estimate is truthy, even when nothing matches. |
| Pdf.DrawFooters | src/lib/pdf.ts:99-111 | It appends exactly one footer per page, in page order, and adds no page. |
| Pdf.GeneratePdf | src/lib/pdf.ts:12-114 | The new document has the layout's page count, and its texts are exactly `Document`: the layout followed by the footers. |
| Email.EmailPatternIffShape | src/lib/email.ts:33-34 | The address pattern accepts exactly the strings that have no white space, exactly one '@' (not first), and a later '.' that is neither right after the '@' nor last. |
| Email.SurroundingWhiteSpaceRejected | src/lib/email.ts:33-36 | An address that starts or ends with white space never matches. |
| Email.PaddedAddressFailsFormatOnly | src/lib/email.ts:28-36 | A valid address with a leading space passes the emptiness check (which trims) but fails the format check (which does not). |
| Email.Failure | src/lib/email.ts:86-92 | A caught error becomes an unsuccessful result with no id, carrying the error's message, or "Error al enviar el mensaje" when that message is empty. |
| Email.TrimmedFieldsPresent | src/lib/email.ts:28-29 | The `trim()` check rejects the form exactly when some field is all white space. |
| Email.SendContactEmail | src/lib/email.ts:21-93 | Nothing is sent unless both checks pass, and each check fails with its own message. The support mail comes first. Both mails go out exactly when the first was delivered. A refused support mail fails with its fixed message, and a support or confirmation send that throws fails with the thrown message. The result is a success exactly when the support mail was delivered and the confirmation did not throw, and then it carries the support mail's id. A refused confirmation is ignored. Every failure has a non-empty message. |

## Left out

- `src/lib/redis.ts` is not part of this model. It is an alternative Redis-backed limiter and token store that nothing imports.
- `src/lib/supabase.ts` (the backend-service calls) is not part of this model.
- The OpenAI and Resend HTTP clients are not modelled. Their answers are parameters (`model`, `SendOutcome`), and the request options (model name, temperature and so on) are left out.
- `SYSTEM_PROMPT` and the wrappers' fixed instruction lines are shortened to their first line. The parts taken from the arguments are as in the source.
- `Chat.MenuPlanRequest` and `Chat.PreferenceBlock` render `menuDays` and `familySize` as natural numbers. An absent or non-numeric value, which the template would render as `undefined`, is not modelled.
- `splitTextToSize` (text wrapping at 170 mm) is the parameter `split`.
- The rendering of the matched amount (`parseFloat` after replacing ',' and `toFixed(2)`) is the parameter `formatAmount`, because floating point is not modelled.
- `new Date().toLocaleDateString('es-ES')` is the parameter `date`.
- Fill colours, text colours, font sizes, the header rectangle and the footer's `align: 'center'` are not modelled. Only the kind, page, text and position of each drawn text are kept.
- `generatePDFFromHTML` (html2canvas) is not modelled.
- `generatePDF`'s `userId` argument is unused in the source, and `Pdf.GeneratePdf` drops it. The `isPremium` option is kept in `PdfOptions` and, as in the source, not used.
- The export handler's `!user` guard (src/pages/Dashboard.tsx:190) is not modelled, because the handler is modelled for a signed-in user. The guard's other half, no menu plan and no list, is `NothingToExport`.
- Local time zones and daylight saving are not modelled. `Clock.NextMidnight` takes the local zone to be UTC.
- The HTML bodies of the two mails are not modelled, and neither is their `from` header.
- `console.error` logging is not modelled.
- Concurrency is not modelled. The source's async functions interleave at each `await`, and the model runs each call to completion.
- The React UI is left out, apart from the export handler's calls into `pdfLimiter` and `generatePDF`.
- Chat.ChatSession.Valid: it keeps the limiter's and meter's invariants but does not carry the ten-message bound on histories. That bound is proved about the pure turn instead, in `Chat.TurnKeepsHistoriesBounded`.
- Chat.EmptyRepliesStoreNothing: it is stated for messages sent at one instant, with both clock readings of every turn at that instant. `RateLimiter.ExactlyPointsPerWindow` covers calls spread over the window.
- Chat.AnsweredTurnsOfNewUser: it is stated for messages sent at one instant, with both clock readings of every turn at that instant, and for replies that report no tokens.

An empty reply throws before the history is updated (src/lib/openai.ts:134-135), so a run of
empty replies stores nothing. `Chat.EmptyRepliesStoreNothing` proves it.
