# DoMyThingWorker browser core in Dafny

This project models the browser-driving core of DoMyThingWorker, a worker that
looks up visa appointments on the VFS Global portal. It drives a Chromium tab
through PuppeteerSharp. The model covers two files.

`Extensions/PuppetterExtensions.cs` provides:
- the polling waits `QuerySelectorWhenAppearAsync` and `WaitWhenDisAppearAsync`;
- the anti-captcha bridge:
  - `CheckError`;
  - the handlers that `UseAntiCaptchaAsync` attaches;
  - the head injection of `StartCaptchaSolvingProcess`;
  - the wait policy of `SolveCaptchaAsync`;
- `IdToSelector`;
- the browserless.io endpoint that `CreatePuppeteer` builds;
- the null and trim rules of the element-text helpers;
- the fallback of `ClickByElementEvenIfInvisible`.

`Processors/FindVFSAppointmentSlotProcessor.cs` provides:
- the search URL, the movie-name encoding and `GetTimeoutOption`;
- attribute extraction from the `bt-dwl-bt` button;
- the login sequence;
- the choice between a local browser and browserless.io, and its key check;
- `ProcessAsync`;
- the `.srt` selection and stream copy of `DownloadSubtitle`.

The browser is replaced by inputs and by a `Page` object (`BrowserPage.Page`):
- The successive results of `QuerySelectorAsync` are a sequence of `QueryOutcome`s.
- The document `<head>` and `<body>` are sequences of `Node`s.
- The tab's event handlers are a sequence of channels.
- The page calls of `Login`, `ProcessAsync`, `StartCaptchaSolvingProcess`, `UseAntiCaptchaAsync`, `SolveCaptchaAsync` and `ClickByElementEvenIfInvisible` are appended to a `trace` of `Action`s. These are navigation, the native selector wait, `WaitForTimeoutAsync` pauses, typing, clicks, script evaluation and disposal.
- The two poll loops are not traced. Their `QuerySelectorAsync` calls are counted, and their 500 ms `WaitForTimeoutAsync` pauses are summed in milliseconds.

What the browser would answer in a particular case is passed in as a parameter. Examples are the outcome of `WaitForSelectorAsync`, the exception `ClickAsync` throws, the JSON value of a property, and the parsed document.

Modules:
- `Base`: null as `Option`, thrown exceptions as `Result`, `int32`, truncating division.
- `Text`: ordinal `Contains`, `EndsWith`, `Split`, `Join`, `Replace` and `Trim` with `Char.IsWhiteSpace`.
- `BrowserPage`: the page.
- `WaitPrimitives`: the polling waits.
- `CaptchaBridge`: the anti-captcha bridge.
- `Browserless`: the endpoint.
- `Selectors`: the selector and element helpers.
- `Workflow`: the processor.

Behaviour of the code that its names or call sites do not suggest:
- **Login wait.** `GetTimeoutOption(10)` reads as a 10 s bound, but it yields a timeout of 0. It builds the timeout from `TimeSpan.Microseconds`, the microsecond component, which is 0 for whole seconds. PuppeteerSharp reads a timeout of 0 as no time limit, so Login's wait for the user-name field is unbounded (`Workflow.GetTimeoutOption`, `Workflow.LoginSteps`).
- **Solve completion.** `SolveCaptchaAsync` does not use the 500 ms poll loop. It calls the native `WaitForSelectorAsync` with `timeoutInMinutes × 60000` ms, so the outcome of that wait is a parameter (`CaptchaBridge.SolveCaptcha`).
- **Handler registration.** `UseAntiCaptchaAsync` has no guard against a second call. Every call adds the three handlers again. After n calls, an event that no handler throws for gets n reactions; for example, "Solving is in process" starts the callback n times. The handlers of one event form a C# multicast delegate, so the first handler that throws ends the invocation. An event that `CheckError` rejects therefore reaches only the first handler (`CaptchaBridge.RepeatedAttachRepeatsReaction`, `CaptchaBridge.TwoCallsStopAtFirstThrow`).
- **Poll count.** `QuerySelectorWhenAppearAsync` with a budget of T ms issues `T/500 + 1` queries (integer division). So a budget that is a multiple of 500 gets one query more than T/500 (`WaitPrimitives.TicksOfNonNegative`). If T is within 500 of `int.MinValue`, the unchecked `timeout -= 500` wraps: the counter becomes a large positive number and the wait goes on for about 24.9 days (`WaitPrimitives.TicksAtMinimum`).
- **Plugin wiring.** In development mode a `RecaptchaPlugin` is stored in a field, but it is not passed to `CreateLocalPuppeteerAsync`. The field is only read by the unused `ResolveCloudFlare`.
- **Missing-key exception.** For a remote instance the missing-key check throws `new ArgumentNullException(text)`. Its one-argument constructor takes a parameter name, so the text appears in the Message as `Value cannot be null. (Parameter '…')` (`Workflow.Provision`).

## Model

| member | source | states |
|---|---|---|
| `CaptchaBridge.CheckError` | Extensions/PuppetterExtensions.cs:382-388 | throws exactly when the text is non-null and holds one of the two phrases; the exception is the "already rendered" message whenever that phrase is present, otherwise the "no idle workers" message |
| `CaptchaBridge.RenderedTakesPriority` | Extensions/PuppetterExtensions.cs:384-387 | a text with both phrases, in either order, fails as "already rendered" |
| `CaptchaBridge.NoIdleWorkersAlone` | Extensions/PuppetterExtensions.cs:386-387 | the bare "no idle workers" phrase fails with the no-idle-workers message |
| `CaptchaBridge.RenderedMessageIsStable` | Extensions/PuppetterExtensions.cs:18-20 | scenario: the "already rendered" message CheckError throws is itself classified as "already rendered" |
| `CaptchaBridge.Dispatch` | Extensions/PuppetterExtensions.cs:129-147 | the callback starts exactly for a non-error console message saying solving is in process; the reaction is fatal exactly for page errors, page crashes and error-level console messages that CheckError rejects, and the exception is CheckError's |
| `CaptchaBridge.LogLevelNeverFatal` | Extensions/PuppetterExtensions.cs:139-146 | a console message below Error level is never fatal even when it carries both failure phrases, and starts the callback when it says solving is in process |
| `CaptchaBridge.ErrorLevelOnlyClassified` | Extensions/PuppetterExtensions.cs:139-142 | an error-level console message never starts the callback, and one carrying a failure phrase is fatal |
| `CaptchaBridge.DeliverAppend` | Extensions/PuppetterExtensions.cs:129-147 | delivering to two handler lists gives the first list's reactions, then the second list's only when no handler of the first threw |
| `CaptchaBridge.AttachAddsOneReaction` | Extensions/PuppetterExtensions.cs:129-147 | the three handlers of one more call add exactly one reaction, Dispatch's, to every event, unless an earlier handler already threw |
| `CaptchaBridge.RepeatedAttachRepeatsReaction` | Extensions/PuppetterExtensions.cs:124-149 | after n calls on a fresh page, an event no handler throws for gets exactly n reactions, all Dispatch's; an event a handler throws for gets the single fatal reaction of the first handler |
| `CaptchaBridge.TwoCallsStopAtFirstThrow` | Extensions/PuppetterExtensions.cs:129-132 | scenario: after two calls a "no idle workers" page error gets one fatal reaction, the second handler never running |
| `CaptchaBridge.CountIdAppend` | Extensions/PuppetterExtensions.cs:180-188 | elements with an id are counted additively over concatenation |
| `CaptchaBridge.CountTagAppend` | Extensions/PuppetterExtensions.cs:201-204 | elements with a tag are counted additively over concatenation |
| `CaptchaBridge.Inject` | Extensions/PuppetterExtensions.cs:179-205 | the old head stays as a prefix; the marker holding the key follows only when the document had none; the head ends with the new script |
| `CaptchaBridge.MarkerScript` | Extensions/PuppetterExtensions.cs:179-189 | the first script splices the key between the double quotes of its innerHTML assignment |
| `CaptchaBridge.SolverScriptSource` | Extensions/PuppetterExtensions.cs:191-205 | the second script splices the URL prefix of the captcha type between the double quotes of its src assignment |
| `CaptchaBridge.InjectEffect` | Extensions/PuppetterExtensions.cs:179-205 | the marker count becomes one in a document that had none and is unchanged otherwise; exactly one script is added, and its src is the reCAPTCHA URL for ReCaptcha, or nothing for other types, followed by the random text |
| `CaptchaBridge.InjectTwice` | Extensions/PuppetterExtensions.cs:179-205 | two injections into a document without a marker give one marker holding the first key and two scripts in call order |
| `CaptchaBridge.StartCaptchaSolvingProcess` | Extensions/PuppetterExtensions.cs:177-206 | the trace gets the two script evaluations in order; the head becomes the injection of the old head and body; body and handlers are unchanged |
| `CaptchaBridge.UseAntiCaptcha` | Extensions/PuppetterExtensions.cs:124-149 | records the two script evaluations, injects, records the 1000 ms pause, and appends the three handlers to those already attached |
| `CaptchaBridge.TimeoutMs` | Extensions/PuppetterExtensions.cs:160 | the budget is minutes × 60000 ms inside the int range, saturating outside it |
| `CaptchaBridge.SolveOutcome` | Extensions/PuppetterExtensions.cs:162-174 | true exactly when the solved marker appeared; an exception is rethrown exactly in the throwing mode; the non-throwing mode always returns |
| `CaptchaBridge.SolveCaptcha` | Extensions/PuppetterExtensions.cs:156-175 | records the two script evaluations and injects, then records one wait for the solved marker with the converted budget, and returns SolveOutcome |
| `CaptchaBridge.DefaultTimeout` | Extensions/PuppetterExtensions.cs:156-160 | scenario: the default budget of three minutes is 180000 ms |
| `WaitPrimitives.Decrement` | Extensions/PuppetterExtensions.cs:281 | `timeout -= 500` gives the int32 that agrees with the difference modulo 2^32 |
| `WaitPrimitives.DecrementIsUnique` | Extensions/PuppetterExtensions.cs:281 | that congruence fixes the result: any int32 congruent to the difference is Decrement's |
| `WaitPrimitives.Ticks` | Extensions/PuppetterExtensions.cs:279-286 | every budget lasts at least one tick |
| `WaitPrimitives.TicksOfNonNegative` | Extensions/PuppetterExtensions.cs:279-286 | a budget T >= 0 lasts exactly T/500 + 1 ticks |
| `WaitPrimitives.TicksOfNegative` | Extensions/PuppetterExtensions.cs:281-282 | a negative budget ends after the first tick unless the subtraction wraps, then it lasts (T - 500 + 2^32)/500 + 2 ticks |
| `WaitPrimitives.TicksAtMinimum` | Extensions/PuppetterExtensions.cs:281 | the budget int.MinValue lasts 4294968 ticks |
| `WaitPrimitives.QuerySelectorWhenAppear` | Extensions/PuppetterExtensions.cs:258-290 | one 500 ms pause per query; all queries but the last were "not yet"; with a budget at most Ticks(T) queries (T/500 + 1 for T >= 0); an element only before the last tick of the budget; null only with a budget, on the tick it runs out, even if that tick found the element; a non-stale exception propagates unchanged, a stale one never does |
| `WaitPrimitives.WaitWhenDisappear` | Extensions/PuppetterExtensions.cs:240-249 | one pause per query; it returns on the first query that finds nothing and propagates the first exception; all earlier queries found the element |
| `WaitPrimitives.AppearsOnFourthTick` | Extensions/PuppetterExtensions.cs:261-289 | scenario: an element found on the fourth tick of a three-minute budget is returned after four queries and 2000 ms |
| `WaitPrimitives.StaleThenFound` | Extensions/PuppetterExtensions.cs:266-277 | scenario: a stale-navigation exception costs one tick and the element is still returned; any other exception propagates |
| `WaitPrimitives.FoundOnLastTickIsDiscarded` | Extensions/PuppetterExtensions.cs:279-286 | scenario: with a 1000 ms budget an element first found on the third query is dropped and null is returned |
| `Browserless.Set` | Extensions/PuppetterExtensions.cs:86 | the indexer keeps keys unique, overwrites an existing key in place and otherwise appends the entry at the end |
| `Browserless.RenderAll` | Extensions/PuppetterExtensions.cs:89 | every entry renders in order, as `key=value` or as the bare key for a null value |
| `Browserless.CreatePuppeteer` | Extensions/PuppetterExtensions.cs:74-98 | fails with "Apikey cannot be empty" exactly for a null or empty key; otherwise HTTPS errors are ignored and the endpoint starts with the browserless.io prefix |
| `Browserless.TokenOverridesCaller` | Extensions/PuppetterExtensions.cs:81-86 | the connection parameters hold token = key, no other token value, and every other caller entry unchanged in its place |
| `Browserless.NullParamsAreEmpty` | Extensions/PuppetterExtensions.cs:81-89 | a null map connects exactly like an empty one, with endpoint prefix + `token=` + key |
| `Browserless.RenderedPiecesAmpFree` | Extensions/PuppetterExtensions.cs:88-89 | entries without '&' render to pieces without '&' |
| `Browserless.QuerySplitsIntoEntries` | Extensions/PuppetterExtensions.cs:86-89 | without '&' in the key or the entries, the query string splits on '&' back into the rendered entries, `token=` + key among them |
| `Selectors.IdToSelector` | Extensions/PuppetterExtensions.cs:220-221 | the selector is the per-character escape, one character longer per backslash and per colon, and reads back to the id |
| `Selectors.EscapeChar` | Extensions/PuppetterExtensions.cs:220-221 | a backslash or a colon becomes two characters, a backslash before it; every other character stays as it is |
| `Selectors.IdToSelectorIsEscape` | Extensions/PuppetterExtensions.cs:220-221 | the two chained replacements equal the single per-character escape |
| `Selectors.EscapeLength` | Extensions/PuppetterExtensions.cs:220-221 | the escape is as long as the input plus its backslashes plus its colons |
| `Selectors.UnescapeEscape` | Extensions/PuppetterExtensions.cs:220-221 | reading the escape back, a backslash quoting the next character, gives the input |
| `Selectors.PlainIdIsItsSelector` | Extensions/PuppetterExtensions.cs:220-221 | an id without backslash or colon is unchanged |
| `Selectors.GetElementPropertyValue` | Extensions/PuppetterExtensions.cs:336-341 | null exactly when the property is absent or null (only string-valued properties are kept, and the core reads only textContent); otherwise the trimmed value, which has no white space at either end and is its own trim |
| `Selectors.GetElementText` | Extensions/PuppetterExtensions.cs:348-351 | the textContent property, null or trimmed |
| `Selectors.GetXPathTextValue` | Extensions/PuppetterExtensions.cs:308-318 | null for a null or empty node list; otherwise the first node's text, trimmed |
| `Selectors.XPathFirstNodeOnly` | Extensions/PuppetterExtensions.cs:317 | nodes after the first never change the result |
| `Selectors.BlankTextIsEmptyNotNull` | Extensions/PuppetterExtensions.cs:312-317 | a first node whose text is all white space yields "", not null |
| `Selectors.JQueryClick` | Extensions/PuppetterExtensions.cs:367 | the fallback script contains the selector |
| `Selectors.ClickByElementEvenIfInvisible` | Extensions/PuppetterExtensions.cs:359-369 | the click is always issued; a PuppeteerSharp exception mentioning "not visible or not an" is swallowed and the jQuery click evaluated; any other exception propagates and nothing else is done |
| `Selectors.FallbackNeedsPuppeteerClass` | Extensions/PuppetterExtensions.cs:365 | a plain exception with the fragment is not caught; a PuppeteerSharp timeout with it is |
| `Workflow.BuildSearchUrl` | Processors/FindVFSAppointmentSlotProcessor.cs:189 | the URL starts with the base URL followed by another '/' and ends with `/login` |
| `Workflow.SearchUrlShape` | Processors/FindVFSAppointmentSlotProcessor.cs:189 | the URL is the eight segments https:, "", host, "", from, en, to, login joined by '/' |
| `Workflow.SplitEightSegments` | Processors/FindVFSAppointmentSlotProcessor.cs:189 | eight slash-free segments joined by '/' split back into themselves |
| `Workflow.SearchUrlSegments` | Processors/FindVFSAppointmentSlotProcessor.cs:189 | for codes without '/', splitting the URL on '/' gives exactly these segments, the empty fourth being the doubled slash after the host |
| `Workflow.EncodeMovieName` | Processors/FindVFSAppointmentSlotProcessor.cs:190 | split-then-join equals replacing every space by '+': same length, no space left, every other character in place |
| `Workflow.EncodeMovieNameIdempotent` | Processors/FindVFSAppointmentSlotProcessor.cs:190 | encoding an encoded name changes nothing |
| `Workflow.FromSeconds` | Processors/FindVFSAppointmentSlotProcessor.cs:191 | the span is a whole number of seconds, sec of them, so its microseconds component is 0 |
| `Workflow.Microseconds` | Processors/FindVFSAppointmentSlotProcessor.cs:191 | the microseconds component lies strictly between -1000 and 1000 |
| `Workflow.GetTimeoutOption` | Processors/FindVFSAppointmentSlotProcessor.cs:191 | whatever sec is, the options are not-visible with timeout 0 |
| `Workflow.MicrosecondsIsAComponent` | Processors/FindVFSAppointmentSlotProcessor.cs:191 | scenario: the component is what lies below a millisecond, with the sign of the span |
| `Workflow.GetAttributes` | Processors/FindVFSAppointmentSlotProcessor.cs:101 | one entry per requested name, in order, each the attribute the case-insensitive name index holds or null |
| `Workflow.SingleOrDefault` | Processors/FindVFSAppointmentSlotProcessor.cs:102 | throws InvalidOperationException exactly for more than one entry; no entry gives null, and a single entry is returned as it is |
| `Workflow.ExtractAttribute` | Processors/FindVFSAppointmentSlotProcessor.cs:99-102 | no button: the null dereference; on the button never an exception, and the result is the value the index holds for the name, or "" when it holds none |
| `Workflow.ExtractAttributeIgnoresCase` | Processors/FindVFSAppointmentSlotProcessor.cs:101 | the name is looked up without regard to case |
| `Workflow.TwoNamesTwoEntries` | Processors/FindVFSAppointmentSlotProcessor.cs:101-102 | note on SingleOrDefault: the core asks for one name and gets that name's entry; two names, a request the core never makes, would make it throw |
| `Workflow.ExtractDownloadUrl` | Processors/FindVFSAppointmentSlotProcessor.cs:95-104 | no button: the null dereference; otherwise the button's href, or "" |
| `Workflow.ExtractMovieTitle` | Processors/FindVFSAppointmentSlotProcessor.cs:106-115 | no button: the null dereference; otherwise the button's data-product-title, or "" |
| `Workflow.LoginSteps` | Processors/FindVFSAppointmentSlotProcessor.cs:134-148 | seven steps: navigation to the search URL with no time limit first, then the user-name wait with timeout 0; typing only after it, the user name then the password; the only click, on the login button, after both typings; the post-submit pause last; 10000 ms of pauses |
| `Workflow.Processor.Login` | Processors/FindVFSAppointmentSlotProcessor.cs:134-148 | appends exactly the login steps to the trace and changes nothing else |
| `Workflow.BrowserChoice` | Processors/FindVFSAppointmentSlotProcessor.cs:37 | the local browser exactly when the host is Development or IsBrowserlessEnabled is not true; a remote connection, with the token endpoint, exactly when it is not Development, browserless.io is enabled and the key is set and not empty; an exception exactly otherwise |
| `Workflow.Provision` | Processors/FindVFSAppointmentSlotProcessor.cs:163-187 | local exactly in development mode; remote with a null key throws the ArgumentNullException before connecting, with "" the CreatePuppeteer error, otherwise connects to prefix + `token=` + key |
| `Workflow.Processor.OpenBrowserPage` | Processors/FindVFSAppointmentSlotProcessor.cs:163-187 | returns Provision's result and stores the plugin key exactly in development mode |
| `Workflow.Processor.FindAppointment` | Processors/FindVFSAppointmentSlotProcessor.cs:44-72 | logs in and returns the default (null, null) pair |
| `Workflow.Processor.ProcessAsync` | Processors/FindVFSAppointmentSlotProcessor.cs:35-42 | a provisioning failure propagates with the page untouched; otherwise the trace gets the login for ("tur", "nld") then the disposal, and the response is the empty one |
| `Workflow.FirstSubtitle` | Processors/FindVFSAppointmentSlotProcessor.cs:80 | the index of the first entry whose name ends in ".srt", none exactly when no entry does |
| `Workflow.SubtitleAfterReadme` | Processors/FindVFSAppointmentSlotProcessor.cs:80 | scenario: a non-subtitle first entry is skipped and the first of two subtitles is chosen |
| `Workflow.CopyStream` | Processors/FindVFSAppointmentSlotProcessor.cs:87-91 | the bytes copied through the 81920-byte buffer are exactly the source's |
| `Workflow.DownloadSubtitle` | Processors/FindVFSAppointmentSlotProcessor.cs:74-93 | fails with "Subtitle not found!" exactly when no entry is a subtitle; otherwise returns the first subtitle's bytes |

## Left out

- Browser launch and connection are not modelled; the model keeps only the endpoint string and the options. This covers `CreateLocalPuppeteerAsync`, `CreateLocalPuppeteer`, `BrowserFetcher`, `PuppeteerExtra.Use`, `Puppeteer.ConnectAsync` and `NewPageAsync`. They are calls into foreign libraries.
- Wall-clock time is not modelled. `WaitForTimeoutAsync` is a recorded `Pause` action, and the poll loops count their waited milliseconds.
- The native PuppeteerSharp waits are not modelled: `WaitForSelectorAsync`, `WaitForVisibleSelectorAsyc`, `WaitForVisibleSelectorAsync` and `ClickAfterAppearAsync`. Only their parameters appear, as recorded actions, and the outcome of a wait is an input. They delegate to the library.
- Termination of `WaitWhenDisAppearAsync` is not modelled. The wait has no bound in the source. In the model the sequence of query outcomes acts as fuel: a wait that outlives it ends with `StillPresent`, and `QuerySelectorWhenAppear` ends with `Exhausted`.
- The concurrency of event delivery is not modelled. That means handlers firing while a poll is pending, and the fire-and-forget callback together with its own failures. One synchronous event delivery is modelled: the reactions of the attached handlers, in order, up to the first that throws.
- JavaScript execution is not modelled. The model has the head injection as the scripts describe it, and the `Math.random()` text is a parameter.
- HtmlAgilityPack parsing is not modelled. The model starts from the parsed document as a map from id to element, so `GetContentAsync`/`LoadHtml` and the handling of duplicate ids are not captured. Each element is its attribute name index. Which of several attributes with the same name that index holds is decided by the parser and is not captured.
- Case-insensitive attribute lookup is modelled on the ASCII letters only. Case folding of other letters is not captured.
- The evaluation of the two injection scripts cannot fail in the model. The key is spliced unescaped between double quotes, so a key containing `"`, `\` or a line break changes or breaks the first script. The resulting JavaScript behaviour and the exception `EvaluateExpressionAsync` would throw are not modelled.
- HttpClient downloads are not modelled. `DownloadSubtitle` receives the archive's entries. The unused `GetByteArrayAsync` download and the second download by `GetStreamAsync` are not represented.
- ZipArchive decompression is not modelled.
- The enumeration order of a C# `Dictionary` is not modelled. The parameter map is a sequence in insertion order, and an overwritten key keeps its place.
- `CreatePuppeteer` mutates the caller's dictionary when it adds the token. The model is value-based and does not show that effect on the caller.
- `NewPageWithAntiCaptchaAsync`, `IsReCaptchaExists`, `JavascriptClickByElement`, `JavascriptClickBySelector`, `ResolveCloudFlare`, `TryToNavigateToDownloadPage` and `PickFirstSubtitleAndNavigateTo` are not modelled. They lie outside the modelled core, and the processor never calls them.
- Logging (`logger.LogError`) and the configuration lookup are not modelled. The configuration appears only as the values read from it, passed as parameters.
- The page calls inside `Login` and `ClickByElementEvenIfInvisible` return normally in the model, except for the modelled `ClickAsync` exception. Exceptions from other page calls, including the fallback script itself, are not modelled.
- CaptchaBridge.TimeoutMs: `(int)` of an out-of-range double is modelled as saturating. Before .NET 9 that conversion is platform-dependent, and it only matters beyond 35791 minutes.
- Console message types other than the five listed are not distinguished. Like every non-Error type, they are not classified.
- Workflow.FirstSubtitle: `EndsWith(".srt")` is culture-sensitive in .NET. It is modelled as an ordinal suffix test, which can differ only for an ignorable Unicode character at the end of a name.
- .NET strings are UTF-16. `Trim` and `Contains` are modelled on Unicode characters, so surrogate pairs are not represented.
- BGServices/VFSInspector.cs, Helpers/HtmlHelper.cs, Program.cs and Processors/IProcessor.cs are not part of this model. They hold scheduling, wiring and an interface, with no logic of the core.
