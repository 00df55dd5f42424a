# Schedalize Social: the logic under the screens

A Dafny model of the pure logic of the Schedalize Social iOS app. It has two
client variants: the current SchedalizeSocial target and the older
SchedulizeSocial one. The model covers these parts:

- **History feed** (`History`): the `HistoryStore` merges replies, completed
  calendar tasks and scheduled posts. It also covers the type filter, the
  per-type counts, the re-entrancy guard on loading, and a card's posted state.
- **Content calendar** (`Calendar`): the task list split by completion and
  sorted by day, the completion flow, the "Completed …" label, and
  `TaskDetailSheet`.
- **Scheduling helpers** (`Posts`): the posts on a selected day, the grid
  dots, the 42-cell month grid (a method with a loop), the default time of a
  new post, and the default prompt.
- **Documentation formatter** (`Docs`): `FormatText.parseContent`, which
  splits a document into lines and classifies each line.
- **HTTP clients** (`Api`, `LegacyApi`): how an exchange becomes a value or an
  `APIError`, what each error says, and the endpoint strings. The older
  client is shown to classify every exchange exactly as the current one does.
- **Forms** (`Login`, `Replies`, `LegacyReplies`): login and signup
  validation and its error texts, the reply form with its quick templates,
  and the older form's tone chips and logout on `unauthorized`.
- **Model identity** (`Models`): `Prompt` equality and hashing by id only,
  and the single-field ids of the records.

### How the model represents the source

- **Instants.** An instant is an integer count of seconds on the device's
  local clock. A calendar day is `t / 86400`, which Dafny rounds down.
- **ISO-8601 parsing.** The two ISO-8601 formatters and the short date
  formatter are function-valued parameters.
- **Network results.** The outcome of each request arrives as data:
  - `Exchange` for a request with a body;
  - `DeleteExchange` for `delete`;
  - an `Option` for a history source whose request threw.
- **Other parameters.** The `UnifiedHistoryItem.from(...)` mappers are
  parameters (`History.Mappers`). Foundation's month interval is also a
  parameter (`Posts.MonthInterval`).

### Two behaviours worth knowing

- **Sort ties.** The history feed and the calendar sort with `sorted(by:)`
  and no tiebreak. So `FilteredItems` promises order by `createdAt` only,
  and the calendar's lists are ordered by day only.
- **`unauthorized`.** Only the older reply form logs out on `unauthorized`
  (`LegacyReplies.FinishOutcome`). The current reply form, the calendar and
  the login screen show it as a message.

## Model

| member | source | states |
|---|---|---|
| Models.PromptEqIsIdEquality | SchedalizeSocial/Models/Models.swift:201-203 | Prompt `==` is an equivalence that holds exactly when the ids agree |
| Models.PromptHashRespectsEq | SchedalizeSocial/Models/Models.swift:197-199 | prompts that are `==` hash equally, for any hasher |
| Models.PromptEqIgnoresContent | SchedalizeSocial/Models/Models.swift:185-203 | a prompt equals a copy with a different name, model or default flag |
| Models.IdsComeFromOneField | SchedalizeSocial/Models/Models.swift:53-85 | a history record's id is `reply_id` and a post's is `post_id`, unchanged by content edits |
| Models.TaskIdIsTaskId | SchedalizeSocial/Models/Models.swift:230-248 | a task's id is `task_id`, unchanged by title or completion |
| Models.ReplyIdIsText | SchedalizeSocial/Models/Models.swift:42-46 | two generated replies share an id exactly when their texts are equal, whatever their tones |
| Api.ErrorDescription | SchedalizeSocial/Services/ApiClient.swift:17-30 | a server error reads "Server error: " followed by the server's message, `unauthorized` reads a fixed text, and no description is empty |
| Api.ErrorDescriptionInjective | SchedalizeSocial/Services/ApiClient.swift:17-30 | distinct errors never share a description (wrapped errors compared by their text), so the server message after "Server error: " can be read back intact |
| Api.HttpStatusTextRoundTrip | SchedalizeSocial/Services/ApiClient.swift:208 | the "HTTP n" fallback names exactly the status n that caused it |
| Api.PerformRequest | SchedalizeSocial/Services/ApiClient.swift:192-219 | 401 gives `unauthorized` whatever the body; another non-2xx gives `serverError` with the body's message, else "HTTP n"; a 2xx gives the decoded value or `decodingError`; a transport failure or a non-HTTP response gives `networkError`, because the `catch` chain passes an `APIError` through and wraps anything else |
| Api.PerformRequestCauses | SchedalizeSocial/Services/ApiClient.swift:192-219 | each error kind has exactly one cause, in both directions; success happens exactly for a decodable 2xx; `invalidURL` never comes from here |
| Api.SendRawFailureOnlyFromEncoding | SchedalizeSocial/Services/ApiClient.swift:130-162 | a failure that is not an `APIError` can come only from encoding the body, so `get` throws only `APIError`s |
| Api.Delete | SchedalizeSocial/Services/ApiClient.swift:164-190 | 401 gives `unauthorized`, another non-2xx gives `serverError("HTTP n")` without reading the body, and only a 2xx succeeds; a URLSession error escapes unwrapped |
| Api.DeleteAgreesWithPerformRequest | SchedalizeSocial/Services/ApiClient.swift:164-219 | on a status, `delete` fails as `performRequest` does on a response with no error body; on a transport failure the two differ |
| Api.CalendarTasksEndpointIsQuery | SchedalizeSocial/Services/ApiClient.swift:87-93 | the concatenated endpoint is an ordinary `key=value&…` query: start date only if given, end date only if given, `include_completed` always last |
| Api.AllTasksEndpoint | SchedalizeSocial/Services/ApiClient.swift:87-93 | with no window and completed tasks included, the endpoint is "/api/v1/calendar/tasks?include_completed=true" |
| Api.DocsEndpointsCarryTheirArguments | SchedalizeSocial/Services/ApiClient.swift:222-232 | `getDocs` adds "?category=C" exactly when a category is given; `getDoc` puts the id after the docs path |
| Api.TaskPathsCarryTheId | SchedalizeSocial/Services/ApiClient.swift:103-122 | the task id sits verbatim between "/api/v1/calendar/tasks/" and "/complete" or "/generate"; different ids give different paths, and complete and generate paths never coincide |
| Api.DeletePathCarriesTheId | SchedalizeSocial/Services/ApiClient.swift:72-74 | the post id is everything after "/api/v1/posts/scheduled/" |
| LegacyApi.PerformRequest | SchedulizeSocial/Services/ApiClient.swift:124-151 | the older client's classification: 401 gives `unauthorized`; another non-2xx gives the body's message, else "HTTP n"; a decodable 2xx succeeds; other failures give `decodingError` or `networkError` |
| LegacyApi.AgreesWithCurrentClient | SchedulizeSocial/Services/ApiClient.swift:96-151 | both client variants classify every exchange and every delete identically, so the older client inherits every property proved of the current one |
| LegacyApi.DeletePathMatchesCurrentClient | SchedulizeSocial/Services/ApiClient.swift:57-59 | the older client targets "/api/v1/posts/scheduled/" + postId, the same path as the current client |
| History.FilteredItems | SchedalizeSocial/Views/HistoryView.swift:21-25 | the feed holds each loaded item of a selected type exactly as often as `allItems` does, and no other items; it runs newest first |
| History.FilteredAllIsPermutation | SchedalizeSocial/Views/HistoryView.swift:17-25 | with every type selected (the default) the feed is a reordering of `allItems` |
| History.FilteredMembership | SchedalizeSocial/Views/HistoryView.swift:21-23 | an item is in the feed exactly when it is loaded and of a selected type |
| History.CountsPartitionItems | SchedalizeSocial/Views/HistoryView.swift:27-29 | the three counts add up to the number of loaded items, and the selection does not change any of them |
| History.FilteredCountOfType | SchedalizeSocial/Views/HistoryView.swift:21-29 | the feed shows as many items of a type as its count when the type is selected, and none otherwise |
| History.ToggleFilter | SchedalizeSocial/Views/HistoryView.swift:31-39 | an absent type is added; a present type is removed unless it is the last; no other type changes; a non-empty selection stays non-empty |
| History.ToggleFilterTwice | SchedalizeSocial/Views/HistoryView.swift:31-39 | tapping the same filter twice restores any non-empty selection |
| History.ToggleAllNeverEmpty | SchedalizeSocial/Views/HistoryView.swift:31-36 | no sequence of taps empties the selection |
| History.DeselectEverything | SchedalizeSocial/Views/HistoryView.swift:31-36 | deselecting reply, task and scheduled from the default leaves only scheduled |
| History.HistoryTasks | SchedalizeSocial/Views/HistoryView.swift:76 | exactly the completed tasks with content are kept, each as often as fetched |
| History.LoadAllHistory | SchedalizeSocial/Views/HistoryView.swift:42-61 | while loading, nothing changes; otherwise the items become replies ++ tasks ++ scheduled, loading ends, `hasLoaded` is set and the filter is kept |
| History.OverlappingLoadIgnored | SchedalizeSocial/Views/HistoryView.swift:42-59 | a refresh during a load is a no-op; a completed load does not depend on the previous items |
| History.LoadedItemsBySource | SchedalizeSocial/Views/HistoryView.swift:52-92 | after a load, the items of each type are exactly that source's contribution in fetched order, so each count is that source's size, or 0 when it failed |
| History.ScheduledFailureKeepsOthers | SchedalizeSocial/Views/HistoryView.swift:84-92 | when the posts request fails the feed still loads, and it shows no scheduled items |
| History.CardPostedState | SchedalizeSocial/Views/HistoryView.swift:231-237 | a local pick marks the card posted and names that platform; "Not Posted" falls back to the backend's record; a badge implies posted |
| Calendar.LoadTasks | SchedalizeSocial/Views/CalendarView.swift:169-187 | on success the two lists split the fetched tasks without loss, each holds only its kind and each is in day order (nil as 0); on failure the lists stay and the error's description is shown; the spinner always stops |
| Calendar.ReloadedTaskMembership | SchedalizeSocial/Views/CalendarView.swift:179-181 | after a successful reload, a task is open exactly when fetched and not completed, and completed exactly when fetched and completed |
| Calendar.ReloadIdempotent | SchedalizeSocial/Views/CalendarView.swift:166-187 | reloading twice with the same answer equals reloading once |
| Calendar.CompleteCallFor | SchedalizeSocial/Views/CalendarView.swift:208-211 | the completion request names the task's id on the complete path and carries the given content |
| Calendar.CompletedTaskMoves | SchedalizeSocial/Views/CalendarView.swift:208-217 | an accepted completion reloads, and a task the backend reports completed moves to the completed list; a rejected one moves nothing and shows an alert |
| Calendar.CompletionLabelByDay | SchedalizeSocial/Views/CalendarView.swift:341-362 | text that neither ISO-8601 reading accepts (the plain one is tried first) reads "recently"; a time since the start of today reads "today", a time during the day before reads "yesterday", and anything else gets the short date |
| Calendar.StartGenerate | SchedalizeSocial/Views/CalendarView.swift:456-526 | Generate starts the spinner, is then disabled, and asks for this task's content with the emoji toggle's value |
| Calendar.CompleteMatchesPanel | SchedalizeSocial/Views/CalendarView.swift:459-513 | Complete is enabled exactly when the panel shows content (fresh before stored), and what it sends, if anything, is what the panel shows |
| Calendar.SheetLifecycle | SchedalizeSocial/Views/CalendarView.swift:134-136 | a sheet opened on a task with stored content can complete at once but sends no content; after generating, it sends the new content; a failed generation returns the sheet to its opened state |
| Posts.PostsForSelectedDate | SchedalizeSocial/Views/PostsView.swift:25-34 | with no selection, nothing; otherwise each post whose time is readable (fractional seconds tried first) and on the selected day, as often as listed, and no other |
| Posts.HasPostIffListed | SchedalizeSocial/Views/PostsView.swift:800-808 | a day shows a dot exactly when selecting it would list at least one post |
| Posts.UnreadablePostNeverListed | SchedalizeSocial/Views/PostsView.swift:27-31 | a post whose time neither formatter reads is never listed |
| Posts.DaysInMonth | SchedalizeSocial/Views/PostsView.swift:779-798 | no interval gives no cells; otherwise exactly 42 cells, each holding the start of its day when that day is in the month and empty otherwise |
| Posts.GridShowsMonth | SchedalizeSocial/Views/PostsView.swift:779-798 | for a real month, the filled cells are exactly the month's days, one per cell from the column after the leading days, consecutive and increasing; the grid starts on the week containing the 1st |
| Posts.DefaultScheduleIsNextNoon | SchedalizeSocial/Views/PostsView.swift:341-369 | the default time is a noon strictly after now: noon on the initial day when that day is later, else the first noon after now; a past initial day acts as today |
| Posts.FirstDefault | SchedalizeSocial/Views/PostsView.swift:608 | finds a prompt exactly when some prompt is default, and then the earliest one |
| Posts.DefaultPromptChoice | SchedalizeSocial/Views/PostsView.swift:608 | the preselection is empty only for no prompts; it is the earliest default prompt if any, else the first prompt |
| Docs.Split | SchedalizeSocial/Views/DocsView.swift:152 | a document yields at least one line, and no line holds a line feed |
| Docs.JoinSplit | SchedalizeSocial/Views/DocsView.swift:152 | joining the lines with line feeds gives back the document exactly |
| Docs.SplitJoin | SchedalizeSocial/Views/DocsView.swift:152 | cutting joined lines that hold no line feed gives those lines back |
| Docs.SplitLineCount | SchedalizeSocial/Views/DocsView.swift:152 | there is one more line than there are line feeds |
| Docs.TrimStars | SchedalizeSocial/Views/DocsView.swift:161 | the line is the result wrapped in two runs of asterisks, and the result neither starts nor ends with one |
| Docs.TrimmedOfStarsUnique | SchedalizeSocial/Views/DocsView.swift:161 | at most one string is the line trimmed of asterisks at both ends, so a heading's text is fully determined by its line |
| Docs.ParseContent | SchedalizeSocial/Views/DocsView.swift:151-176 | one formatted line per line, in order, with id equal to its index, each classified on its own |
| Docs.ClassifyKind | SchedalizeSocial/Views/DocsView.swift:155-171 | each kind holds exactly when its rule is the first to match: a "━━━" prefix makes a divider whatever follows; otherwise "**" at both ends makes a heading; otherwise a "• " or "✓ " prefix makes a bullet; otherwise a blank line is empty and any other line is normal |
| Docs.ClassifyText | SchedalizeSocial/Views/DocsView.swift:155-171 | dividers and empty lines show no text, bullets and normal lines show the line verbatim, and a heading shows the line with its runs of asterisks cut from both ends, so its text neither starts nor ends with an asterisk |
| Docs.BareBoldIsEmptyHeading | SchedalizeSocial/Views/DocsView.swift:159-162 | "**" is a heading with empty text |
| Docs.BoldTitleIsHeading | SchedalizeSocial/Views/DocsView.swift:159-162 | "***Tips**" is a heading "Tips": every asterisk at either end is stripped |
| Docs.LineExamples | SchedalizeSocial/Views/DocsView.swift:155-171 | a divider beats a heading mark, "• " lines are kept whole, spaces and tabs are empty, and a single leading "*" is normal text |
| Login.SignupStricterThanLogin | SchedalizeSocial/Views/LoginView.swift:106-112 | values valid for signup are valid for login, but a five-character password without a name passes login only |
| Login.SubmitAuth | SchedalizeSocial/Views/LoginView.swift:114-125 | pressing the button disables it, clears the message, and sends email and password (plus the name for signup) to the signup or login path |
| Login.AuthOutcome | SchedalizeSocial/Views/LoginView.swift:127-153 | success saves the access token and user and logs in; failure keeps the fields and session, raises the alert, and re-enables the button exactly when the form is valid |
| Login.MessageForExchange | SchedalizeSocial/Views/LoginView.swift:132-152 | a 401 reads "Invalid credentials."; another failing status shows the server's message or "HTTP n"; a transport failure shows the connection text; an unreadable 2xx shows the generic text; an encoding failure shows the unexpected-error text |
| Replies.TemplateLabelsDistinct | SchedalizeSocial/Views/MainView.swift:23-38 | the twelve quick-template labels, which identify the chips, are pairwise distinct, and every template has a message |
| Replies.SelectTemplate | SchedalizeSocial/Views/MainView.swift:80-83 | a chip sets the message to its prompt and folds the list, keeping the replies |
| Replies.Clear | SchedalizeSocial/Views/MainView.swift:106-107 | Clear empties the message and changes nothing else |
| Replies.TemplateAndClear | SchedalizeSocial/Views/MainView.swift:80-193 | after a template the form can be sent unless a request is in flight; after Clear it cannot, and Clear is no longer offered |
| Replies.AsciiLowerFacts | SchedalizeSocial/Views/MainView.swift:267 | lowering is idempotent and leaves no capitals; the platforms go out as "instagram", "tiktok" and "email" |
| Replies.SubmitGenerate | SchedalizeSocial/Views/MainView.swift:259-269 | Generate disables itself, clears the error message, keeps the typed message and sends it, the lowercased platform and the emoji flag |
| Replies.GenerateOutcome | SchedalizeSocial/Views/MainView.swift:271-293 | every outcome stops the spinner and keeps the message; success replaces the replies wholesale; failure keeps them and shows the server's message for a server error, the generic failure text for another `APIError`, and the unexpected-error text for any other error |
| Replies.UnauthorizedIsGeneric | SchedalizeSocial/Views/MainView.swift:275-285 | a 401 gives the generic failure text here, not a logout |
| LegacyReplies.InitialForm | SchedulizeSocial/Views/MainView.swift:13-20 | the form starts with only "friendly" selected and an empty message |
| LegacyReplies.ToggleTone | SchedulizeSocial/Views/MainView.swift:223-229 | a present tone is removed, an absent one inserted, and no other tone changes |
| LegacyReplies.ToggleToneTwice | SchedulizeSocial/Views/MainView.swift:223-229 | toggling twice restores any selection, and toggling the only tone empties it |
| LegacyReplies.EmptyTonesBlockGenerate | SchedulizeSocial/Views/MainView.swift:156 | with no tone Generate is disabled; with the default tone, or once a tone is back on, it is enabled exactly when idle with a message |
| LegacyReplies.ContextParam | SchedulizeSocial/Views/MainView.swift:239 | an empty context is omitted and any other is sent verbatim |
| LegacyReplies.SubmitGenerate | SchedulizeSocial/Views/MainView.swift:231-242 | Generate disables itself and sends the message, the optional context, the platform as shown and the selected tones |
| LegacyReplies.FinishOutcome | SchedulizeSocial/Views/MainView.swift:231-275 | `unauthorized` clears the token and ends the session with no new alert, and nothing else ends it; any other failure keeps the replies and alerts with the server's message for a server error, the generic text for another `APIError` and the unexpected-error text otherwise; success replaces the replies |
| LegacyReplies.UnauthorizedResponseLogsOut | SchedulizeSocial/Views/MainView.swift:231-252 | a 401 response, whatever its body, signs the user out once the older client classifies it |

## Left out

- Networking plumbing: URLSession, URLRequest, JSON coding and the bearer header. Their outcomes arrive as `Exchange` data.
- The wording of an `NSError`'s localized description (`Api.InvalidResponseDetail` stands for it). Wrapped errors are represented by their description text.
- Concurrency: the `async let` fan-out in `loadAllHistory`, `Task {}` blocks and `MainActor` hops. Each request's result is given, and the steps run in sequence.
- Foundation dates: time zones, daylight saving, `Calendar.date(from:)` and `date(byAdding:)` returning nil (their `?? fallback` paths), and month lengths. A day is 86400 seconds of local time. The formatters and Foundation's month interval are parameters.
- `UnifiedHistoryItem`, its `from(...)` mappers and `HistoryItemType` are not part of this model beyond the fields the store reads. The mappers are opaque parameters, and tagging each item with its source's type is assumed only in the lemmas that need it (`History.WellTagged`).
- History.FilteredItems: does not promise any order among items with equal `createdAt`, because `sorted(by:)` has no tiebreak. Calendar.LoadTasks does the same for equal day numbers.
- Swift `String` semantics: strings are sequences of Unicode scalars, not grapheme clusters. So `password.count`, `hasPrefix` and `components(separatedBy:)` are modelled per scalar, and a "\r\n" pair is not treated as one character.
- Replies.AsciiLower: lowercases ASCII letters only, not full Unicode case mapping. The platform names it is applied to are ASCII.
- Template import (`importCalendarTemplates`) and push-forward scheduling (`pushTasks`): the backend does that work, and the client only posts a request.
- `getPrompts`, `Doc`/`DocsResponse`, `CalendarTemplates`, `TokenManager` and `ContentView` are not part of this model. Token storage is a field of the form states.
- The older `MainView` calls `generateReplies(message:context:platform:tones:)`, which the older client file does not declare. The request is modelled from the call site; its order of tones is unspecified, so the tones are a set.
- Presentation: colours, fonts, icons (`CustomIcons.swift` geometry), the clipboard, alert dismissal and SwiftUI bodies.
- `PostsView.deletePost` and `loadPosts`, the remaining views of the older target, and the Codable DTOs with no behaviour: they hold only glue around the logic above.
