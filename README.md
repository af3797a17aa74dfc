# nexus-ai dashboard core, modelled in Dafny

nexus-ai is a multi-tenant SaaS dashboard written in TypeScript: Next.js API
routes over a relational database, plus React client state. This project
models its core in Dafny and proves properties of the model.

- **Server-side helpers**
  - the in-memory fixed-window rate limiter and its periodic sweep;
  - the registry of server-sent-event (SSE) subscribers, with per-user
    notification and organization broadcast;
  - the notification stream endpoint;
  - the Markdown table renderer and HTML escaper;
  - the mock AI reply table and the word-by-word chat and analysis streams;
  - the CSV export;
  - the request schemas and response helpers.
- **API routes**: customers, analytics, billing subscription, profile,
  organization settings and team invite. Each is a function from the
  session user, the parsed body and the database's answers to a response.
  The route's guards are kept in their original order.
- **Authentication middleware**: which paths are public, and the redirect
  to the login page.
- **Client state**:
  - the toast, chat, sidebar and user-role stores, each a `class` whose
    methods update its fields;
  - the notifications hook and the notification bell;
  - the translation lookup and the Slot prop merger;
  - the team table, the sidebar navigation, the customers page and its
    pagination, the billing page and the settings page;
  - the presentational rules of the recent-activity feed and the KPI card.

Things the code cannot see become parameters:
- the clock (`now`, ages in milliseconds);
- the database's rows and look-ups (`owners`, `emailOwner`, `slugOwner`, `existing`, `emailTaken`);
- whether a string is an e-mail address (`isEmail`);
- bcrypt's compare and hash (`matches`, `hash`);
- `JSON.stringify` (`encode`);
- the set of SSE controllers whose `enqueue` throws (`dead`);
- `Math.random` (`draw`);
- locale date renderings (`dateLabel`, `localeDate`);
- the server's answers to client fetches (`Outcome` and `ChangeOutcome` values).

Timers are explicit calls:
- the rate limiter's sweep is `Sweep`;
- a keep-alive firing is `Fire`;
- a customer-search timer firing is `SearchSettled`;
- a toast's expiry is `RemoveToast`.

An asynchronous client handler is split into a `Start…` method, which runs
before the request, and a `Finish…` method, which runs after the response.

JSON values are the `Values.Json` datatype. That datatype has an explicit
`Undefined`, so a missing key and `null` stay distinct, as they are for the
schemas. Strings are `seq<char>`, measured in code points.

## Model

| member | source | states |
|---|---|---|
| RateLimit.RateLimiter.constructor | src/lib/rate-limit.ts:11-15 | The store starts empty and no sweep timer is scheduled |
| RateLimit.RateLimiter.EnsureCleanup | src/lib/rate-limit.ts:17-19 | Afterwards a sweep timer is scheduled; an existing timer is kept rather than duplicated |
| RateLimit.RateLimiter.RateLimit | src/lib/rate-limit.ts:44-64 | Only the caller's key changes, to the entry the window step gives; the result is that step's outcome; the timer is started when a fresh window is opened |
| RateLimit.RateLimiter.Sweep | src/lib/rate-limit.ts:19-28 | Drops exactly the entries whose window has passed; the timer stops exactly when the store is then empty |
| RateLimit.StepFresh | src/lib/rate-limit.ts:51-55 | With no entry or an expired one, a new window with count 1 opens and the call succeeds with limit-1 remaining |
| RateLimit.StepInWindow | src/lib/rate-limit.ts:57-63 | Inside the window the count grows by one; the call succeeds iff the new count is within the limit; a refusal reports 0 remaining |
| RateLimit.Calls | src/lib/rate-limit.ts:44-64 | A sequence of calls on one key yields one outcome per call |
| RateLimit.CallsInWindow | src/lib/rate-limit.ts:57-63 | The i-th call inside a window that already holds c calls succeeds iff c+i+1 <= limit, and reports the remaining count and the window's reset time |
| RateLimit.LimitThenReject | src/lib/rate-limit.ts:44-64 | From an empty store, calls within one window succeed exactly for the first `limit` of them |
| RateLimit.RemainingDecreases | src/lib/rate-limit.ts:63 | Within one window, the remaining count falls by exactly one per accepted call, and never below zero |
| RateLimit.SweepExact | src/lib/rate-limit.ts:21-23 | The sweep keeps exactly the unexpired entries, unchanged, and sweeping twice is sweeping once |
| RateLimit.SweepDrains | src/lib/rate-limit.ts:21-27 | When every window has passed, the sweep empties the store |
| RateLimit.ClientIpForwarded | src/lib/rate-limit.ts:70-72 | With x-forwarded-for, the key is the trimmed text before the header's first comma, and it holds no comma |
| RateLimit.ClientIpFallbacks | src/lib/rate-limit.ts:72-75 | Without x-forwarded-for the key is x-real-ip, else "unknown" |
| Notifications.FindIndex | src/lib/notifications.ts:27 | The index of the first entry holding the controller, or -1 exactly when none does |
| Notifications.Without | src/lib/notifications.ts:26-29 | Removing an absent controller changes nothing, removing a present one drops one entry |
| Notifications.Registry.constructor | src/lib/notifications.ts:20 | The subscriber list starts empty |
| Notifications.Registry.Add | src/lib/notifications.ts:22-24 | Appends exactly one entry for (user, controller) at the end |
| Notifications.Registry.Remove | src/lib/notifications.ts:26-29 | The list becomes the list without the controller's first entry |
| Notifications.Registry.DispatchFrame | src/lib/notifications.ts:31-43 | The index loop produces the same writes and the same final list as the iteration-with-splice specification `Dispatch` |
| Notifications.Registry.Notify | src/lib/notifications.ts:31-43 | Writes the `data:` frame of the payload as `Dispatch` does for the user |
| Notifications.Registry.CreateNotification | src/lib/notifications.ts:9-13 | Stores the unread row first, then notifies its user with the row's frame |
| Notifications.Registry.BroadcastToOrg | src/lib/notifications.ts:45-61 | Dispatches the frame to each member of the organization in turn, threading the list through |
| Notifications.FindIndexAppend | src/lib/notifications.ts:22-27 | A newly added controller is found at the end of the list |
| Notifications.AddThenRemove | src/lib/notifications.ts:22-29 | Adding a fresh controller and removing it restores the list |
| Notifications.WithoutShape | src/lib/notifications.ts:26-29 | Removal cuts out exactly the first matching entry, keeping order; the multiset loses just that entry; other entries stay |
| Notifications.WithoutUnique | src/lib/notifications.ts:26-29 | With unique controllers, removal leaves no entry for the controller and is idempotent |
| Notifications.DispatchTargetsOnly | src/lib/notifications.ts:34-37 | Every write carries the frame and goes to a controller registered for that user |
| Notifications.DispatchEvictsOnlyFailed | src/lib/notifications.ts:36-40 | Only entries whose write just failed are removed; nothing is added |
| Notifications.DispatchEvictsFailed | src/lib/notifications.ts:36-40 | With unique controllers, every controller whose write failed is gone afterwards |
| Notifications.DispatchNoEntries | src/lib/notifications.ts:34-35 | A user with no subscribers gets no write and the list is unchanged |
| Notifications.DispatchNoFailures | src/lib/notifications.ts:34-42 | Without failures each of the user's subscribers receives the frame once, in order, and the list is unchanged |
| Notifications.DispatchSkipsNext | src/lib/notifications.ts:34-42 | Example: when the first of a user's two subscribers fails, the splice makes the loop skip the second, which receives nothing |
| Notifications.BroadcastNoFailures | src/lib/notifications.ts:45-61 | Without failures a broadcast reaches every subscriber of every listed user and changes no entry |
| Notifications.BroadcastFrames | src/lib/notifications.ts:48-53 | Every broadcast write carries the same frame |
| EventStream.StreamLines | src/lib/notifications.ts:33 | A well-formed frame sequence splits into, for each frame, its field line and then a blank line |
| EventStream.RoundTrip | src/app/api/notifications/stream/route.ts:17-25 | An EventSource client parsing the written frames dispatches exactly the data payloads, in order; comment frames dispatch nothing |
| EventStream.SingleFrames | src/app/api/notifications/stream/route.ts:17-25 | A single-line data frame dispatches its payload; the ping frame dispatches nothing |
| NotificationStream.Connection.Start | src/app/api/notifications/stream/route.ts:13-40 | Enqueues the connected frame, then registers the controller, then schedules the 30000 ms keep-alive; the registry gains exactly that entry |
| NotificationStream.Connection.Fire | src/app/api/notifications/stream/route.ts:23-30 | A live controller gets one more ping and the registry is untouched; a dead one clears the interval and is unregistered |
| NotificationStream.Connection.Cleanup | src/app/api/notifications/stream/route.ts:33-36 | Clears the interval, then removes the controller's entry from the registry |
| NotificationStream.Connection.Cancel | src/app/api/notifications/stream/route.ts:41-44 | The cancel reason holds no cleanup function, so nothing changes; it throws exactly for an `undefined` or `null` reason or a truthy `__cleanup` entry |
| NotificationStream.Get | src/app/api/notifications/stream/route.ts:6-54 | No user gives a 401 and no registration; otherwise the stream headers and a started, registered connection |
| NotificationStream.OnlyGreetingIsDispatched | src/app/api/notifications/stream/route.ts:17-25 | However many keep-alives are sent, the client dispatches only the connected event |
| NotificationStream.CleanupTwiceHarmless | src/app/api/notifications/stream/route.ts:27-35 | After the connection's own registration, a second removal leaves the registry as the first left it: back to its original contents |
| Markdown.EscapeHtmlIsPerChar | src/lib/markdown.ts:67-72 | The three replacement passes equal escaping each character on its own; `&` goes first, so nothing is escaped twice |
| Markdown.EscapeOne | src/lib/markdown.ts:67-72 | A single character escapes to its own entity, or stays as it is |
| Markdown.EscapeHtmlNoAngles | src/lib/markdown.ts:67-72 | Escaped text holds no `<` and no `>` |
| Markdown.UnescapeEscape | src/lib/markdown.ts:67-72 | Decoding the three entities recovers the input: escaping loses nothing |
| Markdown.TableLineIff | src/lib/markdown.ts:81 | A line belongs to a table exactly when its trimmed form starts with `\|` |
| Markdown.BlocksCorrect | src/lib/markdown.ts:76-101 | Grouping lines into runs keeps every line in order, and runs of table lines are maximal |
| Markdown.CellsShape | src/lib/markdown.ts:112-115 | Every cell taken from a row is trimmed, non-empty and holds no `\|` |
| Markdown.AppendCells | src/lib/markdown.ts:117-128 | The cell loop appends each cell wrapped in the given tags, in order |
| Markdown.BuildTable | src/lib/markdown.ts:106-134 | The loop produces the table's HTML: a header row from the first line, then one body row per remaining line |
| Markdown.DataRowsNoSeparator | src/lib/markdown.ts:87 | No separator line ever becomes a table row |
| Markdown.ConsumeLine | src/lib/markdown.ts:80-97 | One line of the loop: a table line opens or extends the current run and is kept unless it is a separator; any other line closes an open run into its table and passes through |
| Markdown.RenderTables | src/lib/markdown.ts:74-104 | The line loop produces the text with each run of table lines replaced by its table |
| Markdown.NoTablesUnchanged | src/lib/markdown.ts:74-104 | Text with no table line passes through unchanged |
| Markdown.NoTableLines | src/lib/markdown.ts:74-104 | Lines with no table line render to themselves |
| AiChat.ParseChat | src/app/api/ai/chat/route.ts:7-10 | A body parses iff it has no issues, and the parsed fields are the body's strings |
| AiChat.AcceptedBodies | src/app/api/ai/chat/route.ts:7-10 | A body is accepted iff the conversation id is non-empty and the message has 1 to 5000 characters |
| AiChat.RefusedBodies | src/app/api/ai/chat/route.ts:7-10 | A non-object, or a body missing either field, is refused |
| AiChat.ChatGuards | src/app/api/ai/chat/route.ts:12-29 | 401 without a user, then 422 with the issues, then 404 exactly when the conversation is not the user's |
| AiChat.ChatSavesTwo | src/app/api/ai/chat/route.ts:32-82 | An accepted chat stores the user's message and then the mock reply, and streams the reply's words followed by done, with the stream headers |
| AiChat.StreamWords | src/app/api/ai/chat/route.ts:56-73 | The loop writes one chunk frame per word, then the done frame |
| AiChat.StreamAnalysis | src/app/api/ai/analyze/route.ts:60-83 | The loop writes the meta frame, one chunk per word, then done |
| AiChat.ChunksRebuildReply | src/app/api/ai/chat/route.ts:54-61 | Concatenating the chunk texts (a space before every word but the first) gives back the reply exactly |
| AiChat.ClientRebuildsReply | src/components/ai/chat-widget.tsx:141-142 | The widget's accumulation of chunk contents over the chat events yields the reply |
| AiChat.ClientRebuildsAnalysis | src/app/api/ai/analyze/route.ts:62-82 | The same holds for the analysis stream; the meta event adds nothing |
| AiChat.ChatEventsShape | src/app/api/ai/chat/route.ts:58-71 | One chunk per word, in order, then exactly one done event, at the end |
| AiChat.WireCarriesEvents | src/app/api/ai/chat/route.ts:61-70 | With single-line encodings, the client receives each event's encoding once, in order |
| AiChat.ChatTranscript | src/app/api/ai/chat/route.ts:32-71 | What the client accumulates from the stream is exactly the stored assistant message |
| AiMock.ReplyText | src/lib/ai-mock.ts:7-33 | Each canned reply begins with its own fifteen-character opening |
| AiMock.ReplyTextInjective | src/lib/ai-mock.ts:7-33 | Different replies have different texts |
| AiMock.FirstMatch | src/lib/ai-mock.ts:38-42 | The position of the first entry with a matching keyword, or the table's length when none matches |
| AiMock.LookupFirst | src/lib/ai-mock.ts:38-42 | The first matching entry's reply is chosen |
| AiMock.LookupFallback | src/lib/ai-mock.ts:38-44 | For a table without the fallback, the fallback is chosen iff no keyword matches |
| AiMock.GetMockAIResponse | src/lib/ai-mock.ts:35-45 | The answer is always one of the canned replies |
| AiMock.TextOfReply | src/lib/ai-mock.ts:35-45 | The answer is a reply's text iff that reply is the one selected |
| AiMock.FirstMatchWins | src/lib/ai-mock.ts:36-42 | When entry i matches first, its reply is returned |
| AiMock.NoFallbackInTable | src/lib/ai-mock.ts:7-31 | The table never lists the default reply |
| AiMock.FallbackIffNoKeyword | src/lib/ai-mock.ts:35-45 | The default reply is returned iff no keyword occurs in the lower-cased message |
| AiMock.CaseInsensitive | src/lib/ai-mock.ts:36 | Upper- or lower-casing the message does not change the answer |
| AiMock.RevenueBeatsCustomer | src/lib/ai-mock.ts:7-17 | A message mentioning revenue gets the revenue reply, whatever else it mentions |
| AnalyticsExport.BuildRevenueCsv | src/app/api/analytics/export/route.ts:15-24 | The loop writes the header, then one comma-joined line per invoice |
| AnalyticsExport.BuildCustomersCsv | src/app/api/analytics/export/route.ts:25-34 | The loop writes the header, then one line per customer with name, email and company quoted |
| AnalyticsExport.Export | src/app/api/analytics/export/route.ts:5-43 | 401 without a user; otherwise the body for the type and the file name `<type>-export-<date>.csv` |
| AnalyticsExport.ExportTypes | src/app/api/analytics/export/route.ts:10-35 | Without a type the revenue CSV is produced; an unknown type gives an empty body |
| AnalyticsExport.FilenameStartsWithType | src/app/api/analytics/export/route.ts:40 | The file name starts with the export type followed by `-export-` |
| AnalyticsExport.RevenueLines | src/app/api/analytics/export/route.ts:15-24 | Without line breaks in fields, the file has the header, exactly one line per invoice in order, and a final line feed |
| AnalyticsExport.CustomerLinesCount | src/app/api/analytics/export/route.ts:25-34 | The same for the customers file |
| AnalyticsExport.InvoiceRowFields | src/app/api/analytics/export/route.ts:23 | Without commas in fields, a revenue row splits back into its five fields; an unpaid invoice's last field is empty |
| AnalyticsExport.CustomerRowFields | src/app/api/analytics/export/route.ts:33 | Without commas in fields, a customer row splits back into its six fields; a missing company reads `""` |
| ApiHelpers.SuccessResponseDefaults | src/lib/api-helpers.ts:10-12 | The status defaults to 200 and the body is the data |
| ApiHelpers.ErrorResponseDefaults | src/lib/api-helpers.ts:14-18 | The status defaults to 400; the body carries the message, and details exactly when given |
| ApiHelpers.PaginationDefaults | src/lib/api-helpers.ts:26-31 | No parameters give page 1, limit 10 and skip 0 |
| ApiHelpers.PaginationBounds | src/lib/api-helpers.ts:26-31 | The page is at least 1 and the limit between 1 and 100; in-range values are kept; skip is (page-1)*limit |
| ApiHelpers.PaginationSkip | src/lib/api-helpers.ts:29 | Skip is never negative, and the next page starts exactly one limit further on |
| Validations.ParseCustomerCreate | src/lib/validations/customer.ts:3-8 | A body parses iff the create schema finds no issue |
| Validations.CustomerCreateIff | src/lib/validations/customer.ts:3-8 | The create schema accepts exactly: name of 1 to 100 characters, an e-mail address, a company that is missing or at most 100 characters, a status that is missing or one of the three |
| Validations.CustomerCreateNameRequired | src/lib/validations/customer.ts:4 | A missing name, or one of 101 characters, is refused |
| Validations.CustomerCreateStatusAbsent | src/lib/validations/customer.ts:7 | A body without a status parses with the status left absent |
| Validations.CustomerUpdatePartial | src/lib/validations/customer.ts:10-15 | The update schema accepts `{}` and a body holding only a name |
| Validations.NullCompany | src/lib/validations/customer.ts:5-13 | A null company is refused by create and accepted by update |
| Validations.CreateImpliesUpdate | src/lib/validations/customer.ts:3-15 | Every body create accepts, update accepts too |
| Validations.RoleUpdateIff | src/lib/validations/team.ts:3-5 | A role update is accepted iff the role is ADMIN, MANAGER or MEMBER |
| Validations.InviteIff | src/lib/validations/team.ts:7-10 | An invite needs an e-mail address; its role is missing, MANAGER or MEMBER, so ADMIN and OWNER are refused |
| CustomersRoute.BuildWhere | src/app/api/customers/route.ts:25-39 | The filter is scoped to the organization; it searches name, email and company iff the search is non-empty; it filters by status iff the status is known |
| CustomersRoute.OrderField | src/app/api/customers/route.ts:22-42 | The sort field is always an allowed one, and it is the requested field iff that field is allowed |
| CustomersRoute.SortOrder | src/app/api/customers/route.ts:23 | Ascending exactly when "asc" is asked for, otherwise descending |
| CustomersRoute.TotalPages | src/app/api/customers/route.ts:60 | The page count is the least number of pages holding all rows; zero exactly when there are none |
| CustomersRoute.TotalPagesUnique | src/app/api/customers/route.ts:60 | Any page count that holds all rows with no empty page is the computed one |
| CustomersRoute.TotalPagesExamples | src/app/api/customers/route.ts:60 | 25 rows give 3 pages of 10, 0 give 0, 30 give 3 |
| CustomersRoute.List | src/app/api/customers/route.ts:14-63 | 401 without a user; otherwise the organization's rows, matched case-insensitively on name, e-mail or company when a search is given and on the status when it is a known one, in the allowed order, with skip and take from the page and the pagination block for the total |
| CustomersRoute.CreateGuards | src/app/api/customers/route.ts:65-99 | 401, then 422 with the issues; otherwise 201 with a customer in the user's organization, its status defaulting to ACTIVE |
| Analytics.Days | src/app/api/analytics/route.ts:10-11 | The period is the requested one clamped to 1..365, 30 by default |
| Analytics.StatusCountsSum | src/app/api/analytics/route.ts:35-72 | With known statuses, the three status counts add up to the number of customers |
| Analytics.CountStatusCounts | src/app/api/analytics/route.ts:35-36 | A status count is the number of customers with that status |
| Analytics.BuildBuckets | src/app/api/analytics/route.ts:48-54 | The bucket loop produces the month-keyed revenue map `Buckets` |
| Analytics.BucketContents | src/app/api/analytics/route.ts:48-54 | A month has a bucket iff some PAID invoice was issued in it, and the bucket holds that month's PAID total |
| Analytics.BucketsTotal | src/app/api/analytics/route.ts:39-54 | The buckets sum to the total of PAID invoices |
| Analytics.SortKeeps | src/app/api/analytics/route.ts:57 | Sorting the month keys gives a sorted sequence with the same members |
| Analytics.TimelineKeys | src/app/api/analytics/route.ts:56-57 | The timeline's keys are exactly the bucket months |
| Analytics.TimelineFacts | src/app/api/analytics/route.ts:56-61 | One point per month, in ascending order, each carrying its formatted month and the month's revenue; the points sum to the PAID total |
| Analytics.LeadingDigits | src/app/api/analytics/route.ts:96-100 | The longest digit prefix, as `parseInt` reads it |
| Analytics.FormatMonthOfKey | src/app/api/analytics/route.ts:96-100 | "YYYY-MM" renders as the month's short name and the year; months outside 1..12 render as "undefined" |
| Analytics.ParseTwoDigits | src/app/api/analytics/route.ts:96-100 | Parsing a two-digit month gives the month back |
| Analytics.RoundDiv | src/app/api/analytics/route.ts:82-84 | Rounds a/b to the nearest integer, halves upward, as `Math.round` does |
| Analytics.ChurnTenths | src/app/api/analytics/route.ts:37-84 | The churn rate in tenths of a percent, rounded; 0 without customers |
| Analytics.ChurnRange | src/app/api/analytics/route.ts:37-84 | The churn rate lies between 0 and 100 percent |
| Analytics.MrrExtremes | src/app/api/analytics/route.ts:82 | No revenue months give MRR 0; a single month gives the whole PAID total |
| Analytics.GenerateDailyActive | src/app/api/analytics/route.ts:102-119 | min(days,30)+1 points, oldest first, each with its day's label and base users plus the random term |
| Analytics.UsersBounds | src/app/api/analytics/route.ts:109-111 | Weekend days have 90 to 149 users, weekdays 250 to 309 |
| Analytics.Get | src/app/api/analytics/route.ts:5-94 | 401 without a user; otherwise the period, the KPIs (MRR, new customers, churn, NRR, revenue, active count), the timeline, the status distribution, and the daily series: one point per day from min(days, 30) days ago to today, each the weekday base plus the random draw less 30 |
| BillingRoute.SubscriptionStatus | src/app/api/billing/subscription/route.ts:71-79 | The FREE plan is CANCELED; every other plan is ACTIVE |
| BillingRoute.PlanIssuesIff | src/app/api/billing/subscription/route.ts:8-10 | A body is accepted iff its plan is FREE, PRO or ENTERPRISE |
| BillingRoute.GetInfo | src/app/api/billing/subscription/route.ts:12-31 | 401 iff there is no user; otherwise the subscription, with the plan defaulting to FREE and the name to "" |
| BillingRoute.PutGuards | src/app/api/billing/subscription/route.ts:33-46 | 401, then 403 for a non-admin, then 422 with the issues |
| BillingRoute.PutChangesPlan | src/app/api/billing/subscription/route.ts:48-101 | An admin's valid change sets the organization and subscription plan, updates an existing subscription or creates one, and notifies the user |
| ProfileRoute.PutGuards | src/app/api/settings/profile/route.ts:27-36 | 401 without a user, then 422 with the issues |
| ProfileRoute.EmailConflict | src/app/api/settings/profile/route.ts:42-51 | 409 when another user holds the e-mail; the user's own address is no conflict |
| ProfileRoute.PasswordChecks | src/app/api/settings/profile/route.ts:54-69 | A new password needs the current one (400), and a wrong current one is refused (400) |
| ProfileRoute.NoChanges | src/app/api/settings/profile/route.ts:74-76 | A body with no name, e-mail or new password is refused with "No changes to save" |
| ProfileRoute.SavedFields | src/app/api/settings/profile/route.ts:38-82 | A saved update writes exactly the given fields; the password only as the hash of the new one, after the current one matched |
| ProfileRoute.UpdateDataFields | src/app/api/settings/profile/route.ts:38-72 | `updateData` holds `name`, `email` and `password` exactly when each was supplied non-empty, with the supplied value (the new password as its hash), and no other key |
| ProfileRoute.SaveSaves | src/app/api/settings/profile/route.ts:42-82 | A successful save writes `updateData`, which is non-empty, and sets a new password only after the current one matched the stored hash |
| OrganizationRoute.OrgData | src/app/api/settings/organization/route.ts:48-51 | The update holds exactly the string-valued name and slug of the body |
| OrganizationRoute.SlugIff | src/app/api/settings/organization/route.ts:7-10 | A slug is accepted iff it is missing, or has at most 50 characters of lower-case letters, digits and dashes; "My Org" is refused |
| OrganizationRoute.PutGuards | src/app/api/settings/organization/route.ts:23-36 | 401, then 403 for a non-admin, then 422 with the issues |
| OrganizationRoute.SlugIssueCount | src/app/api/settings/organization/route.ts:9 | A string slug gets one "slug" issue per failed check (length, pattern), two for the empty slug; a non-string slug gets one |
| OrganizationRoute.SlugConflict | src/app/api/settings/organization/route.ts:39-61 | 409 iff the slug belongs to another organization; otherwise the own organization is updated with the body's fields |
| InviteRoute.PostGuards | src/app/api/team/invite/route.ts:8-30 | 401, then 403 for a non-admin, then 422 with the issues, then 409 when the e-mail is taken |
| InviteRoute.InviteCreates | src/app/api/team/invite/route.ts:36-63 | 201 with a member in the inviter's organization, the temporary password hash, the role defaulting to MEMBER, and the name the part of the address before `@` |
| Middleware.Decide | src/middleware.ts:12-26 | A redirect to the login page happens iff the path is not public and the request is unauthenticated; the callback is the path |
| Middleware.PublicPathIff | src/middleware.ts:4-10 | A path is public iff it is "/", "/login" or "/api/auth", or lies below one of them |
| Middleware.Examples | src/middleware.ts:4-26 | /login and /api/auth/session are public, /loginx and /dashboard are not; /dashboard redirects only when unauthenticated |
| Translations.WalkLoop | src/hooks/use-translations.ts:29-37 | The key-walking loop agrees with the recursive lookup `Walk` |
| Translations.T | src/hooks/use-translations.ts:15-51 | `t` returns the specification's translation: the found string with its parameters substituted, else the key |
| Translations.WalkAppend | src/hooks/use-translations.ts:16-37 | Walking a namespace and then a key is walking the joined path |
| Translations.NamespaceIsPrefix | src/hooks/use-translations.ts:16-37 | A namespaced key finds what the dotted key `namespace.key` would |
| Translations.MissingFallsBack | src/hooks/use-translations.ts:29-39 | A missing or non-string entry yields the key itself |
| Translations.MissingNamespace | src/hooks/use-translations.ts:18-26 | An unknown namespace yields the key itself |
| Translations.NestedEntry | src/hooks/use-translations.ts:15-51 | A string stored under namespace and key is what `t` returns |
| Translations.SubstituteAbsent | src/hooks/use-translations.ts:42-48 | Parameters whose placeholders do not occur leave the text unchanged |
| Slot.MergeProps | src/lib/slot.tsx:8-37 | The merge loop produces `Merged`: handlers chained, styles combined, class names joined, other props from the child |
| Slot.PlainProps | src/lib/slot.tsx:8-37 | A prop is present iff either side has it; the child's plain props win; the slot's props survive where the child has none |
| Slot.HandlersChain | src/lib/slot.tsx:18-26 | Two handlers run child first, then slot; a handler on one side alone is kept |
| Slot.StylesMerge | src/lib/slot.tsx:27-28 | Style keys are the union of both sides, with the child's value winning |
| Slot.ClassNamesJoin | src/lib/slot.tsx:29-33 | Two class names are joined with a space; an empty one contributes nothing |
| ToastStore.ToastIdInjective | src/stores/toast-store.ts:16-21 | Distinct counter values give distinct toast ids |
| ToastStore.Without | src/stores/toast-store.ts:28 | After removal no toast has the id, and none were added |
| ToastStore.WithoutAbsent | src/stores/toast-store.ts:28 | Removing an absent id changes nothing |
| ToastStore.WithoutKeeps | src/stores/toast-store.ts:28 | A toast survives removal iff it was there and has another id |
| ToastStore.WithoutDistinct | src/stores/toast-store.ts:28 | Removal keeps ids distinct |
| ToastStore.AddThenExpire | src/stores/toast-store.ts:20-27 | Adding a toast and letting it expire restores the list |
| ToastStore.Store.constructor | src/stores/toast-store.ts:16-19 | No toasts and a zero counter |
| ToastStore.Store.AddToast | src/stores/toast-store.ts:20-27 | Bumps the counter, appends the toast under a fresh id and returns it; ids stay distinct |
| ToastStore.Store.RemoveToast | src/stores/toast-store.ts:28 | Removes the toasts with that id and keeps the rest in order |
| ChatStore.Store.constructor | src/stores/chat-store.ts:14-15 | Closed, with no active conversation |
| ChatStore.Store.Toggle | src/stores/chat-store.ts:16 | Flips the open flag |
| ChatStore.Store.Open | src/stores/chat-store.ts:17 | Opens the panel |
| ChatStore.Store.Close | src/stores/chat-store.ts:18 | Closes the panel |
| ChatStore.Store.SetActiveConversation | src/stores/chat-store.ts:19 | Sets the active conversation |
| ChatStore.Store.OpenWithConversation | src/stores/chat-store.ts:20 | Opens the panel on the given conversation |
| SidebarStore.Store.constructor | src/stores/sidebar-store.ts:12-13 | Expanded, with the mobile drawer closed |
| SidebarStore.Store.Toggle | src/stores/sidebar-store.ts:14 | Flips the expanded flag |
| SidebarStore.Store.ToggleMobile | src/stores/sidebar-store.ts:15 | Flips the mobile drawer |
| SidebarStore.Store.CloseMobile | src/stores/sidebar-store.ts:16 | Closes the mobile drawer |
| UserRole.Store.constructor | src/hooks/use-user-role.ts:11 | The role starts as MEMBER, and the hook reports MEMBER |
| UserRole.Store.SetRole | src/hooks/use-user-role.ts:12 | Sets the role; the hook then reports the new role |
| RelativeTime.Bucket | src/components/layout/notification-bell.tsx:24-36 | "Just now" iff under a minute; otherwise the whole number of minutes (under 60), hours (under 24) or days elapsed |
| RelativeTime.Boundaries | src/components/layout/notification-bell.tsx:24-36 | The unit changes exactly at 1 minute, 1 hour and 1 day; future times read "just now" |
| NotificationsHook.MarkRead | src/hooks/use-notifications.ts:73-79 | Marks the items with that id read and leaves every other item as it was |
| NotificationsHook.MarkAll | src/hooks/use-notifications.ts:81-85 | Marks every item read and changes nothing else |
| NotificationsHook.UnreadAfterMark | src/hooks/use-notifications.ts:73-79 | With distinct ids, marking an item read lowers the unread count by one iff it was unread |
| NotificationsHook.UnreadAllRead | src/hooks/use-notifications.ts:81-85 | After marking all, nothing is unread |
| NotificationsHook.Refetches | src/hooks/use-notifications.ts:43-53 | The hook refetches iff the message parses and is not the connected greeting |
| NotificationsHook.GreetingIgnored | src/hooks/use-notifications.ts:43-53 | The greeting is ignored; other parsed messages trigger a refetch; a parse failure does nothing |
| NotificationsHook.Hook.constructor | src/hooks/use-notifications.ts:19-21 | No items, zero unread, loading |
| NotificationsHook.Hook.Fetched | src/hooks/use-notifications.ts:24-36 | A successful fetch replaces items and count; a failed one keeps them; loading ends either way |
| NotificationsHook.Hook.MarkAsRead | src/hooks/use-notifications.ts:73-79 | Marks the item read and lowers the count by one, floored at zero |
| NotificationsHook.Hook.MarkAllAsRead | src/hooks/use-notifications.ts:81-85 | Marks everything read and sets the count to zero |
| NotificationsHook.CountStaysExact | src/hooks/use-notifications.ts:73-79 | If the count was exact, marking an unread item keeps it exact |
| NotificationBell.Badge | src/components/layout/notification-bell.tsx:48-52 | No badge iff nothing is unread; "9+" iff more than 9; otherwise the single digit |
| NotificationBell.View | src/components/layout/notification-bell.tsx:60-111 | "Mark all" iff something is unread; the empty message iff there are no items; a mark button exactly on unread items; each item's time rendered |
| NotificationBell.NoButtonsAfterMarkAll | src/components/layout/notification-bell.tsx:60-111 | After marking all, no mark button and no "mark all" is shown |
| NotificationBell.Bell.constructor | src/components/layout/notification-bell.tsx:14-44 | The dropdown starts closed |
| NotificationBell.Bell.Click | src/components/layout/notification-bell.tsx:44 | The bell toggles the dropdown |
| NotificationBell.Bell.MouseDown | src/components/layout/notification-bell.tsx:14-22 | A press outside closes the dropdown; one inside changes nothing |
| RecentActivity.FormatRelativeTime | src/components/dashboard/recent-activity.tsx:33-46 | Under 30 days the relative bucket is shown, otherwise the locale date |
| RecentActivity.MonthCutoff | src/components/dashboard/recent-activity.tsx:33-46 | 29 days reads "29d ago"; 30 days switches to the date |
| RecentActivity.View | src/components/dashboard/recent-activity.tsx:76-111 | Loading shows five skeletons; otherwise the empty message iff there are no logs, else one entry per log with its label, details and time |
| RecentActivity.UnlabelledAction | src/components/dashboard/recent-activity.tsx:20-31 | An action is shown as itself iff the label table does not list it |
| KpiCard.GreenIffGoodDirection | src/components/dashboard/kpi-card.tsx:26-31 | The trend is green iff it goes up on a card other than Churn Rate, or down on Churn Rate; otherwise red |
| TeamTable.Initials | src/components/team/team-table.tsx:67-74 | At most two characters |
| TeamTable.InitialsOfNames | src/components/team/team-table.tsx:67-74 | "First Last" gives the two upper-cased first letters; one word gives one; a double space changes nothing |
| TeamTable.LettersFromParts | src/components/team/team-table.tsx:69-71 | Every initial is the first letter of some non-empty word of the name |
| TeamTable.RowPowers | src/components/team/team-table.tsx:90-156 | The role select and the remove menu appear iff an admin looks at someone else; "(you)" iff the row is the viewer's; no actions column for non-admins |
| TeamTable.State.constructor | src/components/team/team-table.tsx:55-56 | No removal pending and no role update in flight |
| TeamTable.State.AskRemove | src/components/team/team-table.tsx:147 | Sets the removal target and the dialog opens |
| TeamTable.State.CloseDialog | src/components/team/team-table.tsx:163 | Clears the removal target and the dialog closes |
| TeamTable.State.ConfirmRemove | src/components/team/team-table.tsx:176-178 | Hands the target's id, if any, to the removal; the dialog stays open while it is awaited |
| TeamTable.State.FinishRemove | src/components/team/team-table.tsx:178-179 | A resolved removal clears the target and closes the dialog; a thrown one (refused DELETE) leaves target and dialog as they were |
| TeamTable.State.BeginRoleChange | src/components/team/team-table.tsx:58-59 | Marks the member's role update as in flight |
| TeamTable.State.EndRoleChange | src/components/team/team-table.tsx:62-63 | Clears the in-flight marker |
| Sidebar.HrefsIndependent | src/components/layout/sidebar.tsx:19-27 | No navigation target other than Overview is a prefix of another |
| Sidebar.AtMostOneActive | src/components/layout/sidebar.tsx:53-56 | At most one navigation item is highlighted for any path |
| Sidebar.Highlights | src/components/layout/sidebar.tsx:53-56 | Customers is highlighted below its path; Overview only on /dashboard itself |
| CustomerPagination.ButtonsStayInRange | src/components/customers/customer-pagination.tsx:28-41 | An enabled button never leads outside 1..totalPages; with one page both are disabled |
| CustomerPagination.Plural | src/components/customers/customer-pagination.tsx:22 | "1 customer total" and "0 customers total" |
| CustomerPagination.PluralEnding | src/components/customers/customer-pagination.tsx:22 | For every count, the summary ends in "s total" iff the count is not 1 |
| CustomerPagination.EmptyListIsOnePage | src/components/customers/customer-pagination.tsx:35 | An empty list reads "of 1", the same as a one-page list |
| CustomersPage.SortClick | src/app/dashboard/customers/page.tsx:51-58 | Clicking a column sorts by it; the same column flips the order; a new column starts ascending |
| CustomersPage.SortTwice | src/app/dashboard/customers/page.tsx:51-58 | Two clicks on the same column restore its order; on a new one they give descending |
| CustomersPage.FilterChoiceRoundTrip | src/app/dashboard/customers/page.tsx:82-121 | The "ALL" choice and the empty filter correspond, and the select value round-trips |
| CustomersPage.Page.constructor | src/app/dashboard/customers/page.tsx:17-34 | Page 1, empty search and filter, newest first, dialog closed; the first render's timer for "" is pending |
| CustomersPage.Page.SetSearch | src/app/dashboard/customers/page.tsx:28-34 | Sets the raw text; a changed text queues one more timer carrying it, none is cancelled, and the list query stays as it was |
| CustomersPage.Page.SearchSettled | src/app/dashboard/customers/page.tsx:28-34 | The oldest timer's text becomes the debounced search, even if newer text was typed, and the page resets to 1; after the last timer the debounced search is the typed text |
| CustomersPage.Page.HandleSort | src/app/dashboard/customers/page.tsx:51-58 | The sort becomes `NextSort` of the old sort and the clicked column |
| CustomersPage.Page.HandleStatusFilter | src/app/dashboard/customers/page.tsx:82-85 | Sets the filter ("ALL" as none) and resets to page 1 |
| CustomersPage.Page.SetPage | src/app/dashboard/customers/page.tsx:152 | Sets the page |
| CustomersPage.Page.HandleEdit | src/app/dashboard/customers/page.tsx:60-63 | Opens the dialog on the customer |
| CustomersPage.Page.HandleCreate | src/app/dashboard/customers/page.tsx:65-68 | Opens the dialog with no customer |
| CustomersPage.Page.SetDialogOpen | src/app/dashboard/customers/page.tsx:159 | Sets the dialog's open flag |
| CustomersPage.Page.HandleSubmit | src/app/dashboard/customers/page.tsx:70-76 | Submitting updates the edited customer, or creates one when none is edited |
| BillingPage.FindIndex | src/app/dashboard/billing/page.tsx:234-235 | The first plan with the name, or -1 exactly when none has it |
| BillingPage.ButtonRule | src/app/dashboard/billing/page.tsx:224-238 | "Current Plan" iff it is the current plan; otherwise the button targets the plan and reads "Upgrade" iff the plan lies above the current one |
| BillingPage.Extremes | src/app/dashboard/billing/page.tsx:224-238 | From FREE every other plan is an upgrade, from ENTERPRISE a downgrade; an unknown current plan makes every plan an upgrade |
| BillingPage.Opposite | src/app/dashboard/billing/page.tsx:224-238 | Moving from one plan to another is an upgrade iff the reverse move is a downgrade |
| BillingPage.PriceLine | src/app/dashboard/billing/page.tsx:360-361 | For the plan whose name is chosen, its price followed by its period; "" when nothing is chosen or no plan has the name |
| BillingPage.Badges | src/app/dashboard/billing/page.tsx:88-92 | The three invoice statuses have three distinct badges and others none; a subscription badge is "default" iff ACTIVE |
| BillingPage.Page.constructor | src/app/dashboard/billing/page.tsx:95-100 | FREE, with no pending choice and no change in flight |
| BillingPage.Page.Choose | src/app/dashboard/billing/page.tsx:232 | Records the chosen plan; the dialog opens iff the name is not empty |
| BillingPage.Page.CloseDialog | src/app/dashboard/billing/page.tsx:365 | Drops the choice and the dialog closes |
| BillingPage.Page.StartPlanChange | src/app/dashboard/billing/page.tsx:134-141 | Without a choice nothing happens; otherwise it marks the change in flight and requests the chosen plan |
| BillingPage.Page.FinishPlanChange | src/app/dashboard/billing/page.tsx:142-163 | Success adopts the new plan with a "Plan Updated" toast; a refusal keeps it with an "Error" toast; a thrown request keeps it with no toast; in every case the change stops and the dialog closes |
| SettingsPage.ProfileBody | src/app/dashboard/settings/page.tsx:135-141 | The body holds the name and e-mail exactly when they differ from the loaded profile, and both passwords exactly when a new one is typed |
| SettingsPage.NothingToSave | src/app/dashboard/settings/page.tsx:135-146 | The body is empty iff the profile is loaded, unchanged, and no new password is typed |
| SettingsPage.ToggleDescriptionsDiffer | src/app/dashboard/settings/page.tsx:184-198 | Enabling and disabling a channel are described differently |
| SettingsPage.DeleteOrgSteps | src/app/dashboard/settings/page.tsx:171-182 | Step 0 advances to 1; the mock deletion happens iff at step 1 the typed text equals the organization's name, and then everything resets |
| SettingsPage.DeleteAtStepTwoInert | src/app/dashboard/settings/page.tsx:171-182 | At step 2, the only step whose dialog calls the handler, pressing delete changes nothing |
| SettingsPage.Page.constructor | src/app/dashboard/settings/page.tsx:58-80 | Nothing loaded, empty fields, e-mail notifications on, push off, step 0 |
| SettingsPage.Page.Loaded | src/app/dashboard/settings/page.tsx:86-105 | Each successful fetch fills its form; a failed one leaves it |
| SettingsPage.Page.StartSaveOrg | src/app/dashboard/settings/page.tsx:111-118 | Marks the save in flight and sends the form's name and slug |
| SettingsPage.Page.FinishSaveOrg | src/app/dashboard/settings/page.tsx:119-130 | Success stores the organization with a confirmation toast; a refusal keeps it with an error toast; a thrown request keeps it with no toast; saving ends |
| SettingsPage.Page.StartSaveProfile | src/app/dashboard/settings/page.tsx:132-152 | An empty body shows "No Changes" and sends nothing; otherwise it sends the body and marks the save in flight |
| SettingsPage.Page.FinishSaveProfile | src/app/dashboard/settings/page.tsx:154-168 | Success refreshes the profile and clears both passwords with a confirmation toast; a refusal keeps everything with an error toast; a thrown request keeps everything with no toast; saving ends |
| SettingsPage.Page.HandleNotificationToggle | src/app/dashboard/settings/page.tsx:184-198 | Flips exactly the chosen channel and toasts its new state |
| SettingsPage.Page.AskDelete | src/app/dashboard/settings/page.tsx:453 | Opens step 1 |
| SettingsPage.Page.ContinueDelete | src/app/dashboard/settings/page.tsx:476 | Moves to step 2 |
| SettingsPage.Page.CloseFirstDialog | src/app/dashboard/settings/page.tsx:462-473 | Back to step 0 |
| SettingsPage.Page.CloseSecondDialog | src/app/dashboard/settings/page.tsx:485-499 | Back to step 0 with the confirmation text cleared |
| SettingsPage.Page.TypeConfirmation | src/app/dashboard/settings/page.tsx:495 | Records the typed confirmation |
| SettingsPage.Page.DeleteDisabled | src/app/dashboard/settings/page.tsx:505 | The button is enabled exactly when `handleDeleteOrg` would delete if it were at step 1; it is shown only at step 2, where `DeleteAtStepTwoInert` says pressing it does nothing |
| SettingsPage.Page.HandleDeleteOrg | src/app/dashboard/settings/page.tsx:171-182 | Moves as `DeleteOrg` says, with the mock-deletion toast exactly when it deletes |

## Left out

- Network, database and authentication I/O are parameters: the session user, rows, look-ups and fetch outcomes. Prisma's filtering, ordering and counting are taken as given.
- Timers are explicit method calls. Wall-clock scheduling and concurrent interleavings are not modelled beyond splitting each asynchronous handler into a Start and a Finish step.
- `JSON.stringify`, `JSON.parse`, `TextEncoder` and bcrypt are opaque function parameters or pre-parsed `Json` values.
- Floating point: the churn rate, MRR and NRR are exact rationals rounded half-up (`RoundDiv`). Digits after JavaScript's float rounding are not modelled.
- `Math.random` is the `draw` parameter. Locale date formatting is the `dateLabel`/`localeDate` parameter.
- `parseInt`'s handling of signs, whitespace and NaN is outside the model: page, limit and period arrive as optional integers. The month parse covers only the digit prefix.
- String lengths count code points, not UTF-16 units. Case mapping is ASCII only. Only '\n' ends a line.
- The remaining regular-expression passes of renderMarkdown (headings, bold, italics, code, lists, links) are not modelled. Only HTML escaping and table rendering are.
- The analyze route's guards and its report text are not modelled. Only its meta/chunk/done stream is.
- The middleware's `matcher` configuration is not modelled.
- The translation hook models substitution only for placeholders whose keys hold none of RegExp's special characters. Replacement patterns with `$` are not modelled.
- Keys inherited from `Object.prototype` are not considered by `in` on the action-label table or the translation messages.
- Slot: the ref composition and the `cloneElement` call are left out. Only `mergeProps` is modelled.
- The SSE client's reconnection and its `onerror` handler are left out. The language change handler of the settings page, all console logging, and the layout and styling of components are left out too.
- NotificationsHook.Hook.MarkAsRead: decrements the count even when the item was already read, as the source does. Only `CountStaysExact` ties the count to the items, and only for an unread item.
- Slot.MergeProps: a function used as a class name is written as "function", where JavaScript writes the function's source text. A string spread into the merged style gives no entries, where JavaScript spreads its characters under the keys "0", "1", and so on.
- AnalyticsExport.Export: fields are not escaped, so the file is not RFC 4180 CSV. The row round-trip lemmas require that no field holds a comma or a line break.
- Analytics.Get: `allCustomers` is the number of customer rows passed in.
- Notifications.BroadcastNoFailures: states the broadcast's result only when no write fails. Failed writes are covered by the per-user `Dispatch` lemmas.
- Validations.CustomerCreateIff: a zod issue is reduced to the path of its field. Messages and codes are not modelled.
- Role-based hiding of navigation items is not implemented by the sidebar source, so nothing models it.
