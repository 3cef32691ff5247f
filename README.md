# Marathon push notifications, modelled in Dafny

This project models the decision logic of a Firebase Functions file that sends push
notifications about marathon events (`functions/index.js`). The file has four parts:

- **Origin allowlist** (`corsOptionsDelegate`). The HTTP trigger's CORS options are permissive
  (origin reflected, methods POST/OPTIONS, header Content-Type) for the three allowlisted
  origins. Every other origin gets `{ origin: false }`. This is module `Cors`.
- **Dispatcher** (`sendPushNotification`). It builds one multicast message
  `{ data: { title, body, icon }, tokens }` and hands it to the push gateway. It then
  normalises the outcome into `{ success: true, response }` or `{ success: false, error }`.
  The HTTP handler maps that to status 200 or 500. This is module `Dispatch`.
  The gateway is a parameter: a function from the message to `Ok(report)` or to the thrown
  error's message.
- **Subscriber resolver** (`getSubscribers`). It takes the users whose `marathons` array holds
  the id, projects `token`, and drops falsy values. A failing query becomes the error
  "Failed to retrieve subscribers". This is module `Subscribers`. The `users` collection is an
  in-memory sequence of documents, or `Unreachable`.
- **Daily trigger** (`scheduledPushNotifications`). This is module `Scheduler`.
  - It computes "today" and "tomorrow" (module `Calendar`: the next calendar day, with month
    and year rollover). It formats both with `toLocaleDateString`.
    `toLocaleDateString` is a parameter `fmt: Date -> string` and is left uninterpreted.
  - It walks the `marathons` documents in snapshot order.
  - For each document it checks two conditions independently: registration start equals
    today, and race date equals tomorrow.
  - For each condition that holds, it resolves the subscribers and dispatches only to a
    non-empty list.
  - The first exception ends the run with `{ success: false, error }`. Otherwise the run ends
    with `{ success: true }`.
  - The method `Scheduler.ScheduledPushNotifications` is the loop. It returns the run's result
    and the log of messages handed to the gateway, and it is proved equal to the
    specification function `Scheduler.ScheduledRun`. The lemmas are stated about that function.

Two details of the source are kept as written:

- **Argument binding.** The two scheduled calls pass three arguments,
  `(name, body, tokens)`, to the four-parameter `sendPushNotification(title, body, icon, tokens)`.
  So the token list lands in the message's `data.icon`, and the message's `tokens` field is
  `undefined`. `Scheduler.ScheduledMessage` records this binding, and
  `Scheduler.ScheduledDispatchesWellFormed` proves that every scheduled message has it.
  The HTTP handler passes all four fields in their own places (`Dispatch.HandleRequest`).
- **Absent fields.**
  - A marathon without `registrationPeriod` makes `marathonData.registrationPeriod.startDate`
    throw a `TypeError`, which aborts the run.
  - An absent `startDate` or `date` does not throw. `new Date(undefined)` formats as
    "Invalid Date".
  - A field the request body lacks is `undefined`.

The model compares formatted strings, as the source does. `Scheduler.DueIffSameDay` shows
that this is calendar-date equality when the formatter tells dates apart and never yields
"Invalid Date". Without the second condition, an absent start date would match a today that
formats as "Invalid Date".

Where each piece of the source lives in the model:

- `getFormattedDate` (functions/index.js:65) is `Scheduler.FormattedDate`.
- The message literal (functions/index.js:36-43) is `Dispatch.BuildMessage`.
- `filter(Boolean)` (functions/index.js:141) is `Js.Truthy`.
- The `array-contains` filter (functions/index.js:136) is `Subscribers.ArrayContains`.
- One `if` of the loop, from resolving the subscribers to the dispatch (functions/index.js:99-106 and :113-120), is `Scheduler.Notify`. The method `Scheduler.NotifySubscribers` carries it out.
- One iteration of the loop (functions/index.js:88-121) is `Scheduler.ProcessEvent`.
- `todayStr` and `tomorrowStr` (functions/index.js:77-82) are computed by `Scheduler.MakeContext`, with tomorrow as `Calendar.Successor` of today.
- The registration-open comparison (functions/index.js:93-98) is `Scheduler.RegistrationDue`.
- The day-before comparison (functions/index.js:109-112) is `Scheduler.DayBeforeDue`.
- The loop over the snapshot is `Scheduler.Schedule`, and the whole run is `Scheduler.ScheduledRun`.

## Model

| member | source | states |
|---|---|---|
| `Cors.IndexOf` | functions/index.js:18 | `indexOf` returns -1 exactly when the origin is absent from the list; otherwise it returns the first position holding it |
| `Cors.CorsOptionsFor` | functions/index.js:13-30 | the options are permissive (origin true, POST/OPTIONS, Content-Type) exactly when the header is present and allowlisted; otherwise they are `{ origin: false }` with no other field |
| `Cors.AllowedOriginsExactly` | functions/index.js:10-26 | the permissive options go to exactly the three literal origins; every other origin, and a missing header, is disabled |
| `Calendar.DaysInMonth` | functions/index.js:78-79 | month lengths are 28 to 31 days; 29 happens exactly for February of a Gregorian leap year |
| `Calendar.Successor` | functions/index.js:77-79 | tomorrow is a valid date after today; it is the first of a month exactly when today is the last day of its month |
| `Calendar.SuccessorIsNext` | functions/index.js:78-79 | no valid date lies strictly between today and tomorrow |
| `Dispatch.SendPushNotification` | functions/index.js:34-53 | the message's data and tokens are the four parameters; the result is success with the gateway's report exactly when the gateway accepts, and failure with the thrown message otherwise; nothing propagates |
| `Dispatch.StatusFor` | functions/index.js:60 | status 200 exactly for a success result, 500 exactly for a failure result |
| `Dispatch.HandleRequest` | functions/index.js:56-61 | the request's tokens, title, body and icon reach the gateway's message in their own places; the reply is 200 with the report when the gateway accepts and 500 with its error message when it throws |
| `Dispatch.StatusAgreesWithBody` | functions/index.js:59-60 | the reply's status is 200 exactly when its JSON body says success, and 500 exactly when it says failure |
| `Subscribers.SubscriberTokens` | functions/index.js:139-141 | the resolver's list is no longer than the user list and holds only truthy values |
| `Subscribers.GetSubscribers` | functions/index.js:132-148 | the resolver fails exactly when the query fails, with the message "Failed to retrieve subscribers"; otherwise it returns only truthy tokens |
| `Subscribers.SubscriberTokensExact` | functions/index.js:136-143 | token k is the token of the k-th user, in store order, who follows the marathon and has a truthy token; a user is used exactly when it qualifies, so the result is a subsequence of the users' tokens |
| `Subscribers.SubscriberTokensMembership` | functions/index.js:136-141 | a value is returned exactly when some user following the marathon holds it as a truthy token |
| `Scheduler.ScheduledPushNotifications` | functions/index.js:77-128 | the loop's result and its log of gateway messages equal the specification `ScheduledRun`, whatever the gateway answers |
| `Scheduler.NotifySubscribers` | functions/index.js:99-106 | one triggered condition sends at most one message; it throws exactly when the store fails; it sends to a non-empty resolved list and to no empty one |
| `Scheduler.ScheduleAppend` | functions/index.js:87-121 | events are processed in snapshot order: a later stretch runs only if the earlier one raised nothing, and its messages follow the earlier ones |
| `Scheduler.AbortAt` | functions/index.js:84-128 | an exception at event k ends the run with that error; events after k are never processed |
| `Scheduler.ScheduleSucceedsIff` | functions/index.js:84-124 | the loop completes without exception exactly when no event raises one |
| `Scheduler.Notify` | functions/index.js:99-106 | one triggered condition sends at most one message |
| `Scheduler.ProcessEvent` | functions/index.js:88-121 | one event yields at most two gateway calls |
| `Scheduler.ScheduleDispatchBound` | functions/index.js:87-121 | every event of the snapshot yields at most two gateway calls, so the run makes at most 2·(number of events) calls |
| `Scheduler.ScheduledDispatchesWellFormed` | functions/index.js:99-119 | every scheduled message has one of the two fixed bodies and a non-empty list of truthy tokens in `icon`, and no `tokens`; when the users store fails, nothing is sent |
| `Scheduler.EventDispatches` | functions/index.js:93-121 | when the store answers, an event sends the registration-open message iff its start date formats as today, and the day-before message iff its date formats as tomorrow; each needs a non-empty subscriber list, each has the event name as title and its fixed body, and registration comes first |
| `Scheduler.EventWithoutPeriodAborts` | functions/index.js:93-95 | a marathon without a registration period raises the TypeError before any check or call |
| `Scheduler.EventWithStoreFailure` | functions/index.js:98-119 | when the users store fails, an event sends nothing; it raises "Failed to retrieve subscribers" exactly when one of its conditions holds |
| `Scheduler.DueIffSameDay` | functions/index.js:65 | when the formatter is injective and never yields "Invalid Date", "registration due" means the start date is today and "day before" means the race date is tomorrow |
| `Scheduler.RunResultIff` | functions/index.js:84-128 | a failing marathons query gives its own error and no calls; otherwise the run succeeds exactly when no event raised an exception |
| `Scheduler.RegistrationOpenScenario` | functions/index.js:93-124 | one marathon opening registration today and racing today, with three subscribers, gives exactly one call carrying the three tokens, the name and the registration body, and the run succeeds |

## Left out

- Platform wiring is not modelled: `admin.initializeApp`, the `onRequest`/`onSchedule` registration, the cron string and the time zone (functions/index.js:1-6, :56-57, :68-72).
- The `cors` middleware's internals are not modelled: preflight answers, headers, and whether the handler runs for a disabled origin. Only the options decision is modelled.
- The Firestore queries are replaced by values. `marathons` is a `Result` of documents. `users` is a store that answers every query of a run or fails every one.
- Subscribers.GetSubscribers: a store that fails only on some queries within one run is not modelled. As a consequence, the model has no run that sends for earlier marathons and then fails with "Failed to retrieve subscribers" on a later one. In the source, a query failing on the third marathon comes after the first two have sent (functions/index.js:99-105, :144-147). For the same reason, the second `ensures` of `Scheduler.ScheduledDispatchesWellFormed` (a failing store sends nothing) holds only because the store fails for the whole run.
- `sendEachForMulticast` is a function parameter. The model does not capture that it is called exactly once per dispatch, nor its own checks on the message (such as rejecting a missing `tokens` field).
- Logging (`console.log`/`console.error`) is not modelled. It is observability only.
- Locale, time zone and time of day in `Date` and `toLocaleDateString` are not modelled. Dates are calendar dates, and formatting is an uninterpreted function.
- Calendar.Successor: only `setDate(getDate() + 1)` is modelled, not `setDate` for arbitrary day numbers.
- How `new Date(x)` parses a stored field is not modelled. A stored date is a calendar date or absent.
- A `registrationPeriod` that is `null` or not an object is not modelled. Only an absent one is.
- JavaScript values are simplified. Numbers are reals, so NaN is left out. Plain objects do not occur.
- async/await and concurrency between invocations are not modelled. Each run is sequential.
