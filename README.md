# googlesync calendar core, modelled in Dafny

googlesync is a small web application. Users sign in with Google, and the
application copies each user's primary Google Calendar into a Supabase table
`calendar_events`. An administrator sees everyone's events on a month grid and,
for one day, in a day view with one column per person. The model covers the
parts of the application that make decisions or change stored state:

- `src/lib/googleCalendar.ts`:
  - the role bootstrap that runs when the OAuth callback returns with an
    access token (`signInWithGoogle`);
  - the renewal of the user's Google push-notification channel
    (`setupCalendarWebhook`);
  - the full-replace event sync (`fetchAndStoreEvents`).
- `supabase/functions/calendar-webhook/index.ts`: the edge function that
  receives Google's push notifications and answers with a status code and a
  JSON body.
- `src/App.tsx`:
  - which events the month grid and the day view show for a day;
  - how the day view groups them into columns and places each event on the
    24-hour timeline;
  - how `loadEvents` gates the sync on the user's role and maps the loaded rows.

Modules, one file each:

- `JsValues` (`js_values.dfy`): the JavaScript semantics the code relies on.
  - truthiness and `||` defaults;
  - template interpolation of `undefined`;
  - `instanceof Error` in `catch` blocks;
  - `Array.prototype.filter`, with its lemmas.
- `Store` (`store.dfy`): the two tables, as values (`Tables`) and as a
  `Database` object whose fields the operations change in place. It also holds
  the query shapes `.eq(...)` and `.single()` and the update of a user's
  webhook columns.
- `GoogleCalendar` (`google_calendar.dfy`): each operation appears twice.
  - A specification function on table snapshots: `SignInCallback`, `Webhook`,
    `Sync`. It returns the tables afterwards, the requests sent to Google and
    how the promise settled.
  - A method that performs the same steps on a `Database` (`SignInWithGoogle`,
    `SetupCalendarWebhook`, `FetchAndStoreEvents`, `ReplaceEvents`,
    `InsertItems`). Each method is proved to produce exactly the function's
    effect.
  - The answers of Supabase auth and of the Google HTTP endpoints are
    parameters (`CallbackEnv`, `WebhookEnv`, `SyncEnv`). So are the clock and
    the `crypto.randomUUID()` value.
- `CalendarWebhook` (`calendar_webhook.dfy`): the push receiver, as a function
  from the request, the `users` table and the possible faults to the response.
- `App` (`app.dfy`):
  - day selection, the badge text, the day-view layout arithmetic;
  - a `CalendarScreen` class whose `LoadEvents` method updates the screen's
    `events`, `loading` and `error` state.
- `DayViewGrouping` (`day_view_grouping.dfy`):
  - the `reduce` into a dictionary, as a loop over a map accumulator;
  - the dictionary keys in insertion order, which is what `Object.values`
    returns;
  - the loop is proved equal to the specification `Grouped`.
- `SyncProperties` (`sync_properties.dfy`): properties that span several calls
  or several files.

Instants are milliseconds. The webhook expiry is stored as an epoch instant
rather than as its ISO 8601 text. Every day in the screen model is
86,400,000 ms long.

Two details of the code that are easy to misread:

- The receiver answers a CORS preflight with status 200 and an empty body:
  `new Response(null, { headers })` sets no status, so the answer is 200, not
  204.
- A sync whose event list contains an item with a start but no `end` stops
  with a TypeError partway through. The user's old rows are already deleted at
  that point. The rows inserted before the bad item stay.

## Model

| member | source | states |
|---|---|---|
| GoogleCalendar.SignInCallback | src/lib/googleCalendar.ts:37-68 | an auth error, a missing user, or a lookup failure other than "no row" rejects with that error (non-`Error` values wrapped) and changes nothing; a user already in `users` resolves and leaves the tables unchanged; a user not yet in `users` is inserted as exactly one appended row, with role admin exactly when the email is `admin@example.com`, unless the insert fails, which rejects with that error and changes nothing; no Google request is made and events are untouched |
| GoogleCalendar.SignInWithGoogle | src/lib/googleCalendar.ts:37-68 | the step-by-step callback on the database has exactly the effect `SignInCallback` specifies |
| GoogleCalendar.Webhook | src/lib/googleCalendar.ts:176-251 | no authenticated user rejects with "No authenticated user"; a failed lookup of the user's row reads as no row; a stored expiry later than now, read by a lookup that succeeded, sends nothing and changes nothing; otherwise a stop request is sent exactly when a channel id is stored (with the stored id and the calendar id as resource), then a watch request with the fresh UUID, `web_hook` and an expiration of now + 604,800,000 ms; a non-ok watch rejects with "Failed to set up webhook: " and the provider message or status text, a rejected fetch with its reason, both without writing; success writes calendar id, channel id and expiry onto the user's row; events are never touched |
| GoogleCalendar.LookupFailureRenews | src/lib/googleCalendar.ts:182-244 | when the select of the user's row fails, the step sends only a watch request, with no stop request, even if a live channel is stored; an accepted watch overwrites the stored channel and resolves |
| GoogleCalendar.SetupCalendarWebhook | src/lib/googleCalendar.ts:176-251 | the step-by-step renewal on the database has exactly the effect `Webhook` specifies |
| GoogleCalendar.Sync | src/lib/googleCalendar.ts:98-174 | missing session, token or email reject in that order with their messages and no effect; a failed webhook step ends the sync with its effect; otherwise the events listing (primary, 100 results, ordered by start time, single events) follows the webhook requests; a rejected fetch rejects with its reason and a non-ok one with "Failed to fetch calendar events: " and the message, both leaving `calendar_events` as it was; a response without `items` deletes the user's rows and rejects with a TypeError; a response with `items` replaces the user's rows by the insert loop's rows and resolves exactly when no item with a start lacks an end; a resolved sync had an authorised session, an ok response with `items`, and no started item without an end |
| GoogleCalendar.FetchAndStoreEvents | src/lib/googleCalendar.ts:98-174 | the step-by-step sync on the database has exactly the effect `Sync` specifies |
| GoogleCalendar.ReplaceEvents | src/lib/googleCalendar.ts:150-169 | the user's rows are deleted, then the loop's rows appended; missing `items` leaves the delete done and rejects with a TypeError; users are untouched |
| GoogleCalendar.InsertItems | src/lib/googleCalendar.ts:157-169 | the loop appends exactly the rows `StoreItems` describes, in order, and rejects with a TypeError exactly when an item with a start lacks an end |
| GoogleCalendar.ToRow | src/lib/googleCalendar.ts:162-168 | every inserted row carries the session user's id and email |
| GoogleCalendar.ToRowColumns | src/lib/googleCalendar.ts:165-167 | title is the summary or "Untitled Event"; start is the start's `dateTime` or its `date` + `T00:00:00Z`; end is the end's `dateTime` or its `date` (interpolated, possibly `undefined`) + `T23:59:59Z` |
| GoogleCalendar.NewUserRow | src/lib/googleCalendar.ts:56-65 | the inserted row carries the auth user's id, email and metadata name, has role admin exactly when the email is `admin@example.com`, and has no calendar or webhook columns set |
| GoogleCalendar.StoreItems | src/lib/googleCalendar.ts:157-169 | computes the rows the insert loop writes, skipping items without a start, and whether the loop ran to the end; it stops at the first item with a start but no end, and `StoreItemsOwned`, `StoreItemsComplete`, `StoreItemsMapsStartedItems` and `StoreItemsStopsAtMissingEnd` state what it computes |
| GoogleCalendar.StartedItems | src/lib/googleCalendar.ts:158 | every item kept has a start; when none of the items lacks an end, all kept items can be mapped to rows |
| GoogleCalendar.RowsFor | src/lib/googleCalendar.ts:160-168 | one row per item, position by position |
| GoogleCalendar.StoreItemsOwned | src/lib/googleCalendar.ts:163-164 | every row the loop writes belongs to the session user |
| GoogleCalendar.StoreItemsComplete | src/lib/googleCalendar.ts:157-169 | the loop runs to the end exactly when no item with a start lacks an end |
| GoogleCalendar.StoreItemsMapsStartedItems | src/lib/googleCalendar.ts:157-169 | a complete loop writes exactly one row per item with a start, in provider order |
| GoogleCalendar.StoreItemsStopsAtMissingEnd | src/lib/googleCalendar.ts:157-169 | when item k is the first with a start but no end, the loop stops there, having written exactly one row per item with a start before k, in provider order |
| Store.ReplaceRows | src/lib/googleCalendar.ts:150-169 | deleting a user's rows and appending rows of that user leaves exactly the appended rows as theirs and every other user's rows unchanged |
| Store.UpdateWebhook | src/lib/googleCalendar.ts:237-244 | the update sets the three webhook columns on every row with the id and changes no other row |
| Store.UpdateWithoutRow | src/lib/googleCalendar.ts:237-244 | the update does nothing when no row has the id |
| Store.UpdateSingleRow | src/lib/googleCalendar.ts:237-244 | with one row of the id, afterwards that row with the new columns is the only row of the id |
| Store.UpdateClaimsChannel | src/lib/googleCalendar.ts:237-244 | with one row of the id and a channel id nobody held, afterwards that row is the only holder of the channel |
| SyncProperties.WebhookFailureAbortsSync | src/lib/googleCalendar.ts:116-117 | when the webhook step rejects, the sync changes no table and never requests the events |
| SyncProperties.SyncReplacesUserRows | src/lib/googleCalendar.ts:150-169 | after a successful sync the user's rows are exactly one row per started item in provider order, and other users' rows are unchanged |
| SyncProperties.SyncIdempotent | src/lib/googleCalendar.ts:150-169 | syncing again with the same session and provider answer leaves `calendar_events` as the first successful sync left it |
| SyncProperties.WebhookSingleFlight | src/lib/googleCalendar.ts:188-244 | a successful renewal stores the new channel on the user's row, and a second webhook step before the new expiry whose lookup of the row succeeds sends nothing and changes nothing (a failed lookup renews again, see `LookupFailureRenews`) |
| SyncProperties.ReceiverAcceptsStoredChannel | supabase/functions/calendar-webhook/index.ts:37-68 | once the update stores a channel id no other row held, a notification carrying it is acknowledged with 200 for that user |
| SyncProperties.ReceiverAcceptsRenewedChannel | supabase/functions/calendar-webhook/index.ts:37-68 | a notification for the channel a successful renewal registered is acknowledged with 200 for the renewing user |
| SyncProperties.SignInInsertsOnce | src/lib/googleCalendar.ts:43-68 | after a successful callback, a second callback for the same user finds the row and changes nothing |
| CalendarWebhook.Handle | supabase/functions/calendar-webhook/index.ts:9-83 | every response carries the CORS headers; OPTIONS gets an empty 200; a thrown fault gives 500 with its message or "Internal server error"; a missing or empty channel id gives 400 "Missing channel ID"; 404 "User not found" exactly when the lookup fails or not exactly one user holds the channel; 200 exactly for OPTIONS or an acknowledgement naming the sole holder, the channel id, the resource state header and the timestamp |
| CalendarWebhook.ChannelOwner | supabase/functions/calendar-webhook/index.ts:38-44 | the lookup finds a user exactly when the query does not fail and exactly one row holds the channel id; the user found is that row |
| CalendarWebhook.DecidedBeforeLookup | supabase/functions/calendar-webhook/index.ts:11-35 | the preflight, fault and missing-channel answers do not depend on the table or the lookup's outcome |
| CalendarWebhook.AcknowledgesSoleHolder | supabase/functions/calendar-webhook/index.ts:37-68 | a notification for a channel held by exactly one user is acknowledged for that user |
| App.StartOfDay | src/App.tsx:30 | the start of a day is at or before the instant, less than a day before it, on a day boundary |
| App.DayEvents | src/App.tsx:27-31 | the day view keeps at most all the events, and every event it keeps starts between the day's start and end |
| App.EventsForDay | src/App.tsx:135-139 | the month grid keeps at most all the events, and every event it keeps starts on the same day as the date |
| App.WithinDayIffSameDay | src/App.tsx:27-31 | an instant lies between a day's start and end exactly when it is on that day |
| App.DayViewKeeps | src/App.tsx:27-31 | the day view keeps an event exactly when it starts within the day; its end is not consulted |
| App.DayViewMatchesGrid | src/App.tsx:135-139 | the day view and the month grid select the same events for a day |
| App.BadgeNoun | src/App.tsx:195 | the badge says "event" exactly for a count of one, "events" otherwise |
| App.ClickDay | src/App.tsx:176-181 | a click on a day with events selects that day; a click on a day without events leaves the selection as it was |
| App.ClickOpensNonEmptyDay | src/App.tsx:176-181 | a click selects the day exactly when it has events, and a changed selection opens a day view with at least one event |
| App.MinuteOfDay | src/App.tsx:96 | the minute of the day lies in 0..1439 |
| App.Top | src/App.tsx:96-104 | an event's offset from the top of the column lies within the 24 hour slots of 64 pixels |
| App.Height | src/App.tsx:97-105 | an event's box has positive height exactly when it ends after it starts, and zero height exactly when it ends as it starts |
| App.HoursAndMinutes | src/App.tsx:96 | hours × 60 + minutes of an instant is its minute of the day |
| App.TopIsMinuteOfDay | src/App.tsx:96-104 | an event's offset is its start's minute of the day at 64 pixels an hour, within the 24-hour column |
| App.TopIgnoresSeconds | src/App.tsx:96-104 | instants in the same minute get the same offset |
| App.BoxesMeet | src/App.tsx:96-105 | for whole-minute instants on one day, an event's box ends where a box starting at its end begins |
| App.NineToHalfPastTen | src/App.tsx:96-105 | an event from 09:00 to 10:30 is placed at 576 pixels and is 96 pixels tall |
| App.ToEvent | src/App.tsx:295-297 | an event keeps the row's id, title, start, end and email, and its user name is the joined name when that is truthy and null otherwise |
| App.ProcessRows | src/App.tsx:295-298 | null data gives no events; otherwise one event per row with the same columns, named by the joined user name when it is truthy and null otherwise |
| App.CalendarScreen.LoadEvents | src/App.tsx:267-307 | a user's load runs the sync first and an admin's changes no table; when the sync (if any) and the query succeed the screen shows the processed rows and no error, otherwise it keeps its events and shows the one failure message; loading ends false |
| DayViewGrouping.GroupByEmail | src/App.tsx:34-47 | the reduce followed by `Object.values` yields exactly `Grouped` |
| DayViewGrouping.Grouped | src/App.tsx:34-47 | one group per distinct email, in the order of the keys, each holding the events of that email in their original order |
| DayViewGrouping.ReduceStep | src/App.tsx:34-45 | one reduce step keeps the accumulator equal to the grouping of the events seen so far, with keys in first-insertion order |
| DayViewGrouping.ValuesAreGrouped | src/App.tsx:47 | reading the accumulator's values in key-insertion order gives the groups of all events |
| DayViewGrouping.FirstIndex | src/App.tsx:36-41 | the first position at which an email appears, or the length when it does not |
| DayViewGrouping.Emails | src/App.tsx:34-47 | the dictionary keys are distinct |
| DayViewGrouping.OneGroupPerEmail | src/App.tsx:34-47 | groups have distinct emails, and an email has a group exactly when some event has it |
| DayViewGrouping.GroupContents | src/App.tsx:43 | a group holds exactly the events of its email, in their original order |
| DayViewGrouping.GroupNamedByFirstEvent | src/App.tsx:36-41 | a group's name is the user name of the first event seen with its email |
| DayViewGrouping.EmailsInFirstAppearanceOrder | src/App.tsx:47 | the keys come in the order of their emails' first appearance |
| DayViewGrouping.GroupsInFirstAppearanceOrder | src/App.tsx:47 | the columns come in the order of their emails' first appearance |
| DayViewGrouping.GroupedIsPermutation | src/App.tsx:34-47 | the columns together hold exactly the day's events, each as often as it occurs |

## Left out

- The OAuth redirect branch of `signInWithGoogle` (src/lib/googleCalendar.ts:75-95), clearing the URL hash (line 71) and `initializeGoogleCalendar` (lines 10-29) are browser navigation and script loading. They are not modelled.
- The time window of the events request (one month back to one year ahead) is not modelled. The recorded `ListEvents` request keeps only the calendar, the page size, the ordering and `singleEvents`.
- The stop request is recorded as written, with the calendar id as its `resourceId`. Google expects the resource id returned by the watch call, which the code never stores. The answer to the stop request, or its failure, is ignored by the code and so has no effect in the model.
- `crypto.randomUUID()`, `Date.now()`, the callback address from the build environment and the `new Date().toISOString()` timestamp are parameters.
- The code reads the clock twice: `new Date()` (line 188) decides whether the stored channel is still live, and `Date.now()` (line 215) sets the new expiry. The model uses one instant `now` for both reads.
- Provider fields sent as JSON `null` are not modelled: an omitted `date` is `None` and interpolates as "undefined", while a `null` `date` would print as "null". Google omits unused fields rather than sending null.
- Expiries are epoch milliseconds. ISO 8601 formatting and parsing, time zones and daylight-saving changes are not modelled. Every day is 86,400,000 ms long, and day boundaries fall on multiples of it.
- JSON parsing of the Google responses is not modelled: a response is already a datatype.
- The results of the sync's delete and inserts (src/lib/googleCalendar.ts:151-168) and of the webhook update (lines 237-244) are not modelled, because the code never reads them: each of these calls is taken to succeed. The sign-in insert's error is read (line 67) and is modelled. The store-generated event row id is not modelled.
- `Object.values` lists integer-like keys in numeric order before the others. The model uses insertion order, which is what it returns for email keys.
- Badge number rendering, pixel strings (`${x}px`), React state scheduling, markup and `date-fns` formatting are not modelled. Offsets are exact reals.
- Logging through `console.log` and `console.error` is not modelled.
- The Deno server, `Deno.env` and the Supabase client construction are not modelled. A value thrown by them is a parameter of `Handle`.
- The `loadEvents` query result is an input. The ordering by `start_time` and the join with `users` are not modelled.
