/**
 * The client-side calendar synchronisation (src/lib/googleCalendar.ts): the
 * sign-in callback that bootstraps a user's role, the renewal of the user's
 * push-notification channel with Google Calendar, and the full-replace sync
 * of the user's events into `calendar_events`.
 *
 * The outcomes of the Supabase auth calls and of the Google Calendar HTTP
 * requests are inputs (the `...Env` datatypes); the requests the code sends to
 * Google are recorded as `ProviderCall`s. Each operation has a specification
 * function on table snapshots (`Webhook`, `Sync`, `SignInCallback`) and a
 * method that performs it step by step on a `Database`.
 */
module GoogleCalendar {
  import opened JsValues
  import opened Store

  const PrimaryCalendar := "primary"
  const AdminEmail := "admin@example.com"
  const UntitledEvent := "Untitled Event"
  const AllDayStartSuffix := "T00:00:00Z"
  const AllDayEndSuffix := "T23:59:59Z"
  /** Seven days, in milliseconds. */
  const WebhookLifetimeMs := 7 * 24 * 60 * 60 * 1000

  const NoSessionMessage := "No active session found"
  const NoTokenMessage := "No valid Google token found. Please sign in again."
  const NoEmailMessage := "User email not found"
  const NoAuthUserMessage := "No authenticated user"
  const NoUserFoundMessage := "No user found"
  const WebhookFailurePrefix := "Failed to set up webhook: "
  const FetchFailurePrefix := "Failed to fetch calendar events: "

  // ---------------------------------------------------------------------------
  // Google Calendar shapes

  /**
   * `start` or `end` of a provider event: a timed instant or an all-day date.
   * `None` is a field the response omits; Google omits the field it does not
   * use rather than sending null, so `${date}` on it reads "undefined".
   */
  datatype EventTime = EventTime(dateTime: Option<string>, date: Option<string>)

  /** One element of the events list response's `items`; `None` is an omitted field. */
  datatype ProviderItem = ProviderItem(summary: Option<string>, start: Option<EventTime>, end: Option<EventTime>)

  /** How `fetch(.../events/watch)` turned out: ok, a non-ok response, or a rejected promise. */
  datatype WatchResponse =
    | WatchOk
    | WatchNotOk(errorMessage: Option<string>, statusText: string)
    | WatchRejected(reason: Error)

  /** How `fetch(.../events?...)` turned out; an ok body may lack `items`. */
  datatype EventsResponse =
    | EventsOk(items: Option<seq<ProviderItem>>)
    | EventsNotOk(errorMessage: Option<string>, statusText: string)
    | EventsRejected(reason: Error)

  /** A request sent to Google, with the bearer token it carries. */
  datatype ProviderCall =
    | StopChannel(bearer: string, id: string, resourceId: string)
    | WatchChannel(bearer: string, id: string, channelType: string, address: string, expiration: int)
    | ListEvents(bearer: string, calendarId: string, maxResults: int, orderBy: string, singleEvents: bool)

  /** What an operation did: the tables afterwards, the requests sent, how its promise settled. */
  datatype Effect = Effect(tables: Tables, calls: seq<ProviderCall>, outcome: Settled)

  // ---------------------------------------------------------------------------
  // Webhook channel renewal (setupCalendarWebhook)

  /**
   * Inputs of one `setupCalendarWebhook` call: the id `auth.getUser()` returns,
   * whether the select of the user's row fails, the clock, the
   * `crypto.randomUUID()` value, the callback address and the outcome of the
   * watch request.
   */
  datatype WebhookEnv = WebhookEnv(authUserId: Option<string>, lookupFails: bool, now: int, freshChannelId: string, address: string, watch: WatchResponse)

  /** `.from('users').select(...).eq('id', id).single()`: null unless exactly one row has the id. */
  function StoredUser(users: seq<UserRecord>, id: string): Option<UserRecord> {
    Single(WithId(users, id))
  }

  /** The stored channel is still live: its expiry is present and later than now. */
  predicate ChannelLive(row: Option<UserRecord>, now: int) {
    row.Some? && row.value.webhookExpiry.Some? && row.value.webhookExpiry.value > now
  }

  /**
   * `userData` as the webhook step sees it: the select's error is discarded, so
   * a failed lookup reads as no row at all.
   */
  function UserData(users: seq<UserRecord>, env: WebhookEnv): Option<UserRecord>
    requires env.authUserId.Some?
  {
    if env.lookupFails then None else StoredUser(users, env.authUserId.value)
  }

  /** The webhook step has an authenticated user and sees no live channel. */
  predicate Renews(t: Tables, env: WebhookEnv) {
    env.authUserId.Some? && !ChannelLive(UserData(t.users, env), env.now)
  }

  /** A stop request is sent for a stored, non-empty channel id. */
  predicate HasStoredChannel(row: Option<UserRecord>) {
    row.Some? && Truthy(row.value.webhookChannelId)
  }

  function Webhook(t: Tables, calendarId: string, token: string, env: WebhookEnv): (e: Effect)
    ensures e.tables.events == t.events
    ensures e.outcome.Rejected? ==> e.tables == t
    ensures env.authUserId.None? ==> e == Effect(t, [], Rejected(Error(NoAuthUserMessage)))
    ensures env.authUserId.Some? && ChannelLive(UserData(t.users, env), env.now) ==>
              e == Effect(t, [], Resolved)
    ensures Renews(t, env) ==>
              var row := UserData(t.users, env);
              && (|e.calls| == 1 || |e.calls| == 2)
              && e.calls[|e.calls| - 1] == WatchChannel(token, env.freshChannelId, "web_hook", env.address, env.now + 604800000)
              && (|e.calls| == 2 <==> HasStoredChannel(row))
              && (|e.calls| == 2 ==> e.calls[0] == StopChannel(token, row.value.webhookChannelId.value, calendarId))
    ensures e.outcome.Resolved? <==> env.authUserId.Some? && (!Renews(t, env) || env.watch.WatchOk?)
    ensures Renews(t, env) && env.watch.WatchOk? ==>
              e.tables.users == UpdateWebhook(t.users, env.authUserId.value, calendarId, env.freshChannelId, env.now + 604800000)
    ensures Renews(t, env) && env.watch.WatchNotOk? ==>
              e.outcome == Rejected(Error(WebhookFailurePrefix + OrElse(env.watch.errorMessage, env.watch.statusText)))
    ensures Renews(t, env) && env.watch.WatchRejected? ==> e.outcome == Rejected(env.watch.reason)
  {
    if env.authUserId.None? then Effect(t, [], Rejected(Error(NoAuthUserMessage)))
    else
      var id := env.authUserId.value;
      var row := UserData(t.users, env);
      if ChannelLive(row, env.now) then Effect(t, [], Resolved)
      else
        var stop := if HasStoredChannel(row) then [StopChannel(token, row.value.webhookChannelId.value, calendarId)] else [];
        var expiration := env.now + WebhookLifetimeMs;
        var calls := stop + [WatchChannel(token, env.freshChannelId, "web_hook", env.address, expiration)];
        match env.watch
        case WatchOk => Effect(Tables(UpdateWebhook(t.users, id, calendarId, env.freshChannelId, expiration), t.events), calls, Resolved)
        case WatchNotOk(message, statusText) => Effect(t, calls, Rejected(Error(WebhookFailurePrefix + OrElse(message, statusText))))
        case WatchRejected(reason) => Effect(t, calls, Rejected(reason))
  }

  method SetupCalendarWebhook(db: Database, calendarId: string, accessToken: string, env: WebhookEnv)
    returns (calls: seq<ProviderCall>, outcome: Settled)
    modifies db
    ensures Effect(db.Snapshot(), calls, outcome) == Webhook(old(db.Snapshot()), calendarId, accessToken, env)
  {
    ghost var spec := Webhook(db.Snapshot(), calendarId, accessToken, env);  // the specification, unfolded in the initial state
    calls := [];
    if env.authUserId.None? {
      return calls, Rejected(Error(NoAuthUserMessage));
    }
    var id := env.authUserId.value;
    var userData := if env.lookupFails then None else StoredUser(db.users, id);
    if userData.Some? && userData.value.webhookExpiry.Some? && userData.value.webhookExpiry.value > env.now {
      return calls, Resolved;
    }
    if userData.Some? && Truthy(userData.value.webhookChannelId) {
      // best effort: whatever the stop request returns, or if it fails, is ignored
      calls := [StopChannel(accessToken, userData.value.webhookChannelId.value, calendarId)];
    }
    assert Renews(db.Snapshot(), env);
    var channelId := env.freshChannelId;
    var expiration := env.now + WebhookLifetimeMs;
    calls := calls + [WatchChannel(accessToken, channelId, "web_hook", env.address, expiration)];
    match env.watch {
      case WatchRejected(reason) =>
        return calls, Rejected(reason);
      case WatchNotOk(message, statusText) =>
        return calls, Rejected(Error(WebhookFailurePrefix + OrElse(message, statusText)));
      case WatchOk =>
    }
    db.users := UpdateWebhook(db.users, id, calendarId, channelId, expiration);
    outcome := Resolved;
  }

  /**
   * When the select of the user's row fails, the step renews even a channel
   * that is still live: it sends no stop request, only a watch request, and an
   * accepted watch overwrites the stored channel.
   */
  lemma LookupFailureRenews(t: Tables, calendarId: string, token: string, env: WebhookEnv)
    requires env.authUserId.Some? && env.lookupFails
    ensures Webhook(t, calendarId, token, env).calls
            == [WatchChannel(token, env.freshChannelId, "web_hook", env.address, env.now + 604800000)]
    ensures env.watch.WatchOk? ==>
              Webhook(t, calendarId, token, env)
              == Effect(Tables(UpdateWebhook(t.users, env.authUserId.value, calendarId, env.freshChannelId, env.now + 604800000), t.events),
                        [WatchChannel(token, env.freshChannelId, "web_hook", env.address, env.now + 604800000)], Resolved)
  {
  }

  // ---------------------------------------------------------------------------
  // Item -> row mapping

  /** `event.start?.dateTime || event.start?.date` is truthy; other items are skipped. */
  predicate HasStart(item: ProviderItem) {
    item.start.Some? && (Truthy(item.start.value.dateTime) || Truthy(item.start.value.date))
  }

  /** The mapping reads `event.end.dateTime`, which throws when `end` is missing. */
  predicate MissingEnd(item: ProviderItem) {
    HasStart(item) && item.end.None?
  }

  /** The `calendar_events` row inserted for a provider item. */
  function ToRow(item: ProviderItem, userId: string, email: string): (row: EventRow)
    requires Insertable(item)
    ensures row.userId == userId && row.email == email
  {
    var start, end := item.start.value, item.end.value;
    EventRow(userId, email,
      OrElse(item.summary, UntitledEvent),
      OrElse(start.dateTime, Interpolate(start.date) + AllDayStartSuffix),
      OrElse(end.dateTime, Interpolate(end.date) + AllDayEndSuffix))
  }

  /**
   * The columns of the row: the summary or "Untitled Event"; the start's
   * `dateTime`, or its all-day `date` at midnight; the end's `dateTime`, or its
   * `date` (interpolated, so possibly "undefined") at 23:59:59.
   */
  lemma ToRowColumns(item: ProviderItem, userId: string, email: string)
    requires Insertable(item)
    ensures var row := ToRow(item, userId, email);
            && (Truthy(item.summary) ==> row.title == item.summary.value)
            && (!Truthy(item.summary) ==> row.title == "Untitled Event")
            && (Truthy(item.start.value.dateTime) ==> row.startTime == item.start.value.dateTime.value)
            && (!Truthy(item.start.value.dateTime) ==> row.startTime == item.start.value.date.value + "T00:00:00Z")
            && (Truthy(item.end.value.dateTime) ==> row.endTime == item.end.value.dateTime.value)
            && (!Truthy(item.end.value.dateTime) ==> row.endTime == Interpolate(item.end.value.date) + "T23:59:59Z")
  {
  }

  /** An item the loop turns into a row: it has a start and an end. */
  predicate Insertable(item: ProviderItem) {
    HasStart(item) && item.end.Some?
  }

  /** The items that get a row: those with a start, in provider order. */
  function StartedItems(items: seq<ProviderItem>): (r: seq<ProviderItem>)
    ensures forall i :: 0 <= i < |r| ==> HasStart(r[i])
    ensures (forall i :: 0 <= i < |items| ==> !MissingEnd(items[i])) ==> forall i :: 0 <= i < |r| ==> Insertable(r[i])
  {
    StartedHaveEnds(items);
    Filter(items, HasStart)
  }

  lemma {:induction false} StartedHaveEnds(items: seq<ProviderItem>)
    ensures (forall i :: 0 <= i < |items| ==> !MissingEnd(items[i])) ==>
              forall i :: 0 <= i < |Filter(items, HasStart)| ==> Insertable(Filter(items, HasStart)[i])
  {
    if items != [] && forall i :: 0 <= i < |items| ==> !MissingEnd(items[i]) {
      var rest := items[1..];
      assert forall i :: 0 <= i < |rest| ==> !MissingEnd(rest[i]) by {
        forall i | 0 <= i < |rest| ensures !MissingEnd(rest[i]) {
          assert rest[i] == items[i + 1];
        }
      }
      assert !MissingEnd(items[0]);
      StartedHaveEnds(rest);
    }
  }

  /** One row per item, in order. */
  function RowsFor(items: seq<ProviderItem>, userId: string, email: string): (rows: seq<EventRow>)
    requires forall i :: 0 <= i < |items| ==> Insertable(items[i])
    ensures |rows| == |items|
    ensures forall i :: 0 <= i < |items| ==> rows[i] == ToRow(items[i], userId, email)
  {
    if items == [] then []
    else
      [ToRow(items[0], userId, email)] + RowsFor(items[1..], userId, email)
  }

  /** The rows the insert loop writes, and whether it ran to the end without throwing. */
  datatype Stored = Stored(rows: seq<EventRow>, complete: bool)

  /**
   * The insert loop over the provider items: items without a start are
   * skipped, and the first item with a start but no end throws a TypeError.
   */
  function StoreItems(items: seq<ProviderItem>, userId: string, email: string): Stored
  {
    if items == [] then Stored([], true)
    else if !HasStart(items[0]) then StoreItems(items[1..], userId, email)
    else if items[0].end.None? then Stored([], false)
    else
      var rest := StoreItems(items[1..], userId, email);
      Stored([ToRow(items[0], userId, email)] + rest.rows, rest.complete)
  }

  /** Every row the loop writes carries the session user's id and email. */
  lemma {:induction false} StoreItemsOwned(items: seq<ProviderItem>, userId: string, email: string)
    ensures forall i :: 0 <= i < |StoreItems(items, userId, email).rows| ==>
              StoreItems(items, userId, email).rows[i].userId == userId && StoreItems(items, userId, email).rows[i].email == email
  {
    if items != [] {
      StoreItemsOwned(items[1..], userId, email);
    }
  }

  /** The loop runs to the end exactly when no item with a start lacks an end. */
  lemma {:induction false} StoreItemsComplete(items: seq<ProviderItem>, userId: string, email: string)
    ensures StoreItems(items, userId, email).complete <==> forall i :: 0 <= i < |items| ==> !MissingEnd(items[i])
  {
    if items != [] {
      var rest := items[1..];
      StoreItemsComplete(rest, userId, email);
      assert forall i :: 0 <= i < |rest| ==> rest[i] == items[i + 1];
      if !MissingEnd(items[0]) && (forall i :: 0 <= i < |rest| ==> !MissingEnd(rest[i])) {
        assert forall i :: 0 <= i < |items| ==> !MissingEnd(items[i]) by {
          forall i | 0 <= i < |items| ensures !MissingEnd(items[i]) {
            if i > 0 { assert items[i] == rest[i - 1]; }
          }
        }
      }
    }
  }

  /**
   * When no item with a start lacks an end, the loop inserts exactly one row
   * per item with a start, in provider order.
   */
  lemma {:induction false} StoreItemsMapsStartedItems(items: seq<ProviderItem>, userId: string, email: string)
    requires forall i :: 0 <= i < |items| ==> !MissingEnd(items[i])
    ensures StoreItems(items, userId, email).rows == RowsFor(StartedItems(items), userId, email)
  {
    if items != [] {
      var head, rest := items[0], items[1..];
      assert items == [head] + rest;
      assert forall i :: 0 <= i < |rest| ==> rest[i] == items[i + 1];
      FilterAppend([head], rest, HasStart);
      StoreItemsMapsStartedItems(rest, userId, email);
      if HasStart(head) {
        assert StartedItems([head]) == [head];
        var started := [head] + StartedItems(rest);
        assert started[0] == head && started[1..] == StartedItems(rest);
      } else {
        assert StartedItems([head]) == [];
        assert StartedItems(items) == StartedItems(rest);
        assert StoreItems(items, userId, email) == StoreItems(rest, userId, email);
      }
    }
  }

  /**
   * When item `k` is the first with a start but no end, the loop throws there:
   * it has written one row per item with a start among the items before `k`,
   * in provider order, and no more.
   */
  lemma {:induction false} StoreItemsStopsAtMissingEnd(items: seq<ProviderItem>, userId: string, email: string, k: nat)
    requires k < |items| && MissingEnd(items[k])
    requires forall j :: 0 <= j < k ==> !MissingEnd(items[j])
    ensures StoreItems(items, userId, email) == Stored(RowsFor(StartedItems(items[..k]), userId, email), false)
  {
    var head, rest := items[0], items[1..];
    if k == 0 {
      assert items[..k] == [];
    } else {
      assert forall j :: 0 <= j < k - 1 ==> rest[j] == items[j + 1];
      StoreItemsStopsAtMissingEnd(rest, userId, email, k - 1);
      var prefix := items[..k];
      assert prefix[0] == head && prefix[1..] == rest[..k - 1];
      var started := StartedItems(rest[..k - 1]);
      if HasStart(head) {
        assert !MissingEnd(items[0]);
        assert StartedItems(prefix) == [head] + started;
        assert ([head] + started)[0] == head && ([head] + started)[1..] == started;
      } else {
        assert StartedItems(prefix) == started;
      }
    }
  }

  // ---------------------------------------------------------------------------
  // Event sync with full replace (fetchAndStoreEvents)

  datatype SessionUser = SessionUser(id: string, email: Option<string>)

  /** The session `auth.getSession()` returns; `None` when there is none or the call failed. */
  datatype Session = Session(providerToken: Option<string>, user: Option<SessionUser>)

  datatype SyncEnv = SyncEnv(session: Option<Session>, webhook: WebhookEnv, events: EventsResponse)

  /** The session has a provider token and a user with an email. */
  predicate Authorised(env: SyncEnv) {
    && env.session.Some?
    && Truthy(env.session.value.providerToken)
    && env.session.value.user.Some?
    && Truthy(env.session.value.user.value.email)
  }

  function ListPrimaryEvents(token: string): ProviderCall {
    ListEvents(token, PrimaryCalendar, 100, "startTime", true)
  }

  /** The webhook step of a sync, run with the session's provider token. */
  function SyncWebhook(t: Tables, env: SyncEnv): Effect
    requires Authorised(env)
  {
    Webhook(t, PrimaryCalendar, env.session.value.providerToken.value, env.webhook)
  }

  function Sync(t: Tables, env: SyncEnv): (e: Effect)
    ensures env.session.None? ==> e == Effect(t, [], Rejected(Error(NoSessionMessage)))
    ensures env.session.Some? && !Truthy(env.session.value.providerToken) ==>
              e == Effect(t, [], Rejected(Error(NoTokenMessage)))
    ensures env.session.Some? && Truthy(env.session.value.providerToken) && !Authorised(env) ==>
              e == Effect(t, [], Rejected(Error(NoEmailMessage)))
    ensures Authorised(env) && SyncWebhook(t, env).outcome.Rejected? ==> e == SyncWebhook(t, env)
    ensures Authorised(env) && SyncWebhook(t, env).outcome.Resolved? ==>
              && e.calls == SyncWebhook(t, env).calls + [ListPrimaryEvents(env.session.value.providerToken.value)]
              && e.tables.users == SyncWebhook(t, env).tables.users
    ensures !env.events.EventsOk? ==> e.tables.events == t.events && e.outcome.Rejected?
    ensures env.events.EventsNotOk? && Authorised(env) && SyncWebhook(t, env).outcome.Resolved? ==>
              e.outcome == Rejected(Error(FetchFailurePrefix + OrElse(env.events.errorMessage, env.events.statusText)))
    ensures env.events.EventsRejected? && Authorised(env) && SyncWebhook(t, env).outcome.Resolved? ==>
              e.outcome == Rejected(env.events.reason)
    ensures env.events == EventsOk(None) && Authorised(env) && SyncWebhook(t, env).outcome.Resolved? ==>
              && e.tables.events == RowsNotOf(t.events, env.session.value.user.value.id)
              && e.outcome == Rejected(TypeError)
    ensures env.events.EventsOk? && env.events.items.Some? && Authorised(env) && SyncWebhook(t, env).outcome.Resolved? ==>
              var user := env.session.value.user.value;
              && e.tables.events == RowsNotOf(t.events, user.id) + StoreItems(env.events.items.value, user.id, user.email.value).rows
              && (e.outcome.Resolved? <==> forall i :: 0 <= i < |env.events.items.value| ==> !MissingEnd(env.events.items.value[i]))
    ensures e.outcome.Resolved? ==>
              && Authorised(env) && env.events.EventsOk? && env.events.items.Some?
              && forall i :: 0 <= i < |env.events.items.value| ==> !MissingEnd(env.events.items.value[i])
  {
    if env.session.None? then Effect(t, [], Rejected(Error(NoSessionMessage)))
    else if !Truthy(env.session.value.providerToken) then Effect(t, [], Rejected(Error(NoTokenMessage)))
    else if !Authorised(env) then Effect(t, [], Rejected(Error(NoEmailMessage)))
    else
      var user := env.session.value.user.value;
      var w := SyncWebhook(t, env);
      if w.outcome.Rejected? then w
      else
        var calls := w.calls + [ListPrimaryEvents(env.session.value.providerToken.value)];
        match env.events
        case EventsRejected(reason) => Effect(w.tables, calls, Rejected(reason))
        case EventsNotOk(message, statusText) =>
          Effect(w.tables, calls, Rejected(Error(FetchFailurePrefix + OrElse(message, statusText))))
        case EventsOk(None) =>
          Effect(Tables(w.tables.users, RowsNotOf(t.events, user.id)), calls, Rejected(TypeError))
        case EventsOk(Some(items)) =>
          var s := StoreItems(items, user.id, user.email.value);
          StoreItemsComplete(items, user.id, user.email.value);
          Effect(Tables(w.tables.users, RowsNotOf(t.events, user.id) + s.rows), calls,
                 if s.complete then Resolved else Rejected(TypeError))
  }

  method FetchAndStoreEvents(db: Database, env: SyncEnv) returns (calls: seq<ProviderCall>, outcome: Settled)
    modifies db
    ensures Effect(db.Snapshot(), calls, outcome) == Sync(old(db.Snapshot()), env)
  {
    ghost var spec := Sync(db.Snapshot(), env);  // the specification, unfolded in the initial state
    if env.session.None? {
      return [], Rejected(Error(NoSessionMessage));
    }
    var session := env.session.value;
    if !Truthy(session.providerToken) {
      return [], Rejected(Error(NoTokenMessage));
    }
    if session.user.None? || !Truthy(session.user.value.email) {
      return [], Rejected(Error(NoEmailMessage));
    }
    var token, user := session.providerToken.value, session.user.value;

    calls, outcome := SetupCalendarWebhook(db, PrimaryCalendar, token, env.webhook);
    if outcome.Rejected? {
      return;
    }

    calls := calls + [ListPrimaryEvents(token)];
    match env.events {
      case EventsRejected(reason) =>
        return calls, Rejected(reason);
      case EventsNotOk(message, statusText) =>
        return calls, Rejected(Error(FetchFailurePrefix + OrElse(message, statusText)));
      case EventsOk(items) =>
        outcome := ReplaceEvents(db, user.id, user.email.value, items);
    }
  }

  /**
   * The delete of the user's rows followed by the insert loop over `data.items`.
   * A TypeError leaves the rows inserted so far in place.
   */
  method ReplaceEvents(db: Database, userId: string, email: string, items: Option<seq<ProviderItem>>) returns (outcome: Settled)
    modifies db
    ensures db.users == old(db.users)
    ensures items.None? ==> db.events == RowsNotOf(old(db.events), userId) && outcome == Rejected(TypeError)
    ensures items.Some? ==>
              var stored := StoreItems(items.value, userId, email);
              && db.events == RowsNotOf(old(db.events), userId) + stored.rows
              && outcome == if stored.complete then Resolved else Rejected(TypeError)
  {
    db.events := RowsNotOf(db.events, userId);
    if items.None? {
      // `for (const event of data.items)` over undefined
      return Rejected(TypeError);
    }
    outcome := InsertItems(db, userId, email, items.value);
  }

  /** The insert loop: one row per item with a start, until an item with a start lacks an end. */
  method InsertItems(db: Database, userId: string, email: string, list: seq<ProviderItem>) returns (outcome: Settled)
    modifies db
    ensures db.users == old(db.users)
    ensures var stored := StoreItems(list, userId, email);
            && db.events == old(db.events) + stored.rows
            && outcome == if stored.complete then Resolved else Rejected(TypeError)
  {
    ghost var whole := StoreItems(list, userId, email);
    ghost var inserted := [];
    var rest := list;  // the items `for (const event of data.items)` has not reached yet
    while rest != []
      invariant db.users == old(db.users)
      invariant db.events == old(db.events) + inserted
      invariant whole.rows == inserted + StoreItems(rest, userId, email).rows
      invariant whole.complete == StoreItems(rest, userId, email).complete
    {
      var event := rest[0];
      if HasStart(event) {
        if event.end.None? {
          // `event.end.dateTime` on an undefined `end`
          return Rejected(TypeError);
        }
        var row := ToRow(event, userId, email);
        db.events := db.events + [row];
        inserted := inserted + [row];
      }
      rest := rest[1..];
    }
    outcome := Resolved;
  }

  // ---------------------------------------------------------------------------
  // Role bootstrap on the sign-in callback (signInWithGoogle, access token in the URL)

  /** The user `auth.getUser()` returns. */
  datatype AuthUser = AuthUser(id: string, email: Option<string>, metadataName: Option<string>)

  /**
   * Inputs of the callback branch: the outcome of `auth.getUser()`, a failure of
   * the `users` lookup other than "no row" (PGRST116), and a failure of the insert.
   */
  datatype CallbackEnv = CallbackEnv(authError: Option<Error>, user: Option<AuthUser>, lookupFailure: Option<Thrown>, insertFailure: Option<Thrown>)

  /** The row inserted for a first sign-in. */
  function NewUserRow(u: AuthUser): (r: UserRecord)
    ensures r.id == u.id && r.email == u.email && r.name == u.metadataName
    ensures r.role == Admin <==> u.email == Some("admin@example.com")
    ensures r.calendarId.None? && r.webhookChannelId.None? && r.webhookExpiry.None?
  {
    UserRecord(u.id, u.email, u.metadataName, if u.email == Some(AdminEmail) then Admin else User, None, None, None)
  }

  function SignInCallback(t: Tables, env: CallbackEnv): (e: Effect)
    ensures e.calls == [] && e.tables.events == t.events
    ensures e.outcome.Rejected? ==> e.tables == t
    ensures env.authError.Some? ==> e.outcome == Rejected(env.authError.value)
    ensures env.authError.None? && env.user.None? ==> e.outcome == Rejected(Error(NoUserFoundMessage))
    ensures env.authError.None? && env.user.Some? && env.lookupFailure.Some? ==>
              e.outcome == Rejected(AsError(env.lookupFailure.value))
    ensures e.tables.users != t.users ==>
              && e.outcome.Resolved? && env.user.Some?
              && StoredUser(t.users, env.user.value.id).None?
              && e.tables.users == t.users + [NewUserRow(env.user.value)]
              && (e.tables.users[|t.users|].role == Admin <==> env.user.value.email == Some("admin@example.com"))
    ensures e.outcome.Resolved? ==> env.user.Some? && (StoredUser(t.users, env.user.value.id).Some? <==> e.tables == t)
    ensures env.authError.None? && env.user.Some? && env.lookupFailure.None? && StoredUser(t.users, env.user.value.id).Some? ==>
              e == Effect(t, [], Resolved)
    ensures env.authError.None? && env.user.Some? && env.lookupFailure.None? && StoredUser(t.users, env.user.value.id).None? ==>
              e == if env.insertFailure.Some? then Effect(t, [], Rejected(AsError(env.insertFailure.value)))
                   else Effect(Tables(t.users + [NewUserRow(env.user.value)], t.events), [], Resolved)
  {
    if env.authError.Some? then Effect(t, [], Rejected(env.authError.value))
    else if env.user.None? then Effect(t, [], Rejected(Error(NoUserFoundMessage)))
    else if env.lookupFailure.Some? then Effect(t, [], Rejected(AsError(env.lookupFailure.value)))
    else
      var user := env.user.value;
      if StoredUser(t.users, user.id).Some? then Effect(t, [], Resolved)
      else if env.insertFailure.Some? then Effect(t, [], Rejected(AsError(env.insertFailure.value)))
      else Effect(Tables(t.users + [NewUserRow(user)], t.events), [], Resolved)
  }

  method SignInWithGoogle(db: Database, env: CallbackEnv) returns (outcome: Settled)
    modifies db
    ensures Effect(db.Snapshot(), [], outcome) == SignInCallback(old(db.Snapshot()), env)
  {
    if env.authError.Some? {
      return Rejected(env.authError.value);
    }
    if env.user.None? {
      return Rejected(Error(NoUserFoundMessage));
    }
    var user := env.user.value;
    if env.lookupFailure.Some? {
      return Rejected(AsError(env.lookupFailure.value));
    }
    var existingUser := StoredUser(db.users, user.id);
    if existingUser.None? {
      if env.insertFailure.Some? {
        return Rejected(AsError(env.insertFailure.value));
      }
      db.users := db.users + [NewUserRow(user)];
    }
    outcome := Resolved;
  }
}
