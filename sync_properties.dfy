/**
 * Properties that relate several calls of the synchronisation code: what a
 * successful sync leaves in `calendar_events`, that repeating it changes
 * nothing, that a renewed channel is not renewed again while it is live, that
 * the push receiver recognises the channel a renewal stored, and that the
 * sign-in callback inserts a user's row once.
 */
module SyncProperties {
  import opened JsValues
  import opened Store
  import opened GoogleCalendar
  import opened CalendarWebhook

  /** When the webhook step fails, the sync stops: no row changes and the events are never requested. */
  lemma {:induction false} WebhookFailureAbortsSync(t: Tables, env: SyncEnv)
    requires Authorised(env) && SyncWebhook(t, env).outcome.Rejected?
    ensures Sync(t, env).tables == t
    ensures forall i :: 0 <= i < |Sync(t, env).calls| ==> !Sync(t, env).calls[i].ListEvents?
  {
    var w := SyncWebhook(t, env);
    if Renews(t, env.webhook) && |w.calls| == 2 {
      assert w.calls == [w.calls[0], w.calls[1]];
    }
  }

  /**
   * After a successful sync the user's rows are exactly one row per provider
   * item with a start, in provider order, and every other user's rows are as
   * they were.
   */
  lemma SyncReplacesUserRows(t: Tables, env: SyncEnv)
    requires Sync(t, env).outcome.Resolved?
    ensures var user := env.session.value.user.value;
            && RowsOf(Sync(t, env).tables.events, user.id)
               == RowsFor(StartedItems(env.events.items.value), user.id, user.email.value)
            && RowsNotOf(Sync(t, env).tables.events, user.id) == RowsNotOf(t.events, user.id)
  {
    var user, items := env.session.value.user.value, env.events.items.value;
    var stored := StoreItems(items, user.id, user.email.value);
    StoreItemsComplete(items, user.id, user.email.value);
    StoreItemsMapsStartedItems(items, user.id, user.email.value);
    StoreItemsOwned(items, user.id, user.email.value);
    ReplaceRows(t.events, stored.rows, user.id);
  }

  /**
   * A second sync with the same session and the same provider answer leaves
   * `calendar_events` as the first successful sync left it, whatever happens
   * to the webhook step the second time.
   */
  lemma SyncIdempotent(t: Tables, env: SyncEnv, again: SyncEnv)
    requires Sync(t, env).outcome.Resolved?
    requires again.session == env.session && again.events == env.events
    ensures Sync(Sync(t, env).tables, again).tables.events == Sync(t, env).tables.events
  {
    var user, items := env.session.value.user.value, env.events.items.value;
    var stored := StoreItems(items, user.id, user.email.value);
    StoreItemsOwned(items, user.id, user.email.value);
    ReplaceRows(t.events, stored.rows, user.id);
  }

  /**
   * A successful renewal stores the new channel on the user's row; a second
   * webhook step for the same user before the new expiry, whose lookup of the
   * row succeeds, then finds the channel live and sends nothing and changes
   * nothing. (A failed lookup renews again: `LookupFailureRenews`.)
   */
  lemma WebhookSingleFlight(t: Tables, calendarId: string, token: string, env: WebhookEnv,
                            calendarId2: string, token2: string, env2: WebhookEnv)
    requires Renews(t, env) && env.watch.WatchOk?
    requires |WithId(t.users, env.authUserId.value)| == 1
    requires env2.authUserId == env.authUserId && !env2.lookupFails && env2.now < env.now + WebhookLifetimeMs
    ensures var after := Webhook(t, calendarId, token, env).tables;
            && StoredUser(after.users, env.authUserId.value)
               == Some(WithWebhook(WithId(t.users, env.authUserId.value)[0], calendarId, env.freshChannelId, env.now + WebhookLifetimeMs))
            && Webhook(after, calendarId2, token2, env2) == Effect(after, [], Resolved)
  {
    var id, expiry := env.authUserId.value, env.now + WebhookLifetimeMs;
    var after := Webhook(t, calendarId, token, env).tables;
    var row := WithWebhook(WithId(t.users, id)[0], calendarId, env.freshChannelId, expiry);
    assert StoredUser(after.users, id) == Some(row) by {
      RenewalUpdatesUsers(t, calendarId, token, env);
      UpdateSingleRow(t.users, id, calendarId, env.freshChannelId, expiry);
    }
    assert ChannelLive(StoredUser(after.users, id), env2.now);
  }

  /**
   * Once the user's row holds a channel id that no other row held, a push
   * notification carrying that id is acknowledged for that user.
   */
  lemma ReceiverAcceptsStoredChannel(users: seq<UserRecord>, id: string, calendarId: string, channelId: string, expiry: int,
                                     req: Request, timestamp: string)
    requires |WithId(users, id)| == 1 && WithChannel(users, channelId) == []
    requires req.httpMethod != "OPTIONS" && channelId != ""
    requires Header(req, "x-goog-channel-id") == Some(channelId)
    ensures Handle(req, None, UpdateWebhook(users, id, calendarId, channelId, expiry), false, timestamp)
            == Response(200, JsonHeaders, Ack(true, id, channelId, Header(req, "x-goog-resource-state"), timestamp))
  {
    UpdateClaimsChannel(users, id, calendarId, channelId, expiry);
    var row := WithWebhook(WithId(users, id)[0], calendarId, channelId, expiry);
    assert row.id == id;
    AcknowledgesSoleHolder(req, UpdateWebhook(users, id, calendarId, channelId, expiry), row, timestamp);
  }

  /**
   * When a renewal stores a channel id that no other user holds, a push
   * notification carrying that id is acknowledged for that user.
   */
  lemma ReceiverAcceptsRenewedChannel(t: Tables, calendarId: string, token: string, env: WebhookEnv, req: Request, timestamp: string)
    requires Renews(t, env) && env.watch.WatchOk?
    requires |WithId(t.users, env.authUserId.value)| == 1
    requires WithChannel(t.users, env.freshChannelId) == []
    requires req.httpMethod != "OPTIONS" && env.freshChannelId != ""
    requires Header(req, "x-goog-channel-id") == Some(env.freshChannelId)
    ensures Handle(req, None, Webhook(t, calendarId, token, env).tables.users, false, timestamp)
            == Response(200, JsonHeaders, Ack(true, env.authUserId.value, env.freshChannelId, Header(req, "x-goog-resource-state"), timestamp))
  {
    RenewalUpdatesUsers(t, calendarId, token, env);
    ReceiverAcceptsStoredChannel(t.users, env.authUserId.value, calendarId, env.freshChannelId, env.now + WebhookLifetimeMs, req, timestamp);
  }

  /** The users table a successful renewal leaves, as one `UpdateWebhook` step. */
  lemma RenewalUpdatesUsers(t: Tables, calendarId: string, token: string, env: WebhookEnv)
    requires Renews(t, env) && env.watch.WatchOk?
    ensures Webhook(t, calendarId, token, env).tables.users
            == UpdateWebhook(t.users, env.authUserId.value, calendarId, env.freshChannelId, env.now + WebhookLifetimeMs)
  {
  }

  /**
   * With `users.id` a key, a callback that succeeded leaves the user's row in
   * place, so a later callback for the same user finds it and changes nothing.
   */
  lemma SignInInsertsOnce(t: Tables, env: CallbackEnv, again: CallbackEnv)
    requires SignInCallback(t, env).outcome.Resolved?
    requires |WithId(t.users, env.user.value.id)| <= 1
    requires again.authError.None? && again.user == env.user && again.lookupFailure.None?
    ensures var after := SignInCallback(t, env).tables;
            SignInCallback(after, again) == Effect(after, [], Resolved)
  {
    var user := env.user.value;
    var after := SignInCallback(t, env).tables;
    if after != t {
      assert WithId(t.users, user.id) == [];
      FilterAppend(t.users, [NewUserRow(user)], HasId(user.id));
    }
  }
}
