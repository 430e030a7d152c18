/**
 * The two Supabase tables the core reads and writes, `users` and
 * `calendar_events`, and the query shapes it uses on them (`.eq(...)`,
 * `.single()`, an update of one user's webhook columns).
 */
module Store {
  import opened JsValues

  datatype Role = Admin | User

  /**
   * A row of `users`. The webhook expiry is an instant in epoch milliseconds
   * (the table stores its ISO 8601 rendering).
   */
  datatype UserRecord = UserRecord(
    id: string,
    email: Option<string>,
    name: Option<string>,
    role: Role,
    calendarId: Option<string>,
    webhookChannelId: Option<string>,
    webhookExpiry: Option<int>)

  /** A row of `calendar_events`; its store-generated id is not modelled. */
  datatype EventRow = EventRow(userId: string, email: string, title: string, startTime: string, endTime: string)

  /** The contents of both tables at one moment. */
  datatype Tables = Tables(users: seq<UserRecord>, events: seq<EventRow>)

  /** The database: both tables, changed in place by inserts, deletes and updates. */
  class Database {
    var users: seq<UserRecord>
    var events: seq<EventRow>

    constructor (users: seq<UserRecord>, events: seq<EventRow>)
      ensures this.users == users && this.events == events
    {
      this.users := users;
      this.events := events;
    }

    function Snapshot(): Tables
      reads this
    {
      Tables(users, events)
    }
  }

  function HasId(id: string): UserRecord -> bool {
    (u: UserRecord) => u.id == id
  }

  function HoldsChannel(channelId: string): UserRecord -> bool {
    (u: UserRecord) => u.webhookChannelId == Some(channelId)
  }

  /** `.from('users').eq('id', id)` */
  function WithId(users: seq<UserRecord>, id: string): seq<UserRecord> {
    Filter(users, HasId(id))
  }

  /** `.from('users').eq('webhook_channel_id', channelId)`: a null column matches nothing. */
  function WithChannel(users: seq<UserRecord>, channelId: string): seq<UserRecord> {
    Filter(users, HoldsChannel(channelId))
  }

  /** `.single()`: the row when exactly one row matches, and null data otherwise. */
  function Single<T>(rows: seq<T>): Option<T> {
    if |rows| == 1 then Some(rows[0]) else None
  }

  function OwnedBy(userId: string): EventRow -> bool {
    (r: EventRow) => r.userId == userId
  }

  function NotOwnedBy(userId: string): EventRow -> bool {
    (r: EventRow) => r.userId != userId
  }

  /** `.from('calendar_events').eq('user_id', userId)` */
  function RowsOf(events: seq<EventRow>, userId: string): seq<EventRow> {
    Filter(events, OwnedBy(userId))
  }

  /** What `.from('calendar_events').delete().eq('user_id', userId)` leaves behind. */
  function RowsNotOf(events: seq<EventRow>, userId: string): seq<EventRow> {
    Filter(events, NotOwnedBy(userId))
  }

  /**
   * Deleting a user's rows and appending rows that all belong to that user
   * leaves exactly the appended rows as the user's rows, and every other
   * user's rows as they were.
   */
  lemma ReplaceRows(events: seq<EventRow>, rows: seq<EventRow>, userId: string)
    requires forall i :: 0 <= i < |rows| ==> rows[i].userId == userId
    ensures RowsOf(RowsNotOf(events, userId) + rows, userId) == rows
    ensures RowsNotOf(RowsNotOf(events, userId) + rows, userId) == RowsNotOf(events, userId)
  {
    var kept := RowsNotOf(events, userId);
    FilterAppend(kept, rows, OwnedBy(userId));
    FilterAppend(kept, rows, NotOwnedBy(userId));
    FilterDropsAll(kept, OwnedBy(userId));
    FilterKeepsAll(rows, OwnedBy(userId));
    FilterKeepsAll(kept, NotOwnedBy(userId));
    FilterDropsAll(rows, NotOwnedBy(userId));
  }

  /** The row `u` after `.update({calendar_id, webhook_channel_id, webhook_expiry})`. */
  function WithWebhook(u: UserRecord, calendarId: string, channelId: string, expiry: int): UserRecord {
    u.(calendarId := Some(calendarId), webhookChannelId := Some(channelId), webhookExpiry := Some(expiry))
  }

  /** `.from('users').update({...}).eq('id', id)`: every row with that id gets the new webhook columns. */
  function UpdateWebhook(users: seq<UserRecord>, id: string, calendarId: string, channelId: string, expiry: int): (r: seq<UserRecord>)
    ensures |r| == |users|
    ensures forall i :: 0 <= i < |users| ==>
              r[i] == if users[i].id == id then WithWebhook(users[i], calendarId, channelId, expiry) else users[i]
  {
    if users == [] then []
    else [if users[0].id == id then WithWebhook(users[0], calendarId, channelId, expiry) else users[0]]
         + UpdateWebhook(users[1..], id, calendarId, channelId, expiry)
  }

  /** The update leaves a table without a row of that id as it was. */
  lemma {:induction false} UpdateWithoutRow(users: seq<UserRecord>, id: string, calendarId: string, channelId: string, expiry: int)
    requires WithId(users, id) == []
    ensures UpdateWebhook(users, id, calendarId, channelId, expiry) == users
  {
    if users != [] {
      assert users[0] !in WithId(users, id);
      FilterAppend([users[0]], users[1..], HasId(id));
      assert users == [users[0]] + users[1..];
      UpdateWithoutRow(users[1..], id, calendarId, channelId, expiry);
    }
  }

  /** When exactly one row has the id, after the update it is the only row with the id. */
  lemma {:induction false} UpdateSingleRow(users: seq<UserRecord>, id: string, calendarId: string, channelId: string, expiry: int)
    requires |WithId(users, id)| == 1
    ensures WithId(UpdateWebhook(users, id, calendarId, channelId, expiry), id)
            == [WithWebhook(WithId(users, id)[0], calendarId, channelId, expiry)]
  {
    var head, rest := users[0], users[1..];
    assert users == [head] + rest;
    var after := UpdateWebhook(users, id, calendarId, channelId, expiry);
    var restAfter := UpdateWebhook(rest, id, calendarId, channelId, expiry);
    assert after == [after[0]] + restAfter;
    FilterAppend([head], rest, HasId(id));
    FilterAppend([after[0]], restAfter, HasId(id));
    if head.id == id {
      assert WithId(rest, id) == [];
      UpdateWithoutRow(rest, id, calendarId, channelId, expiry);
    } else {
      UpdateSingleRow(rest, id, calendarId, channelId, expiry);
    }
  }

  /**
   * When exactly one row has the id and no row held the new channel before,
   * after the update that row is the only one holding the channel.
   */
  lemma UpdateClaimsChannel(users: seq<UserRecord>, id: string, calendarId: string, channelId: string, expiry: int)
    requires |WithId(users, id)| == 1
    requires WithChannel(users, channelId) == []
    ensures WithChannel(UpdateWebhook(users, id, calendarId, channelId, expiry), channelId)
            == [WithWebhook(WithId(users, id)[0], calendarId, channelId, expiry)]
  {
    var after := UpdateWebhook(users, id, calendarId, channelId, expiry);
    forall i | 0 <= i < |after|
      ensures HoldsChannel(channelId)(after[i]) == HasId(id)(after[i])
    {
      FilterMembership(users, HoldsChannel(channelId), users[i]);
    }
    FilterAgree(after, HoldsChannel(channelId), HasId(id));
    UpdateSingleRow(users, id, calendarId, channelId, expiry);
  }
}
