/**
 * The Supabase edge function that receives Google Calendar push notifications
 * (supabase/functions/calendar-webhook/index.ts). It maps the request method,
 * the `X-Goog-Channel-ID` and `X-Goog-Resource-State` headers and the lookup of
 * the user holding the channel to a status code and a JSON body. It only reads
 * `users`: the handler returns a response and no tables.
 */
module CalendarWebhook {
  import opened JsValues
  import opened Store

  const JsonContentType := "application/json"
  const MissingChannelMessage := "Missing channel ID"
  const UserNotFoundMessage := "User not found"
  const InternalErrorMessage := "Internal server error"

  /** The fixed CORS headers carried by every response. */
  const CorsHeaders: map<string, string> := map[
    "Access-Control-Allow-Origin" := "*",
    "Access-Control-Allow-Methods" := "POST, OPTIONS",
    "Access-Control-Allow-Headers" := "Content-Type, Authorization, X-Goog-Channel-ID, X-Goog-Resource-ID, X-Goog-Resource-State, X-Goog-Channel-Expiration, X-Goog-Channel-Token, X-Goog-Message-Number"
  ]

  /** `{ ...corsHeaders, 'Content-Type': 'application/json' }` */
  const JsonHeaders: map<string, string> := CorsHeaders["Content-Type" := JsonContentType]

  /**
   * An incoming request. Header names are case-insensitive, so they are kept
   * here in lower case.
   */
  datatype Request = Request(httpMethod: string, headers: map<string, string>)

  /** `req.headers.get(name)` for a lower-case name: null when the header is absent. */
  function Header(req: Request, name: string): Option<string> {
    if name in req.headers then Some(req.headers[name]) else None
  }

  /** A value thrown inside the `try` block (by the client construction). */
  datatype Fault = FaultError(message: string) | FaultNonError

  /** The JSON body of a response. */
  datatype Body =
    | NoBody
    | ErrorBody(error: string)
    | FailureBody(error: string, timestamp: string)
    | Ack(success: bool, userId: string, channelId: string, resourceState: Option<string>, timestamp: string)

  datatype Response = Response(status: int, headers: map<string, string>, body: Body)

  /** Every CORS header is present with its fixed value. */
  predicate CarriesCors(r: Response) {
    forall name :: name in CorsHeaders ==> name in r.headers && r.headers[name] == CorsHeaders[name]
  }

  /**
   * `.from('users').select('id, email').eq('webhook_channel_id', channelId).single()`:
   * the row when exactly one user holds the channel and the query itself did not fail.
   */
  function ChannelOwner(users: seq<UserRecord>, channelId: string, queryFails: bool): (r: Option<UserRecord>)
    ensures r.Some? <==> !queryFails && |WithChannel(users, channelId)| == 1
    ensures r.Some? ==> r.value == WithChannel(users, channelId)[0] && r.value.webhookChannelId == Some(channelId)
  {
    if queryFails then None else Single(WithChannel(users, channelId))
  }

  /**
   * The handler. `fault` is a value thrown while the client is built, `users`
   * the table the lookup reads, `queryFails` a failure of the lookup itself and
   * `timestamp` the `new Date().toISOString()` value.
   */
  function Handle(req: Request, fault: Option<Fault>, users: seq<UserRecord>, queryFails: bool, timestamp: string): (r: Response)
    ensures CarriesCors(r)
    ensures req.httpMethod == "OPTIONS" ==> r == Response(200, CorsHeaders, NoBody)
    ensures req.httpMethod != "OPTIONS" ==> r.headers == JsonHeaders
    ensures req.httpMethod != "OPTIONS" && fault.Some? ==>
              && r.status == 500
              && r.body == FailureBody(if fault.value.FaultError? then fault.value.message else "Internal server error", timestamp)
    ensures req.httpMethod != "OPTIONS" && fault.None? && !Truthy(Header(req, "x-goog-channel-id")) ==>
              r == Response(400, JsonHeaders, ErrorBody("Missing channel ID"))
    ensures r.status == 404 <==>
              && req.httpMethod != "OPTIONS" && fault.None? && Truthy(Header(req, "x-goog-channel-id"))
              && (queryFails || |WithChannel(users, Header(req, "x-goog-channel-id").value)| != 1)
    ensures r.status == 404 ==> r.body == ErrorBody("User not found")
    ensures r.body.Ack? ==>
              && r.status == 200 && r.body.success
              && Header(req, "x-goog-channel-id") == Some(r.body.channelId)
              && r.body.resourceState == Header(req, "x-goog-resource-state")
              && !queryFails
              && |WithChannel(users, r.body.channelId)| == 1
              && r.body.userId == WithChannel(users, r.body.channelId)[0].id
              && r.body.timestamp == timestamp
    ensures r.status == 200 <==> req.httpMethod == "OPTIONS" || r.body.Ack?
  {
    if req.httpMethod == "OPTIONS" then Response(200, CorsHeaders, NoBody)
    else if fault.Some? then
      var message := if fault.value.FaultError? then fault.value.message else InternalErrorMessage;
      Response(500, JsonHeaders, FailureBody(message, timestamp))
    else
      var channelId := Header(req, "x-goog-channel-id");
      var resourceState := Header(req, "x-goog-resource-state");
      if !Truthy(channelId) then Response(400, JsonHeaders, ErrorBody(MissingChannelMessage))
      else
        var owner := ChannelOwner(users, channelId.value, queryFails);
        if owner.None? then Response(404, JsonHeaders, ErrorBody(UserNotFoundMessage))
        else Response(200, JsonHeaders, Ack(true, owner.value.id, channelId.value, resourceState, timestamp))
  }

  /**
   * The preflight and the channel-id check are decided before the lookup: their
   * responses do not depend on the table or on whether the query would fail.
   */
  lemma DecidedBeforeLookup(req: Request, fault: Option<Fault>, users1: seq<UserRecord>, users2: seq<UserRecord>,
                            fails1: bool, fails2: bool, timestamp: string)
    requires req.httpMethod == "OPTIONS" || fault.Some? || !Truthy(Header(req, "x-goog-channel-id"))
    ensures Handle(req, fault, users1, fails1, timestamp) == Handle(req, fault, users2, fails2, timestamp)
  {
  }

  /** A notification for a channel held by exactly one user is acknowledged for that user. */
  lemma AcknowledgesSoleHolder(req: Request, users: seq<UserRecord>, holder: UserRecord, timestamp: string)
    requires req.httpMethod != "OPTIONS"
    requires Header(req, "x-goog-channel-id").Some? && Header(req, "x-goog-channel-id").value != ""
    requires WithChannel(users, Header(req, "x-goog-channel-id").value) == [holder]
    ensures Handle(req, None, users, false, timestamp)
            == Response(200, JsonHeaders, Ack(true, holder.id, Header(req, "x-goog-channel-id").value, Header(req, "x-goog-resource-state"), timestamp))
  {
  }
}
