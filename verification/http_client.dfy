/**
 * The authenticated request client (`src/api/http-client.ts`): the token pair kept in
 * browser storage, per-request headers, the normalised error for a failed response, and
 * the process-wide refresh coordinator that lets only one refresh be in flight.
 *
 * Every request is a `Call` of an `AuthClient`. The network and the promise machinery are
 * replaced by event methods: `Request` sends the first fetch, `ReceiveResponse` delivers
 * its response, `CompleteRefresh` delivers the result of the leader's refresh, and
 * `ReceiveRetryResponse` delivers the response to the retried fetch.
 */
module HttpClient {
  import opened Wrappers
  import opened Text
  import opened JsValue

  /** The storage key of the token pair. */
  const StorageKey := "auth_tokens"

  // ---------------------------------------------------------------------------
  // Token store
  // ---------------------------------------------------------------------------

  /** `JSON.stringify` and `JSON.parse` (`None` when parsing throws). */
  datatype JsonCodec = JsonCodec(stringify: Json -> string, parse: string -> Option<Json>)

  /** The object `setTokens` writes: `{accessToken, refreshToken}`. */
  function TokenRecord(access: Json, refresh: Json): (r: Json)
    ensures Field(r, "accessToken") == access && Field(r, "refreshToken") == refresh
  {
    var props := [Prop("accessToken", access), Prop("refreshToken", refresh)];
    IndexOfFirst(props, "accessToken", 0);
    IndexOfFirst(props, "refreshToken", 1);
    Obj(props)
  }

  /** A value of a parsed body, or `undefined` for a missing field: what a token can be. */
  ghost predicate Storable(j: Json) {
    IsData(j) || j.Undefined?
  }

  /**
   * What the model assumes of `JSON.stringify`/`JSON.parse`: the written text is never
   * empty and reading it back gives an object whose two fields are the ones written (a
   * field that was `undefined` is left out and so reads back as `undefined`).
   */
  ghost predicate Lawful(c: JsonCodec) {
    forall a: Json, r: Json :: Storable(a) && Storable(r) ==>
      var raw := c.stringify(TokenRecord(a, r));
      raw != "" && c.parse(raw).Some?
      && Field(c.parse(raw).value, "accessToken") == a
      && Field(c.parse(raw).value, "refreshToken") == r
  }

  /** `getTokens`: `null` outside a browser, for a missing or empty entry, or for text that does not parse. */
  function ReadTokens(inBrowser: bool, storage: map<string, string>, codec: JsonCodec): (t: Json)
    ensures !inBrowser || StorageKey !in storage ==> t == Null
  {
    if !inBrowser then Null
    else if StorageKey !in storage || storage[StorageKey] == "" then Null
    else match codec.parse(storage[StorageKey])
      case None => Null
      case Some(v) => v
  }

  /** An entry that does not parse reads as no tokens. */
  lemma MalformedReadsNull(storage: map<string, string>, codec: JsonCodec)
    requires StorageKey in storage && codec.parse(storage[StorageKey]).None?
    ensures ReadTokens(true, storage, codec) == Null
  {
  }

  /** `setTokens` then `getTokens` gives back the pair that was written. */
  lemma ReadAfterWrite(storage: map<string, string>, codec: JsonCodec, a: Json, r: Json)
    requires Lawful(codec) && Storable(a) && Storable(r)
    ensures var t := ReadTokens(true, storage[StorageKey := codec.stringify(TokenRecord(a, r))], codec);
      Field(t, "accessToken") == a && Field(t, "refreshToken") == r
  {
  }

  // ---------------------------------------------------------------------------
  // Headers
  // ---------------------------------------------------------------------------

  /** The body of a request: only its being `FormData` matters to the client. */
  datatype Body = NoBody | Text(s: string) | FormData

  /** Whether a request sends a bearer token: a protected request whose stored access token is truthy. */
  predicate Authorised(tokens: Json, isPublic: bool) {
    Truthy(Field(tokens, "accessToken")) && !isPublic
  }

  function Bearer(token: Json): Json {
    Str("Bearer " + JsString(token))
  }

  /** The headers of the first fetch of a request. */
  function RequestHeaders(caller: seq<Prop>, tokens: Json, isPublic: bool, body: Body): seq<Prop> {
    var h0 := PutAll([Prop("Content-Type", Str("application/json"))], caller);
    var h1 := if Authorised(tokens, isPublic) then Put(h0, "Authorization", Bearer(Field(tokens, "accessToken"))) else h0;
    if body.FormData? then Delete(h1, "Content-Type") else h1
  }

  /** The header statements of `apiRequest`: defaults, the caller's spread, the bearer token, the `FormData` deletion. */
  method BuildHeaders(caller: seq<Prop>, tokens: Json, isPublic: bool, body: Body) returns (headers: seq<Prop>)
    ensures headers == RequestHeaders(caller, tokens, isPublic, body)
  {
    headers := PutAll([Prop("Content-Type", Str("application/json"))], caller);
    if Truthy(Field(tokens, "accessToken")) && !isPublic {
      headers := Put(headers, "Authorization", Bearer(Field(tokens, "accessToken")));
    }
    if body.FormData? {
      headers := Delete(headers, "Content-Type");
    }
  }

  /**
   * Header by header: `Content-Type` is the caller's or `application/json` and is absent for
   * `FormData`; `Authorization` is the bearer token when authorised, overriding the caller;
   * every other header is the caller's.
   */
  lemma RequestHeadersLookup(caller: seq<Prop>, tokens: Json, isPublic: bool, body: Body, k: string)
    requires DistinctKeys(caller)
    ensures Lookup(RequestHeaders(caller, tokens, isPublic, body), k) ==
      if k == "Content-Type" then
        (if body.FormData? then Undefined
         else if k in Keys(caller) then Lookup(caller, k)
         else Str("application/json"))
      else if k == "Authorization" && Authorised(tokens, isPublic) then Bearer(Field(tokens, "accessToken"))
      else Lookup(caller, k)
  {
    var base := [Prop("Content-Type", Str("application/json"))];
    var h0 := PutAll(base, caller);
    LookupPutAll(base, caller, k);
    LookupTail(base, k);
    var h1 := if Authorised(tokens, isPublic) then Put(h0, "Authorization", Bearer(Field(tokens, "accessToken"))) else h0;
    if Authorised(tokens, isPublic) {
      if k == "Authorization" {
        LookupPutSame(h0, k, Bearer(Field(tokens, "accessToken")));
      } else {
        LookupPutOther(h0, "Authorization", Bearer(Field(tokens, "accessToken")), k);
      }
    }
    if body.FormData? && k != "Content-Type" {
      LookupDeleteOther(h1, "Content-Type", k);
    }
  }

  /** A public request never adds a bearer token: its `Authorization` header is whatever the caller passed. */
  lemma PublicRequestNotAuthorised(caller: seq<Prop>, body: Body)
    requires DistinctKeys(caller)
    ensures Lookup(RequestHeaders(caller, Null, true, body), "Authorization") == Lookup(caller, "Authorization")
  {
    RequestHeadersLookup(caller, Null, true, body, "Authorization");
  }

  // ---------------------------------------------------------------------------
  // Responses
  // ---------------------------------------------------------------------------

  /** A fetch response: its status and the result of `res.json()` (`None` when the body does not parse). */
  datatype Response = Response(status: int, body: Option<Json>)

  predicate IsOk(status: int) {
    200 <= status <= 299
  }

  /** How a call to `apiRequest` ends. */
  datatype Outcome =
    | Resolved(value: Json)
    | ApiError(message: string, status: int, path: string, body: Json)
    | Thrown(message: string)

  /**
   * The message of the error for a failed response: `body.message || body.error ||
   * "API error {status}"`; `None` when `body` is `null` and reading `.message` throws.
   */
  function ErrorMessage(body: Json, status: int): (m: Option<string>)
    ensures m.None? <==> Nullish(body)
    ensures m.Some? && !Truthy(Field(body, "message")) && !Truthy(Field(body, "error"))
      ==> m.value == "API error " + IntToString(status)
    ensures m.Some? && Truthy(Field(body, "message")) ==> m.value == JsString(Field(body, "message"))
    ensures m.Some? && !Truthy(Field(body, "message")) && Truthy(Field(body, "error"))
      ==> m.value == JsString(Field(body, "error"))
  {
    if Nullish(body) then None
    else Some(JsString(Or(Or(Field(body, "message"), Field(body, "error")), Str("API error " + IntToString(status)))))
  }

  /** How the final response of a call settles it. */
  function Settle(path: string, res: Response): Outcome {
    if !IsOk(res.status) then
      var body := if res.body.None? then Obj([]) else res.body.value;
      match ErrorMessage(body, res.status)
      case None => Thrown("TypeError")
      case Some(m) => ApiError(m, res.status, path, body)
    else if res.status == 204 then Resolved(Undefined)
    else match res.body
      case None => Thrown("SyntaxError")
      case Some(b) => Resolved(b)
  }

  /**
   * A non-OK response is an error carrying its status, the path and the body (`{}` when the
   * body does not parse); 204 resolves to `undefined`; any other OK response resolves to its
   * parsed body.
   */
  lemma SettleOutcome(path: string, res: Response)
    ensures var o := Settle(path, res);
      && (!IsOk(res.status) ==> !o.Resolved?)
      && (!IsOk(res.status) && o.ApiError? ==> o.status == res.status && o.path == path)
      && (!IsOk(res.status) && res.body.Some? && !Nullish(res.body.value) ==>
            o == ApiError(ErrorMessage(res.body.value, res.status).value, res.status, path, res.body.value))
      && (!IsOk(res.status) && res.body.None? ==> o == ApiError("API error " + IntToString(res.status), res.status, path, Obj([])))
      && (IsOk(res.status) && res.status == 204 ==> o == Resolved(Undefined))
      && (IsOk(res.status) && res.status != 204 && res.body.Some? ==> o == Resolved(res.body.value))
  {
  }

  /** `tokens?.refreshToken` is truthy. */
  predicate HasRefreshToken(tokens: Json) {
    Truthy(Field(tokens, "refreshToken"))
  }

  /** A refresh is attempted only for a 401 on a protected request whose tokens, read at its start, held a refresh token. */
  predicate ShouldRefresh(status: int, tokens: Json, isPublic: bool) {
    status == 401 && HasRefreshToken(tokens) && !isPublic
  }

  // ---------------------------------------------------------------------------
  // refreshAccessToken
  // ---------------------------------------------------------------------------

  /** What the refresh endpoint does: throws, answers non-OK, or answers OK with `res.json()` (`None` when it throws). */
  datatype RefreshNet = NetworkError | NotOk | OkBody(data: Option<Json>)

  datatype StoreEffect = Keep | Store(access: Json, refresh: Json) | Clear

  /** The token `refreshAccessToken` returns, its effect on storage, and whether it called the network. */
  datatype RefreshResult = RefreshResult(token: Json, effect: StoreEffect, networkCall: bool)

  /** `refreshAccessToken`, given the tokens it reads and the endpoint's behaviour. */
  function RefreshAccessToken(stored: Json, net: RefreshNet): RefreshResult {
    if !HasRefreshToken(stored) then RefreshResult(Null, Keep, false)
    else match net
      case NetworkError => RefreshResult(Null, Clear, true)
      case NotOk => RefreshResult(Null, Clear, true)
      case OkBody(None) => RefreshResult(Null, Clear, true)
      case OkBody(Some(data)) =>
        if Nullish(data) then RefreshResult(Null, Clear, true)
        else
          var access := Field(data, "accessToken");
          RefreshResult(access, Store(access, Field(data, "refreshToken")), true)
  }

  /**
   * Without a stored refresh token: `null`, storage kept, no network call. A failed or non-OK
   * refresh, or a body that cannot be read: `null` and storage cleared. Success: the new pair
   * is stored and the new access token returned.
   */
  lemma RefreshAccessTokenSpec(stored: Json, net: RefreshNet)
    ensures var r := RefreshAccessToken(stored, net);
      && (!HasRefreshToken(stored) <==> !r.networkCall)
      && (!r.networkCall ==> r == RefreshResult(Null, Keep, false))
      && (r.networkCall && (net.NetworkError? || net.NotOk? || (net.OkBody? && net.data.None?)) ==> r == RefreshResult(Null, Clear, true))
      && (r.effect.Store? <==> r.networkCall && net.OkBody? && net.data.Some? && !Nullish(net.data.value))
      && (r.effect.Store? ==>
            r.token == r.effect.access
            && r.effect.access == Field(net.data.value, "accessToken")
            && r.effect.refresh == Field(net.data.value, "refreshToken"))
      && (!r.effect.Store? ==> r.token == Null && !Truthy(r.token))
  {
  }

  // ---------------------------------------------------------------------------
  // The client
  // ---------------------------------------------------------------------------

  type CallId = nat

  /**
   * Where a call is: waiting for its first response, leading a refresh (with the tokens the
   * refresh read), queued behind the leader, stranded in a queue that was emptied without
   * releasing it, waiting for its retried response, or settled.
   */
  datatype Phase =
    | AwaitingResponse
    | Leading(refreshTokens: Json)
    | Following
    | Stranded
    | AwaitingRetry
    | Settled(outcome: Outcome)

  /** One invocation of `apiRequest`: its arguments, the tokens it read, its current headers and every fetch it sent. */
  datatype Call = Call(path: string, isPublic: bool, tokens: Json, headers: seq<Prop>, sent: seq<seq<Prop>>, phase: Phase)

  /** A refresh token was read at the start and the call is protected: what a call taking part in a refresh must satisfy. */
  ghost predicate WellFormedCall(c: Call) {
    && 1 <= |c.sent| <= 2
    && c.sent[|c.sent| - 1] == c.headers
    && (|c.sent| == 2 <==> c.phase.AwaitingRetry? || (c.phase.Settled? && |c.sent| == 2))
    && (c.isPublic ==> c.tokens == Null && |c.sent| == 1 && (c.phase.AwaitingResponse? || c.phase.Settled?))
    && (!(c.phase.AwaitingResponse? || c.phase.Settled?) || |c.sent| == 2 ==> HasRefreshToken(c.tokens))
  }

  /** The call after the refreshed token arrived: bearer header replaced, fetch sent again. */
  function Retried(c: Call, token: Json): Call {
    var h := Put(c.headers, "Authorization", Bearer(token));
    c.(headers := h, sent := c.sent + [h], phase := AwaitingRetry)
  }

  /** The retried fetch carries `Bearer {token}` and otherwise the headers of the first. */
  lemma RetriedHeaders(c: Call, token: Json, k: string)
    ensures Lookup(Retried(c, token).headers, k) == if k == "Authorization" then Bearer(token) else Lookup(c.headers, k)
    ensures Retried(c, token).phase == AwaitingRetry && Retried(c, token).sent == c.sent + [Retried(c, token).headers]
  {
    if k == "Authorization" {
      LookupPutSame(c.headers, k, Bearer(token));
    } else {
      LookupPutOther(c.headers, "Authorization", Bearer(token), k);
    }
  }

  /** Every call has an identifier below `nextId` and is well formed. */
  ghost predicate CallsWellFormed(calls: map<CallId, Call>, nextId: nat) {
    forall id :: id in calls ==> id < nextId && WellFormedCall(calls[id])
  }

  /**
   * The coordinator's invariant: the flag is set exactly while one call leads a refresh, and
   * the queue holds exactly the calls following it, each once, and is empty otherwise.
   */
  ghost predicate Coordinated(calls: map<CallId, Call>, isRefreshing: bool, leader: Option<CallId>, queue: seq<CallId>) {
    && (isRefreshing <==> leader.Some?)
    && (leader.Some? ==> leader.value in calls && calls[leader.value].phase.Leading?)
    && (forall id :: id in calls && calls[id].phase.Leading? ==> leader == Some(id))
    && (forall i :: 0 <= i < |queue| ==> queue[i] in calls && calls[queue[i]].phase.Following?)
    && (forall i, j :: 0 <= i < j < |queue| ==> queue[i] != queue[j])
    && (forall id :: id in calls && calls[id].phase.Following? ==> id in queue)
    && (!isRefreshing ==> queue == [])
  }

  /** How many refresh requests are outstanding: one while the leader's refresh is on the network. */
  ghost function Outstanding(calls: map<CallId, Call>, leader: Option<CallId>): nat {
    if leader.Some? && leader.value in calls && calls[leader.value].phase.Leading?
       && HasRefreshToken(calls[leader.value].phase.refreshTokens)
    then 1 else 0
  }

  /** A new call waiting for its first response keeps the invariants. */
  lemma AddCallKeepsCoordinated(calls: map<CallId, Call>, isRefreshing: bool, leader: Option<CallId>, queue: seq<CallId>,
                                nextId: nat, c: Call)
    requires CallsWellFormed(calls, nextId) && Coordinated(calls, isRefreshing, leader, queue)
    requires WellFormedCall(c) && c.phase.AwaitingResponse?
    ensures var calls' := calls[nextId := c];
      CallsWellFormed(calls', nextId + 1) && Coordinated(calls', isRefreshing, leader, queue)
      && Outstanding(calls', leader) == Outstanding(calls, leader)
  {
  }

  /** Settling a call that is not part of a refresh keeps the coordinator's invariant. */
  lemma SettleKeepsCoordinated(calls: map<CallId, Call>, isRefreshing: bool, leader: Option<CallId>, queue: seq<CallId>,
                               nextId: nat, id: CallId, o: Outcome)
    requires CallsWellFormed(calls, nextId) && Coordinated(calls, isRefreshing, leader, queue)
    requires id in calls && (calls[id].phase.AwaitingResponse? || calls[id].phase.AwaitingRetry?)
    ensures var calls' := calls[id := calls[id].(phase := Settled(o))];
      CallsWellFormed(calls', nextId) && Coordinated(calls', isRefreshing, leader, queue)
      && Outstanding(calls', leader) == Outstanding(calls, leader)
  {
    var calls' := calls[id := calls[id].(phase := Settled(o))];
    assert forall i :: 0 <= i < |queue| ==> queue[i] != id;
  }

  /** A 401 while a refresh runs: the call joins the queue. */
  lemma EnqueueKeepsCoordinated(calls: map<CallId, Call>, leader: Option<CallId>, queue: seq<CallId>,
                                nextId: nat, id: CallId)
    requires CallsWellFormed(calls, nextId) && Coordinated(calls, true, leader, queue)
    requires id in calls && calls[id].phase.AwaitingResponse? && !calls[id].isPublic
    requires HasRefreshToken(calls[id].tokens)
    ensures var calls' := calls[id := calls[id].(phase := Following)];
      CallsWellFormed(calls', nextId) && Coordinated(calls', true, leader, queue + [id])
      && Outstanding(calls', leader) == Outstanding(calls, leader)
  {
    assert forall i :: 0 <= i < |queue| ==> queue[i] != id;
  }

  /** A 401 while no refresh runs: the call becomes the leader. */
  lemma LeadKeepsCoordinated(calls: map<CallId, Call>, queue: seq<CallId>, nextId: nat, id: CallId, stored: Json)
    requires CallsWellFormed(calls, nextId) && Coordinated(calls, false, None, queue)
    requires id in calls && calls[id].phase.AwaitingResponse? && !calls[id].isPublic
    requires HasRefreshToken(calls[id].tokens)
    ensures var calls' := calls[id := calls[id].(phase := Leading(stored))];
      CallsWellFormed(calls', nextId) && Coordinated(calls', true, Some(id), queue)
      && Outstanding(calls', Some(id)) == if HasRefreshToken(stored) then 1 else 0
  {
  }

  /** Storage after a `setTokens`, a `clearTokens` or neither; both do nothing outside a browser. */
  function Effect(inBrowser: bool, codec: JsonCodec, storage: map<string, string>, e: StoreEffect): map<string, string> {
    if !inBrowser then storage
    else match e
      case Keep => storage
      case Clear => storage - {StorageKey}
      case Store(a, t) => storage[StorageKey := codec.stringify(TokenRecord(a, t))]
  }

  /** The calls once the leader's refresh has produced `token`. */
  function AfterRefresh(calls: map<CallId, Call>, leader: CallId, queue: seq<CallId>, token: Json): map<CallId, Call> {
    map id | id in calls :: CallAfterRefresh(calls[id], id in queue, id == leader, token)
  }

  /** One call once the refresh has produced `token`, given whether it was queued or leading. */
  function CallAfterRefresh(c: Call, queued: bool, leading: bool, token: Json): Call {
    if Truthy(token) && (queued || leading) then Retried(c, token)
    else if queued then c.(phase := Stranded)
    else if leading then c.(phase := Settled(Thrown("Session expired")))
    else c
  }

  lemma RetriedWellFormed(c: Call, token: Json)
    requires WellFormedCall(c) && (c.phase.Leading? || c.phase.Following?)
    ensures WellFormedCall(Retried(c, token))
  {
    assert Retried(c, token).sent == [c.headers, Retried(c, token).headers];
  }

  /**
   * With a truthy token the leader and every queued call retry with that token; otherwise the
   * queued calls are stranded and the leader fails with `Session expired`; no other call moves.
   */
  lemma AfterRefreshPhases(calls: map<CallId, Call>, leader: CallId, queue: seq<CallId>, token: Json, id: CallId)
    requires id in calls
    ensures var c := AfterRefresh(calls, leader, queue, token)[id];
      if id in queue || id == leader then
        (Truthy(token) ==> c.phase == AwaitingRetry && Lookup(c.headers, "Authorization") == Bearer(token))
        && (!Truthy(token) && id in queue ==> c.phase == Stranded && c.sent == calls[id].sent)
        && (!Truthy(token) && id !in queue ==> c.phase == Settled(Thrown("Session expired")))
      else c == calls[id]
  {
    RetriedHeaders(calls[id], token, "Authorization");
  }

  /** `refreshQueue = []` after a failed refresh: the queued calls are left waiting forever. */
  function Strand(calls: map<CallId, Call>, queue: seq<CallId>): map<CallId, Call> {
    map id | id in calls :: if id in queue then calls[id].(phase := Stranded) else calls[id]
  }

  lemma ReleasedIsAfter(calls: map<CallId, Call>, m: map<CallId, Call>, queue: seq<CallId>, lead: CallId, token: Json)
    requires Truthy(token) && lead in calls && lead !in queue && m.Keys == calls.Keys
    requires forall id :: id in m ==> m[id] == if id in queue then Retried(calls[id], token) else calls[id]
    ensures m[lead := Retried(m[lead], token)] == AfterRefresh(calls, lead, queue, token)
  {
  }

  lemma StrandedIsAfter(calls: map<CallId, Call>, queue: seq<CallId>, lead: CallId, token: Json)
    requires !Truthy(token) && lead in calls && lead !in queue
    ensures Strand(calls, queue)[lead := calls[lead].(phase := Settled(Thrown("Session expired")))]
            == AfterRefresh(calls, lead, queue, token)
  {
  }

  /** A leader or follower leaves the refresh well formed and neither leading nor following. */
  lemma CallAfterRefreshWellFormed(c: Call, queued: bool, leading: bool, token: Json)
    requires WellFormedCall(c)
    requires queued ==> c.phase.Following?
    requires leading ==> c.phase.Leading?
    requires !queued && !leading ==> !c.phase.Leading? && !c.phase.Following?
    ensures var c' := CallAfterRefresh(c, queued, leading, token);
      WellFormedCall(c') && !c'.phase.Leading? && !c'.phase.Following?
  {
    if Truthy(token) && (queued || leading) {
      RetriedWellFormed(c, token);
    }
  }

  /** Once the refresh completes, nobody leads or follows and the invariants hold with an empty queue. */
  lemma AfterRefreshCoordinated(calls: map<CallId, Call>, leader: CallId, queue: seq<CallId>, nextId: nat, token: Json)
    requires CallsWellFormed(calls, nextId) && Coordinated(calls, true, Some(leader), queue)
    ensures var calls' := AfterRefresh(calls, leader, queue, token);
      CallsWellFormed(calls', nextId) && Coordinated(calls', false, None, [])
      && Outstanding(calls', None) == 0
  {
    var calls' := AfterRefresh(calls, leader, queue, token);
    forall id | id in calls'
      ensures id < nextId && WellFormedCall(calls'[id]) && !calls'[id].phase.Leading? && !calls'[id].phase.Following?
    {
      CallAfterRefreshWellFormed(calls[id], id in queue, id == leader, token);
    }
  }

  /** While a refresh is led, the queue holds distinct calls, none of them the leader. */
  lemma QueueShape(calls: map<CallId, Call>, leader: CallId, queue: seq<CallId>)
    requires Coordinated(calls, true, Some(leader), queue)
    ensures forall i :: 0 <= i < |queue| ==> queue[i] in calls
    ensures forall i, j :: 0 <= i < j < |queue| ==> queue[i] != queue[j]
    ensures leader in calls && leader !in queue
  {
  }

  /** `refreshQueue.forEach((cb) => cb(newToken))`: every queued call retries with the same token. */
  method ReleaseWaiters(calls: map<CallId, Call>, queue: seq<CallId>, token: Json) returns (m: map<CallId, Call>)
    requires forall i :: 0 <= i < |queue| ==> queue[i] in calls
    requires forall i, j :: 0 <= i < j < |queue| ==> queue[i] != queue[j]
    ensures m.Keys == calls.Keys
    ensures forall id :: id in m ==> m[id] == if id in queue then Retried(calls[id], token) else calls[id]
  {
    m := calls;
    var i := 0;
    while i < |queue|
      invariant 0 <= i <= |queue|
      invariant m.Keys == calls.Keys
      invariant forall id :: id in m ==> m[id] == if id in queue[..i] then Retried(calls[id], token) else calls[id]
    {
      var w := queue[i];
      assert w !in queue[..i];
      m := m[w := Retried(m[w], token)];
      assert queue[..i + 1] == queue[..i] + [w];
      i := i + 1;
    }
    assert queue[..i] == queue;
  }

  /**
   * The leader's continuation once `refreshAccessToken` returned `token`: on a truthy token the
   * waiters are released and the leader retries; otherwise the queue is dropped and the leader
   * throws.
   */
  method SettleWaiters(calls: map<CallId, Call>, queue: seq<CallId>, lead: CallId, token: Json)
    returns (calls': map<CallId, Call>)
    requires forall i :: 0 <= i < |queue| ==> queue[i] in calls
    requires forall i, j :: 0 <= i < j < |queue| ==> queue[i] != queue[j]
    requires lead in calls && lead !in queue
    ensures calls' == AfterRefresh(calls, lead, queue, token)
  {
    if Truthy(token) {
      var m := ReleaseWaiters(calls, queue, token);
      ReleasedIsAfter(calls, m, queue, lead, token);
      calls' := m[lead := Retried(m[lead], token)];
    } else {
      StrandedIsAfter(calls, queue, lead, token);
      calls' := Strand(calls, queue)[lead := calls[lead].(phase := Settled(Thrown("Session expired")))];
    }
  }

  class AuthClient {
    /** `typeof window !== 'undefined'`. */
    const inBrowser: bool
    const codec: JsonCodec
    /** `localStorage`. */
    var storage: map<string, string>
    var isRefreshing: bool
    /** The waiters of `refreshQueue`, each identified by the call it resumes. */
    var refreshQueue: seq<CallId>
    var calls: map<CallId, Call>
    var nextId: CallId
    /** The call whose continuation set `isRefreshing` and awaits the refresh. */
    var leader: Option<CallId>
    /** Refresh requests sent to the network, and those whose result has been delivered. */
    ghost var refreshesSent: nat
    ghost var refreshesDone: nat

    ghost predicate Valid()
      reads this
    {
      && CallsWellFormed(calls, nextId)
      && Coordinated(calls, isRefreshing, leader, refreshQueue)
      // single flight: at most one refresh request is outstanding, the leader's
      && refreshesSent == refreshesDone + Outstanding(calls, leader)
    }

    /** The tokens `getTokens` returns now. */
    function GetTokens(): (t: Json)
      reads this
    {
      ReadTokens(inBrowser, storage, codec)
    }

    constructor (inBrowser: bool, codec: JsonCodec, storage: map<string, string>)
      ensures Valid()
      ensures this.inBrowser == inBrowser && this.codec == codec && this.storage == storage
      ensures !isRefreshing && refreshQueue == [] && calls == map[]
    {
      this.inBrowser := inBrowser;
      this.codec := codec;
      this.storage := storage;
      isRefreshing := false;
      refreshQueue := [];
      calls := map[];
      nextId := 0;
      leader := None;
      refreshesSent := 0;
      refreshesDone := 0;
    }

    /** `setTokens`: writes the pair in a browser, does nothing elsewhere. */
    method SetTokens(access: Json, refresh: Json)
      requires Valid()
      modifies this
      ensures Valid()
      ensures storage == if inBrowser then old(storage)[StorageKey := codec.stringify(TokenRecord(access, refresh))] else old(storage)
      ensures inBrowser && Lawful(codec) && Storable(access) && Storable(refresh) ==>
        Field(GetTokens(), "accessToken") == access && Field(GetTokens(), "refreshToken") == refresh
      ensures isRefreshing == old(isRefreshing) && refreshQueue == old(refreshQueue) && calls == old(calls)
      ensures nextId == old(nextId) && leader == old(leader)
      ensures refreshesSent == old(refreshesSent) && refreshesDone == old(refreshesDone)
    {
      if inBrowser {
        storage := storage[StorageKey := codec.stringify(TokenRecord(access, refresh))];
        if Lawful(codec) && Storable(access) && Storable(refresh) {
          ReadAfterWrite(old(storage), codec, access, refresh);
        }
      }
    }

    /** `clearTokens`: removes the pair in a browser; reading afterwards gives no tokens. */
    method ClearTokens()
      requires Valid()
      modifies this
      ensures Valid()
      ensures storage == if inBrowser then old(storage) - {StorageKey} else old(storage)
      ensures GetTokens() == Null || !inBrowser
      ensures isRefreshing == old(isRefreshing) && refreshQueue == old(refreshQueue) && calls == old(calls)
      ensures nextId == old(nextId) && leader == old(leader)
      ensures refreshesSent == old(refreshesSent) && refreshesDone == old(refreshesDone)
    {
      if inBrowser {
        storage := storage - {StorageKey};
      }
    }

    /**
     * `apiRequest` up to its first fetch: tokens are read only for a protected request, the
     * headers are built, and the fetch is sent. Returns the new call.
     */
    method Request(path: string, caller: seq<Prop>, body: Body, isPublic: bool) returns (id: CallId)
      requires Valid()
      modifies this
      ensures Valid()
      ensures id == old(nextId) && id !in old(calls) && nextId == id + 1
      ensures var tokens := if isPublic then Null else old(GetTokens());
        calls == old(calls)[id := Call(path, isPublic, tokens, RequestHeaders(caller, tokens, isPublic, body),
                                      [RequestHeaders(caller, tokens, isPublic, body)], AwaitingResponse)]
      ensures storage == old(storage) && isRefreshing == old(isRefreshing) && refreshQueue == old(refreshQueue)
      ensures leader == old(leader) && refreshesSent == old(refreshesSent) && refreshesDone == old(refreshesDone)
    {
      var tokens := if !isPublic then GetTokens() else Null;
      var headers := BuildHeaders(caller, tokens, isPublic, body);
      id := nextId;
      AddCallKeepsCoordinated(calls, isRefreshing, leader, refreshQueue, nextId,
                              Call(path, isPublic, tokens, headers, [headers], AwaitingResponse));
      calls := calls[id := Call(path, isPublic, tokens, headers, [headers], AwaitingResponse)];
      nextId := nextId + 1;
    }

    /** `publicApiRequest`: a request with `publicRequest` set. */
    method PublicRequest(path: string, caller: seq<Prop>, body: Body) returns (id: CallId)
      requires Valid()
      modifies this
      ensures Valid()
      ensures id == old(nextId) && id !in old(calls)
      ensures calls == old(calls)[id := Call(path, true, Null, RequestHeaders(caller, Null, true, body),
                                             [RequestHeaders(caller, Null, true, body)], AwaitingResponse)]
      ensures storage == old(storage) && isRefreshing == old(isRefreshing) && refreshQueue == old(refreshQueue)
      ensures refreshesSent == old(refreshesSent)
    {
      id := Request(path, caller, body, true);
    }

    /**
     * The first response of call `id` arrives. A 401 on a protected call that read a refresh
     * token makes the call the leader (reading the tokens again and, when they hold a refresh
     * token, sending the one refresh) if no refresh is running, and queues it otherwise. Any
     * other response settles the call.
     */
    method ReceiveResponse(id: CallId, res: Response)
      requires Valid()
      requires id in calls && calls[id].phase.AwaitingResponse?
      modifies this
      ensures Valid()
      ensures var c := old(calls[id]);
        !ShouldRefresh(res.status, c.tokens, c.isPublic) ==>
          calls == old(calls)[id := c.(phase := Settled(Settle(c.path, res)))]
          && isRefreshing == old(isRefreshing) && refreshQueue == old(refreshQueue)
          && refreshesSent == old(refreshesSent)
      ensures var c := old(calls[id]);
        ShouldRefresh(res.status, c.tokens, c.isPublic) && old(isRefreshing) ==>
          calls == old(calls)[id := c.(phase := Following)]
          && isRefreshing && refreshQueue == old(refreshQueue) + [id] && leader == old(leader)
          && refreshesSent == old(refreshesSent)
      ensures var c := old(calls[id]);
        ShouldRefresh(res.status, c.tokens, c.isPublic) && !old(isRefreshing) ==>
          calls == old(calls)[id := c.(phase := Leading(old(GetTokens())))]
          && isRefreshing && leader == Some(id) && refreshQueue == []
          && refreshesSent == old(refreshesSent) + (if HasRefreshToken(old(GetTokens())) then 1 else 0)
      ensures storage == old(storage) && nextId == old(nextId) && refreshesDone == old(refreshesDone)
    {
      var c := calls[id];
      if res.status == 401 && HasRefreshToken(c.tokens) && !c.isPublic {
        if !isRefreshing {
          Lead(id);
        } else {
          Follow(id);
        }
      } else {
        Finish(id, Settle(c.path, res));
      }
    }

    /** `isRefreshing = true; await refreshAccessToken()`: the call leads, and a refresh is sent if storage holds a refresh token. */
    method Lead(id: CallId)
      requires Valid() && !isRefreshing
      requires id in calls && calls[id].phase.AwaitingResponse? && !calls[id].isPublic && HasRefreshToken(calls[id].tokens)
      modifies this
      ensures Valid()
      ensures calls == old(calls)[id := old(calls[id]).(phase := Leading(old(GetTokens())))]
      ensures isRefreshing && leader == Some(id) && refreshQueue == []
      ensures refreshesSent == old(refreshesSent) + (if HasRefreshToken(old(GetTokens())) then 1 else 0)
      ensures storage == old(storage) && nextId == old(nextId) && refreshesDone == old(refreshesDone)
    {
      var stored := GetTokens();
      LeadKeepsCoordinated(calls, refreshQueue, nextId, id, stored);
      isRefreshing := true;
      calls := calls[id := calls[id].(phase := Leading(stored))];
      leader := Some(id);
      if HasRefreshToken(stored) {
        refreshesSent := refreshesSent + 1;
      }
    }

    /** `refreshQueue.push(resolve)`: the call waits for the running refresh. */
    method Follow(id: CallId)
      requires Valid() && isRefreshing
      requires id in calls && calls[id].phase.AwaitingResponse? && !calls[id].isPublic && HasRefreshToken(calls[id].tokens)
      modifies this
      ensures Valid()
      ensures calls == old(calls)[id := old(calls[id]).(phase := Following)]
      ensures isRefreshing && refreshQueue == old(refreshQueue) + [id] && leader == old(leader)
      ensures refreshesSent == old(refreshesSent) && refreshesDone == old(refreshesDone)
      ensures storage == old(storage) && nextId == old(nextId)
    {
      EnqueueKeepsCoordinated(calls, leader, refreshQueue, nextId, id);
      calls := calls[id := calls[id].(phase := Following)];
      refreshQueue := refreshQueue + [id];
    }

    /** The call settles with outcome `o`. */
    method Finish(id: CallId, o: Outcome)
      requires Valid()
      requires id in calls && (calls[id].phase.AwaitingResponse? || calls[id].phase.AwaitingRetry?)
      modifies this
      ensures Valid()
      ensures calls == old(calls)[id := old(calls[id]).(phase := Settled(o))]
      ensures isRefreshing == old(isRefreshing) && refreshQueue == old(refreshQueue) && leader == old(leader)
      ensures refreshesSent == old(refreshesSent) && refreshesDone == old(refreshesDone)
      ensures storage == old(storage) && nextId == old(nextId)
    {
      SettleKeepsCoordinated(calls, isRefreshing, leader, refreshQueue, nextId, id, o);
      calls := calls[id := calls[id].(phase := Settled(o))];
    }

    /** Applies what `refreshAccessToken` does to storage. */
    method ApplyEffect(e: StoreEffect)
      requires Valid()
      modifies this
      ensures Valid()
      ensures storage == Effect(inBrowser, codec, old(storage), e)
      ensures isRefreshing == old(isRefreshing) && refreshQueue == old(refreshQueue) && calls == old(calls)
      ensures nextId == old(nextId) && leader == old(leader)
      ensures refreshesSent == old(refreshesSent) && refreshesDone == old(refreshesDone)
    {
      match e {
        case Keep =>
        case Clear => ClearTokens();
        case Store(a, t) => SetTokens(a, t);
      }
    }

    /** The token the running refresh produces, given the endpoint's behaviour. */
    function RefreshOf(net: RefreshNet): RefreshResult
      requires Valid() && isRefreshing
      reads this
    {
      RefreshAccessToken(calls[leader.value].phase.refreshTokens, net)
    }

    /**
     * The leader's `refreshAccessToken` completes. Its storage effect is applied and the flag
     * is cleared. With a truthy token every queued call and the leader retry with that same
     * token; otherwise the queue is emptied without releasing anyone, so the queued calls are
     * stranded (they never settle), and the leader fails with `Session expired`.
     */
    method CompleteRefresh(net: RefreshNet)
      requires Valid() && isRefreshing
      modifies this
      ensures Valid()
      ensures !isRefreshing && refreshQueue == [] && leader == None
      ensures refreshesDone == old(refreshesDone) + old(Outstanding(calls, leader))
      ensures refreshesSent == old(refreshesSent) && nextId == old(nextId)
      ensures storage == Effect(inBrowser, codec, old(storage), old(RefreshOf(net)).effect)
      ensures calls == AfterRefresh(old(calls), old(leader).value, old(refreshQueue), old(RefreshOf(net)).token)
    {
      var lead, queue := leader.value, refreshQueue;
      var r := RefreshOf(net);
      ghost var done := Outstanding(calls, leader);
      QueueShape(calls, lead, queue);
      var settled := SettleWaiters(calls, queue, lead, r.token);
      AfterRefreshCoordinated(calls, lead, queue, nextId, r.token);
      Install(Effect(inBrowser, codec, storage, r.effect), settled, done);
    }

    /** Clears the flag and the queue and installs the settled calls and the new storage. */
    method Install(stored: map<string, string>, settled: map<CallId, Call>, ghost done: nat)
      requires CallsWellFormed(settled, nextId) && Coordinated(settled, false, None, [])
      requires Outstanding(settled, None) == 0 && refreshesSent == refreshesDone + done
      modifies this
      ensures Valid()
      ensures storage == stored && calls == settled
      ensures !isRefreshing && refreshQueue == [] && leader == None
      ensures refreshesDone == old(refreshesDone) + done
      ensures refreshesSent == old(refreshesSent) && nextId == old(nextId)
    {
      storage, calls, isRefreshing, refreshQueue, leader := stored, settled, false, [], None;
      refreshesDone := refreshesDone + done;
    }

    /** The response to the retried fetch arrives and settles the call, whatever its status; a second 401 is an error. */
    method ReceiveRetryResponse(id: CallId, res: Response)
      requires Valid()
      requires id in calls && calls[id].phase.AwaitingRetry?
      modifies this
      ensures Valid()
      ensures calls == old(calls)[id := old(calls[id]).(phase := Settled(Settle(old(calls[id]).path, res)))]
      ensures res.status == 401 ==> !calls[id].phase.outcome.Resolved?
      ensures storage == old(storage) && isRefreshing == old(isRefreshing) && refreshQueue == old(refreshQueue)
      ensures refreshesSent == old(refreshesSent) && refreshesDone == old(refreshesDone)
    {
      SettleOutcome(calls[id].path, res);
      Finish(id, Settle(calls[id].path, res));
    }
  }
}
