/** The qq adapter's `Bot` (`nonebot/adapters/qq/bot.py`): the gateway
    session it holds (own user, session id, last sequence number), the
    access token it caches for group bots, the authorization headers, and
    a REST request with its one retry after a 401. Time is a parameter in
    whole seconds; the network replies are parameters too. */
module QQBot {
  import opened Wrappers
  import opened PyStr
  import opened Json
  import opened QQConfig
  import opened ApiResponse

  /** The bot's own user, as far as the adapter reads it. */
  datatype User = User(id: string, username: Option<string>)

  datatype BotError =
    | NotConnected            // RuntimeError from an unset session property
    | Network                 // NetworkError
    | Api(e: ApiError)

  /** The cached access token and the instant it expires. */
  datatype TokenCache = TokenCache(token: Option<string>, expiresAt: Option<int>)

  /** The reply of the token endpoint: its status and, for a non-empty body,
      the `access_token` and `expires_in` it holds. */
  datatype TokenReply = TokenReply(status: int, body: Option<(string, int)>)

  /** A token is fetched when none is cached or when the cached one expires
      within 30 seconds. */
  predicate NeedsRefresh(c: TokenCache, now: int) {
    c.token.None? || (c.expiresAt.Some? && now > c.expiresAt.value - 30)
  }

  /** `get_access_token`: the token to use and the new cache. */
  function Refresh(c: TokenCache, now: int, reply: TokenReply): (r: (Result<string, BotError>, TokenCache))
    ensures !NeedsRefresh(c, now) ==> r == (Ok(c.token.value), c)
    ensures r.0.Err? <==> NeedsRefresh(c, now) && (reply.status != 200 || reply.body.None?)
    ensures r.0.Err? ==> r.0.error == Network && r.1 == c
    ensures r.0.Ok? ==> r.1.token == Some(r.0.value)
    ensures r.1 != c ==> NeedsRefresh(c, now) && reply.status == 200 && reply.body.Some?
                         && r.1.expiresAt == Some(now + reply.body.value.1)
  {
    if !NeedsRefresh(c, now) then (Ok(c.token.value), c)
    else if reply.status != 200 || reply.body.None? then (Err(Network), c)
    else
      var (token, expiresIn) := reply.body.value;
      (Ok(token), TokenCache(Some(token), Some(now + expiresIn)))
  }

  /** A freshly fetched token is reused until 30 seconds before it expires,
      and fetched again after that. */
  lemma TokenReuseWindow(c: TokenCache, now: int, reply: TokenReply, later: int)
    requires NeedsRefresh(c, now) && reply.status == 200 && reply.body.Some?
    ensures Refresh(c, now, reply).0 == Ok(reply.body.value.0)
    ensures !NeedsRefresh(Refresh(c, now, reply).1, later) <==> later <= now + reply.body.value.1 - 30
    ensures !NeedsRefresh(Refresh(c, now, reply).1, later) ==>
      Refresh(Refresh(c, now, reply).1, later, reply) == (Ok(reply.body.value.0), Refresh(c, now, reply).1)
  {
  }

  /** The headers of an API request: group bots use the access token and
      add their app id, other bots use their static token. */
  function Headers(info: BotInfo, accessToken: string): (h: seq<(string, string)>)
    ensures |h| >= 1 && h[0].0 == "Authorization"
    ensures |h| == 2 <==> IsGroupBot(info)
    ensures IsGroupBot(info) ==> h[0].1 == "QQBot " + accessToken && h[1] == ("X-Union-Appid", info.id)
    ensures !IsGroupBot(info) ==> h[0].1 == "Bot " + info.id + "." + info.token
  {
    if IsGroupBot(info) then [("Authorization", "QQBot " + accessToken), ("X-Union-Appid", info.id)]
    else [("Authorization", "Bot " + info.id + "." + info.token)]
  }

  /** The two schemes cannot be mistaken for each other: the authorization
      value starts with `QQBot ` exactly for group bots. */
  lemma {:induction false} HeaderScheme(info: BotInfo, accessToken: string)
    ensures StartsWith(Headers(info, accessToken)[0].1, "QQBot ") <==> IsGroupBot(info)
  {
    var v := Headers(info, accessToken)[0].1;
    if !IsGroupBot(info) {
      assert v[0] == 'B';
    }
  }

  /** Raising a `_handle_response` error as a bot error. */
  function Lift(c: Result<Option<Json>, ApiError>): (r: Result<Option<Json>, BotError>)
    ensures c.Ok? <==> r.Ok?
    ensures c.Ok? ==> r.value == c.value
    ensures c.Err? ==> r.error == Api(c.error)
  {
    match c
    case Ok(v) => Ok(v)
    case Err(e) => Err(Api(e))
  }

  /** The outcome of `_request` and how many requests it sent, given whether
      each authorization header could be built and what each request got
      back (`None`: the request raised). */
  function RequestOutcome(group: bool, auth1: bool, first: Option<Response>, auth2: bool, second: Option<Response>)
    : (r: (Result<Option<Json>, BotError>, nat))
    ensures r.1 <= 2
    ensures r.1 == 2 <==> group && auth1 && first.Some? && Classify(first.value) == Err(Unauthorized) && auth2
    ensures !auth1 ==> r == (Err(Network), 0)
    ensures auth1 && first.None? ==> r == (Err(Network), 1)
    ensures auth1 && first.Some? && Classify(first.value) != Err(Unauthorized) ==> r == (Lift(Classify(first.value)), 1)
    ensures auth1 && first.Some? && Classify(first.value) == Err(Unauthorized) && !(group && auth2) ==>
      r == (Err(Api(Unauthorized)), 1)
    ensures r.1 == 2 ==> r.0 == (if second.None? then Err(Network) else Lift(Classify(second.value)))
  {
    if !auth1 then (Err(Network), 0)
    else if first.None? then (Err(Network), 1)
    else
      var c := Classify(first.value);
      if c != Err(Unauthorized) then (Lift(c), 1)
      else if !group || !auth2 then (Err(Api(Unauthorized)), 1)
      else if second.None? then (Err(Network), 2)
      else (Lift(Classify(second.value)), 2)
  }

  /** A bot other than a group bot never retries: it sends at most one
      request, and a 401 surfaces as `Unauthorized`. */
  lemma NoRetryWithoutGroup(auth1: bool, first: Option<Response>, auth2: bool, second: Option<Response>)
    ensures RequestOutcome(false, auth1, first, auth2, second).1 <= 1
    ensures auth1 && first.Some? && first.value.status == 401 ==>
      RequestOutcome(false, auth1, first, auth2, second).0 == Err(Api(Unauthorized))
  {
  }

  /** A connection to the gateway and the REST API for one configured bot. */
  class Bot {
    const info: BotInfo
    var selfInfo: Option<User>
    var sessionId: Option<string>
    var sequence: Option<int>
    var cache: TokenCache

    constructor(info: BotInfo)
      ensures this.info == info
      ensures selfInfo.None? && sessionId.None? && sequence.None? && cache == TokenCache(None, None)
    {
      this.info := info;
      selfInfo := None;
      sessionId := None;
      sequence := None;
      cache := TokenCache(None, None);
    }

    /** `ready`: a session id is held. */
    predicate Ready()
      reads this
    {
      sessionId.Some?
    }

    /** The `session_id` property: fails exactly while not ready. */
    function SessionId(): (r: Result<string, BotError>)
      reads this
      ensures r.Ok? <==> Ready()
      ensures r.Ok? ==> sessionId == Some(r.value)
      ensures r.Err? ==> r.error == NotConnected
    {
      if sessionId.Some? then Ok(sessionId.value) else Err(NotConnected)
    }

    /** The `sequence` property. */
    function Sequence(): (r: Result<int, BotError>)
      reads this
      ensures r.Ok? <==> sequence.Some?
      ensures r.Ok? ==> sequence == Some(r.value)
      ensures r.Err? ==> r.error == NotConnected
    {
      if sequence.Some? then Ok(sequence.value) else Err(NotConnected)
    }

    /** The `self_info` property. */
    function SelfInfo(): (r: Result<User, BotError>)
      reads this
      ensures r.Ok? <==> selfInfo.Some?
      ensures r.Ok? ==> selfInfo == Some(r.value)
      ensures r.Err? ==> r.error == NotConnected
    {
      if selfInfo.Some? then Ok(selfInfo.value) else Err(NotConnected)
    }

    /** `on_ready`: the READY event's user and session id. */
    method OnReady(user: User, session: string)
      modifies this
      ensures selfInfo == Some(user) && sessionId == Some(session)
      ensures sequence == old(sequence) && cache == old(cache)
      ensures Ready() && SessionId() == Ok(session)
    {
      selfInfo := Some(user);
      sessionId := Some(session);
    }

    /** `on_dispatch`: the frame's sequence number, `None` included. */
    method OnDispatch(s: Option<int>)
      modifies this
      ensures sequence == s
      ensures selfInfo == old(selfInfo) && sessionId == old(sessionId) && cache == old(cache)
    {
      sequence := s;
    }

    /** `reset`: forget the session, keep the user and the token. */
    method Reset()
      modifies this
      ensures sessionId.None? && sequence.None?
      ensures selfInfo == old(selfInfo) && cache == old(cache)
      ensures !Ready() && SessionId() == Err(NotConnected)
    {
      sessionId := None;
      sequence := None;
    }

    /** `get_access_token` at time `now`; `reply` is what the token
        endpoint would answer if asked. */
    method GetAccessToken(now: int, reply: TokenReply) returns (r: Result<string, BotError>)
      modifies this
      ensures (r, cache) == Refresh(old(cache), now, reply)
      ensures selfInfo == old(selfInfo) && sessionId == old(sessionId) && sequence == old(sequence)
    {
      if cache.token.None? || (cache.expiresAt.Some? && now > cache.expiresAt.value - 30) {
        if reply.status != 200 || reply.body.None? {
          return Err(Network);
        }
        var (token, expiresIn) := reply.body.value;
        cache := TokenCache(Some(token), Some(now + expiresIn));
      }
      r := Ok(cache.token.value);
    }

    /** `get_authorization_header`. */
    method AuthorizationHeaders(now: int, reply: TokenReply) returns (r: Result<seq<(string, string)>, BotError>)
      modifies this
      ensures IsGroupBot(info) ==> cache == Refresh(old(cache), now, reply).1
      ensures IsGroupBot(info) ==> match Refresh(old(cache), now, reply).0
                                   case Ok(t) => r == Ok(Headers(info, t))
                                   case Err(e) => r == Err(e)
      ensures !IsGroupBot(info) ==> r == Ok(Headers(info, "")) && cache == old(cache)
      ensures selfInfo == old(selfInfo) && sessionId == old(sessionId) && sequence == old(sequence)
    {
      if IsGroupBot(info) {
        var t := GetAccessToken(now, reply);
        if t.Err? {
          return Err(t.error);
        }
        r := Ok(Headers(info, t.value));
      } else {
        r := Ok(Headers(info, ""));
      }
    }

    /** `_request`: build the headers, send, classify; a group bot that
        gets a 401 drops its token, fetches a new one and sends once more.
        `auth1`/`auth2` are the token endpoint's replies, `first`/`second`
        the API's. */
    method Request(now: int, auth1: TokenReply, first: Option<Response>, auth2: TokenReply, second: Option<Response>)
      returns (r: Result<Option<Json>, BotError>, sent: nat)
      modifies this
      ensures (r, sent) == RequestOutcome(IsGroupBot(info),
                                          !IsGroupBot(info) || Refresh(old(cache), now, auth1).0.Ok?,
                                          first,
                                          auth2.status == 200 && auth2.body.Some?,
                                          second)
      ensures sent == 2 ==> cache.token == Some(auth2.body.value.0)
      ensures var c1 := if IsGroupBot(info) then Refresh(old(cache), now, auth1).1 else old(cache);
              cache == (if IsGroupBot(info) && Refresh(old(cache), now, auth1).0.Ok? && first.Some?
                           && Classify(first.value) == Err(Unauthorized)
                        then Refresh(c1.(token := None), now, auth2).1
                        else c1)
      ensures selfInfo == old(selfInfo) && sessionId == old(sessionId) && sequence == old(sequence)
    {
      sent := 0;
      var h := AuthorizationHeaders(now, auth1);
      if h.Err? {
        return Err(Network), 0;
      }
      sent := 1;
      if first.None? {
        return Err(Network), 1;
      }
      var c := Classify(first.value);
      if c != Err(Unauthorized) {
        return Lift(c), 1;
      }
      if !IsGroupBot(info) {
        return Err(Api(Unauthorized)), 1;
      }
      cache := cache.(token := None);
      var h2 := AuthorizationHeaders(now, auth2);
      if h2.Err? {
        return Err(Api(Unauthorized)), 1;
      }
      sent := 2;
      if second.None? {
        return Err(Network), 2;
      }
      r := Lift(Classify(second.value));
    }
  }
}
