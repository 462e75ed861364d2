/**
  The status sources of the streamer watcher: `checkIfLive`, `checkKickLive`
  and `checkTwitchLive` with its cached application token.

  The HTTP calls themselves are not modelled: what each endpoint answered is an
  input. A reply is either a transport failure (the request rejects, or the body
  is not JSON, so `res.json()` rejects) or the parts of the parsed body the code
  reads. A `Probe` is what `checkIfLive` settles to: live data, a falsy value
  (offline), or an exception that escapes it.
*/
module Probes {
  import opened Wrappers
  import opened Dedup

  /** A property of a parsed JSON object: missing (`undefined`), `null`, or present. */
  datatype Slot<T> = Undefined | Null | Present(value: T)

  /** The fields of Kick's `livestream` object the bot reads; an empty string stands for a missing or empty field. */
  datatype KickLivestream = KickLivestream(sessionTitle: string, thumbnailUrl: string)

  /** The fields of Kick's channel object the bot reads; `isBanned` is the truthiness of `is_banned`. */
  datatype KickChannel = KickChannel(livestream: Slot<KickLivestream>, isBanned: bool)

  /** What `GET /api/v2/channels/<name>` gave back. */
  datatype KickReply =
    | KickUnreachable
      // the request rejected
    | KickHttp(status: int, body: Option<KickChannel>)
      // a response; `None` when its body is not a JSON object, so reading it throws

  /** `res.ok`: a status in the range 200-299. */
  predicate HttpOk(status: int) {
    200 <= status <= 299
  }

  /** `data.livestream !== null && !data.is_banned`. */
  predicate KickIsLive(ch: KickChannel) {
    ch.livestream != Null && !ch.isBanned
  }

  /**
    `checkKickLive`: the livestream object when the channel is live, otherwise a
    falsy value. Every failure is caught and becomes `null`, so a failed probe
    cannot be told apart from an offline channel.
  */
  function CheckKickLive(reply: KickReply): (r: Option<KickLivestream>)
    ensures r.Some? <==>
      reply.KickHttp? && HttpOk(reply.status) && reply.body.Some?
      && reply.body.value.livestream.Present? && !reply.body.value.isBanned
    ensures r.Some? ==> r.value == reply.body.value.livestream.value
    ensures reply.KickUnreachable? || (reply.KickHttp? && !HttpOk(reply.status)) ==> r.None?
  {
    match reply
    case KickUnreachable => None
    case KickHttp(status, body) =>
      if !HttpOk(status) then None
      else
        match body
        case None => None
        case Some(ch) =>
          if KickIsLive(ch) then
            // an `undefined` livestream passes the `!== null` test and is returned, but is falsy
            match ch.livestream
            case Present(ls) => Some(ls)
            case _ => None
          else None
  }

  /** The fields of one entry of Twitch's `data` array the bot reads. */
  datatype TwitchStream = TwitchStream(kind: string, title: string, thumbnailUrl: string)

  /** What the token endpoint gave back; an empty `accessToken` stands for a missing one, `None` for a missing `expires_in`. */
  datatype TokenReply =
    | TokenUnreachable
    | TokenBody(accessToken: string, expiresIn: Option<int>)

  /** What `GET /helix/streams?user_login=<name>` gave back; `None` when `data` is missing or not an array. */
  datatype StreamsReply =
    | StreamsUnreachable
    | StreamsBody(data: Option<seq<TwitchStream>>)

  /**
    The watcher's `twitchToken` and `twitchTokenExpires` fields. An empty token
    stands for a falsy one; `None` for an expiry that is `undefined` or `NaN`,
    which compares false with every clock reading.
  */
  datatype TokenCache = TokenCache(token: string, expires: Option<int>)

  /** A fresh watcher has no token and no expiry. */
  const NoToken := TokenCache("", None)

  /** `!this.twitchToken || this.twitchTokenExpires < Date.now()`. */
  predicate TokenStale(c: TokenCache, now: int) {
    c.token == "" || (c.expires.Some? && c.expires.value < now)
  }

  /** The cache after a token reply read at clock `later`: expiry `later + expires_in * 1000`. */
  function Refreshed(access: string, expiresIn: Option<int>, later: int): TokenCache
  {
    TokenCache(access, if expiresIn.Some? then Some(later + expiresIn.value * 1000) else None)
  }

  /** The platform data a live probe returns. */
  datatype LiveData =
    | TwitchLive(stream: TwitchStream)
    | KickLive(livestream: KickLivestream)

  /** What `checkIfLive` settles to. */
  datatype Probe =
    | Live(data: LiveData)
    | Offline   // a falsy value
    | Threw     // an exception escapes

  /** What the network answers while one streamer is checked, and the clock before and after the token request. */
  datatype Network = Network(
    now: int, later: int,
    token: TokenReply, streams: StreamsReply, kick: KickReply)

  /** `checkTwitchLive`: the probe result and the token cache afterwards. */
  function CheckTwitchLive(cache: TokenCache, net: Network): (Probe, TokenCache)
  {
    var stale := TokenStale(cache, net.now);
    if stale && net.token.TokenUnreachable? then (Threw, cache)
    else
      var c := if stale then Refreshed(net.token.accessToken, net.token.expiresIn, net.later) else cache;
      match net.streams
      case StreamsUnreachable => (Threw, c)
      case StreamsBody(data) =>
        if data.Some? && |data.value| > 0 && data.value[0].kind == "live"
        then (Live(TwitchLive(data.value[0])), c)
        else (Offline, c)
  }

  /** `checkIfLive`: dispatch on the platform `type`; any other platform gives `null`. */
  function CheckIfLive(s: Streamer, cache: TokenCache, net: Network): (Probe, TokenCache)
  {
    if s.kind == "twitch" then CheckTwitchLive(cache, net)
    else if s.kind == "kick" then
      match CheckKickLive(net.kick)
      case Some(ls) => (Live(KickLive(ls)), cache)
      case None => (Offline, cache)
    else (Offline, cache)
  }

  /**
    The token is requested again only when it is missing or its expiry has
    passed; otherwise the cache is kept as it is, whatever else happens.
  */
  lemma TokenRefreshRule(cache: TokenCache, net: Network)
    ensures !TokenStale(cache, net.now) ==> CheckTwitchLive(cache, net).1 == cache
    ensures TokenStale(cache, net.now) && net.token.TokenBody? ==>
      CheckTwitchLive(cache, net).1 == Refreshed(net.token.accessToken, net.token.expiresIn, net.later)
    ensures TokenStale(cache, net.now) && net.token.TokenUnreachable? ==>
      CheckTwitchLive(cache, net) == (Threw, cache)
  {
  }

  /** A granted token with a non-negative lifetime is not stale until its expiry passes. */
  lemma RefreshedTokenFresh(access: string, expiresIn: int, later: int, t: int)
    requires access != "" && expiresIn >= 0
    requires t <= later + expiresIn * 1000
    ensures !TokenStale(Refreshed(access, Some(expiresIn), later), t)
  {
  }

  /** Without an `expires_in`, a granted token is never requested again: its expiry is `NaN`. */
  lemma TokenWithoutExpiryKept(access: string, later: int, t: int)
    requires access != ""
    ensures !TokenStale(Refreshed(access, None, later), t)
  {
  }

  /**
    The probe's outcome per platform: Twitch is live exactly when the first
    entry of `data` exists and has type `live`, and throws exactly on a
    transport failure of a request it makes; Kick never throws; any other
    platform is offline and touches nothing.
  */
  lemma ProbeOutcomes(s: Streamer, cache: TokenCache, net: Network)
    ensures var (p, c) := CheckIfLive(s, cache, net);
      && (s.kind == "twitch" ==>
            (p.Live? <==> net.streams.StreamsBody? && net.streams.data.Some? && |net.streams.data.value| > 0
                          && net.streams.data.value[0].kind == "live"
                          && !(TokenStale(cache, net.now) && net.token.TokenUnreachable?))
            && (p == Threw <==> (TokenStale(cache, net.now) && net.token.TokenUnreachable?) || net.streams.StreamsUnreachable?))
      && (s.kind == "kick" ==> p != Threw && c == cache && (p.Live? <==> CheckKickLive(net.kick).Some?))
      && (s.kind != "twitch" && s.kind != "kick" ==> p == Offline && c == cache)
      && (p.Live? ==> (p.data.TwitchLive? <==> s.kind == "twitch"))
  {
  }

  /**
    An HTTP error from the streams endpoint whose body is JSON without a `data`
    array (a 401 or a 429, say) does not throw: it reads as offline, just as a
    failed Kick probe does.
  */
  lemma TwitchErrorBodyLooksOffline(s: Streamer, cache: TokenCache, net: Network)
    requires s.kind == "twitch"
    requires !(TokenStale(cache, net.now) && net.token.TokenUnreachable?)
    requires net.streams == StreamsBody(None)
    ensures CheckIfLive(s, cache, net).0 == Offline
  {
  }

  /** An HTTP error from Kick reads as "offline", like a channel that is not live. */
  lemma KickFailureLooksOffline(s: Streamer, cache: TokenCache, net: Network)
    requires s.kind == "kick"
    requires net.kick.KickUnreachable? || (net.kick.KickHttp? && !HttpOk(net.kick.status))
    ensures CheckIfLive(s, cache, net) == (Offline, cache)
  {
  }
}
