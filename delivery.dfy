/**
  What the streamer watcher does once it has decided to act on a transition:
  where notifications go (`getChannelIds`), what they say (`notifyChannel`'s
  embed) and to which channels they are delivered, and how the live role is
  added or removed in each server (`updateLiveRole`).

  The Discord client is represented by values: the channels its cache holds,
  the guilds with their members' roles, and which API calls fail.
*/
module Delivery {
  import opened Wrappers
  import opened Dedup
  import opened Probes
  import Text

  /**
    The notification-target file. `canais` and `canalIds` are `None` when the
    property is not an array; an empty `canalId` stands for a falsy one.
  */
  datatype NotificacaoDoc = NotificacaoDoc(canais: Option<seq<string>>, canalIds: Option<seq<string>>, canalId: string)

  /**
    `getChannelIds`: the `canais` array if there is one, else the `canalIds`
    array, else the single `canalId`, else nothing; a missing file gives nothing.
  */
  function ChannelIds(file: Option<NotificacaoDoc>): seq<string> {
    match file
    case None => []
    case Some(doc) =>
      if doc.canais.Some? then doc.canais.value
      else if doc.canalIds.Some? then doc.canalIds.value
      else if doc.canalId != "" then [doc.canalId]
      else []
  }

  /** The current format, holding a list of channels. */
  function CurrentFormat(ids: seq<string>): NotificacaoDoc {
    NotificacaoDoc(Some(ids), None, "")
  }

  /**
    The three formats agree: each older format names the same channels as the
    current format holding its list, and a `canais` array, even an empty one,
    hides whatever older fields sit beside it.
  */
  lemma ChannelIdsFormats(ids: seq<string>, id: string, other: NotificacaoDoc)
    requires id != ""
    ensures ChannelIds(Some(NotificacaoDoc(None, Some(ids), ""))) == ChannelIds(Some(CurrentFormat(ids)))
    ensures ChannelIds(Some(NotificacaoDoc(None, None, id))) == ChannelIds(Some(CurrentFormat([id])))
    ensures ChannelIds(Some(other.(canais := Some(ids)))) == ids
    ensures ChannelIds(Some(other.(canais := None, canalIds := Some(ids)))) == ids
  {
  }

  /** Rewriting any file in the current format keeps the channels it names. */
  lemma ChannelIdsNormalise(file: Option<NotificacaoDoc>)
    ensures ChannelIds(Some(CurrentFormat(ChannelIds(file)))) == ChannelIds(file)
  {
  }

  /** The embed of a live notification. */
  datatype Embed = Embed(title: string, url: string, image: string, author: string, authorIcon: string, color: int)

  /** One message: text, embed and the link button. */
  datatype Notice = Notice(content: string, embed: Embed, buttonLabel: string, buttonUrl: string)

  const TwitchIcon := "https://static.twitchcdn.net/assets/favicon-32-e29e246c157142c94346.png"
  const KickIcon := "https://kick.com/favicon.ico"
  const TwitchPurple := 0x6441a5
  const KickGreen := 0x53fc18

  /** The channel page linked from the notification. */
  function StreamUrl(s: Streamer): string {
    if s.kind == "twitch" then "https://twitch.tv/" + s.name else "https://kick.com/" + s.name
  }

  const Width := "{width}"
  const Height := "{height}"

  /** Twitch's thumbnail template with the first `{width}` and the first `{height}` filled in. */
  function TwitchThumbnail(template: string): string {
    Text.ReplaceFirst(Text.ReplaceFirst(template, Width, "640"), Height, "360")
  }

  lemma WidthFilled(prefix: string, suffix: string)
    requires '{' !in prefix
    ensures Text.ReplaceFirst(prefix + Width + "x" + Height + suffix, Width, "640") == (prefix + "640x") + Height + suffix
  {
    var rest := "x" + Height + suffix;
    assert prefix + Width + "x" + Height + suffix == prefix + Width + rest;
    Text.ReplaceFirstAfter(prefix, Width, rest, "640", '{');
    assert prefix + "640" + rest == (prefix + "640x") + Height + suffix;
  }

  /** A template whose only braces are its size placeholders becomes a 640 by 360 image. */
  lemma TwitchThumbnailSize(prefix: string, suffix: string)
    requires '{' !in prefix
    ensures TwitchThumbnail(prefix + Width + "x" + Height + suffix) == prefix + "640x360" + suffix
  {
    WidthFilled(prefix, suffix);
    var front := prefix + "640x";
    assert '{' !in front by {
      assert front == prefix + ['6', '4', '0', 'x'];
    }
    Text.ReplaceFirstAfter(front, Height, suffix, "360", '{');
    assert front + "360" + suffix == prefix + "640x360" + suffix;
  }

  /** The notification `notifyChannel` sends for a streamer that went live. */
  function BuildNotice(s: Streamer, data: LiveData): Notice {
    var url := StreamUrl(s);
    var embed :=
      match data
      case TwitchLive(st) =>
        Embed(st.title, url, TwitchThumbnail(st.thumbnailUrl), s.name + " - Twitch", TwitchIcon, TwitchPurple)
      case KickLive(ls) =>
        Embed(if ls.sessionTitle != "" then ls.sessionTitle else "Live na Kick", url,
              if ls.thumbnailUrl != "" then ls.thumbnailUrl else KickIcon,
              s.name + " - Kick", KickIcon, KickGreen);
    Notice("O " + s.name + " est\U{E1} ao vivo! @everyone", embed, "Acessar", url)
  }

  /** A message delivered to one channel. */
  datatype Dispatch = Dispatch(channelId: string, notice: Notice)

  /** The channel ids in `ids`, in order, that the client's cache knows and that accept the message. */
  function Reachable(ids: seq<string>, known: set<string>, failing: set<string>): (r: seq<string>)
    ensures |r| <= |ids|
  {
    if ids == [] then []
    else
      (if ids[0] in known && ids[0] !in failing then [ids[0]] else [])
        + Reachable(ids[1..], known, failing)
  }

  /** The deliveries of one notice to each of `ids`, in order. */
  function Sends(ids: seq<string>, notice: Notice): (sent: seq<Dispatch>)
    ensures |sent| == |ids|
  {
    if ids == [] then [] else [Dispatch(ids[0], notice)] + Sends(ids[1..], notice)
  }

  lemma ReachableFrom(ids: seq<string>, i: nat, known: set<string>, failing: set<string>)
    requires i < |ids|
    ensures Reachable(ids[i..], known, failing)
      == (if ids[i] in known && ids[i] !in failing then [ids[i]] else []) + Reachable(ids[i + 1..], known, failing)
  {
    assert ids[i..][1..] == ids[i + 1..];
  }

  /**
    `notifyChannel`: sends the notice to every configured channel the client
    knows; a channel that is not cached is skipped and a send that fails is
    caught, and neither stops the loop.
  */
  method NotifyChannel(s: Streamer, data: LiveData, file: Option<NotificacaoDoc>,
                       known: set<string>, failing: set<string>)
    returns (sent: seq<Dispatch>)
    ensures sent == Sends(Reachable(ChannelIds(file), known, failing), BuildNotice(s, data))
  {
    var ids := ChannelIds(file);
    sent := [];
    if |ids| == 0 {
      return;
    }
    var notice := BuildNotice(s, data);
    var i := 0;
    while i < |ids|
      invariant 0 <= i <= |ids|
      invariant sent + Sends(Reachable(ids[i..], known, failing), notice) == Sends(Reachable(ids, known, failing), notice)
    {
      var id := ids[i];
      ReachableFrom(ids, i, known, failing);
      if id in known && id !in failing {
        var later := Reachable(ids[i + 1..], known, failing);
        assert ([id] + later)[1..] == later;
        assert Sends([id] + later, notice) == [Dispatch(id, notice)] + Sends(later, notice);
        assert (sent + [Dispatch(id, notice)]) + Sends(later, notice) == sent + ([Dispatch(id, notice)] + Sends(later, notice));
        sent := sent + [Dispatch(id, notice)];
      } else {
        assert Reachable(ids[i..], known, failing) == Reachable(ids[i + 1..], known, failing);
      }
      i := i + 1;
    }
  }

  /**
    A channel receives the notice exactly when it is configured, cached and
    accepts the message: a delivery failure to some targets does not keep the
    notice from any other.
  */
  lemma {:induction false} ReachableMembers(ids: seq<string>, known: set<string>, failing: set<string>, c: string)
    ensures c in Reachable(ids, known, failing) <==> c in ids && c in known && c !in failing
  {
    if ids != [] {
      ReachableMembers(ids[1..], known, failing, c);
      assert c in ids <==> c == ids[0] || c in ids[1..];
    }
  }

  /** A streamer-to-role binding in a server's configuration. */
  datatype RoleBinding = RoleBinding(userId: string, roleId: string)

  /** One server's entry in `server_config.json`; `None` when it has no `streamerRoles`. */
  datatype ServerConfig = ServerConfig(streamerRoles: Option<map<string, RoleBinding>>)

  /** A guild as the client sees it: the role ids of each member that can be fetched, and the roles it has. */
  datatype Guild = Guild(id: string, memberRoles: map<string, set<string>>, roles: set<string>)

  /** Why `updateLiveRole` leaves a guild alone, or which call it makes. */
  datatype RoleAction =
    | NoServerConfig
    | NoBinding
    | MemberNotFound
    | RoleNotFound
    | AddRole(userId: string, roleId: string)
    | RemoveRole(userId: string, roleId: string)
    | AlreadySet

  /** The decision `updateLiveRole` takes for one guild. */
  function RoleActionFor(g: Guild, config: map<string, ServerConfig>, streamerName: string, isLive: bool): RoleAction {
    if g.id !in config || config[g.id].streamerRoles.None? then NoServerConfig
    else if streamerName !in config[g.id].streamerRoles.value then NoBinding
    else
      var b := config[g.id].streamerRoles.value[streamerName];
      if b.userId !in g.memberRoles then MemberNotFound
      else if b.roleId !in g.roles then RoleNotFound
      else
        var has := b.roleId in g.memberRoles[b.userId];
        if isLive && !has then AddRole(b.userId, b.roleId)
        else if !isLive && has then RemoveRole(b.userId, b.roleId)
        else AlreadySet
  }

  /** The guild after `updateLiveRole`; a call that fails (the guild is in `failing`) is caught and changes nothing. */
  function GuildAfter(g: Guild, config: map<string, ServerConfig>, streamerName: string, isLive: bool,
                      failing: set<string>): Guild {
    if g.id in failing then g
    else
      match RoleActionFor(g, config, streamerName, isLive)
      case AddRole(u, r) => g.(memberRoles := g.memberRoles[u := g.memberRoles[u] + {r}])
      case RemoveRole(u, r) => g.(memberRoles := g.memberRoles[u := g.memberRoles[u] - {r}])
      case _ => g
  }

  /**
    One guild: the role is added only to a member lacking it and removed only
    from a member holding it; when the guild is configured, the member and the
    role exist and the call succeeds, the member afterwards holds the role
    exactly when the streamer is live; nothing else in the guild changes.
  */
  lemma GuildAfterSpec(g: Guild, config: map<string, ServerConfig>, name: string, isLive: bool, failing: set<string>)
    ensures var a := RoleActionFor(g, config, name, isLive);
      && (a.AddRole? ==> a.userId in g.memberRoles && a.roleId !in g.memberRoles[a.userId] && isLive)
      && (a.RemoveRole? ==> a.userId in g.memberRoles && a.roleId in g.memberRoles[a.userId] && !isLive)
    ensures var a := RoleActionFor(g, config, name, isLive);
      var g' := GuildAfter(g, config, name, isLive, failing);
      && g'.id == g.id && g'.roles == g.roles && g'.memberRoles.Keys == g.memberRoles.Keys
      && (a.AddRole? || a.RemoveRole? || a.AlreadySet?) && g.id !in failing ==>
           (var b := config[g.id].streamerRoles.value[name];
            (b.roleId in g'.memberRoles[b.userId] <==> isLive)
            && g'.memberRoles[b.userId] - {b.roleId} == g.memberRoles[b.userId] - {b.roleId}
            && forall u :: u in g.memberRoles && u != b.userId ==> g'.memberRoles[u] == g.memberRoles[u])
  {
  }

  /** `updateLiveRole` is idempotent: a second run with the same flag makes no call and changes nothing. */
  lemma GuildAfterIdempotent(g: Guild, config: map<string, ServerConfig>, name: string, isLive: bool)
    ensures var g' := GuildAfter(g, config, name, isLive, {});
      !RoleActionFor(g', config, name, isLive).AddRole? && !RoleActionFor(g', config, name, isLive).RemoveRole?
      && GuildAfter(g', config, name, isLive, {}) == g'
  {
  }

  /** Going live then offline adds the role and then removes it, leaving the member as before. */
  lemma LiveThenOffline(g: Guild, config: map<string, ServerConfig>, name: string)
    requires RoleActionFor(g, config, name, true).AddRole?
    ensures GuildAfter(GuildAfter(g, config, name, true, {}), config, name, false, {}) == g
  {
    var a := RoleActionFor(g, config, name, true);
    var g1 := GuildAfter(g, config, name, true, {});
    assert g1.memberRoles[a.userId] - {a.roleId} == g.memberRoles[a.userId];
    assert g1.memberRoles[a.userId := g.memberRoles[a.userId]] == g.memberRoles;
  }

  /** Every guild after `updateLiveRole`. */
  function RolesAfter(guilds: seq<Guild>, config: map<string, ServerConfig>, streamerName: string,
                      isLive: bool, failing: set<string>): seq<Guild> {
    seq(|guilds|, i requires 0 <= i < |guilds| => GuildAfter(guilds[i], config, streamerName, isLive, failing))
  }

  /**
    `updateLiveRole`: every guild of the client in turn, each skipped or
    updated on its own, a failure in one never affecting the others.
  */
  method UpdateLiveRole(guilds: seq<Guild>, config: map<string, ServerConfig>, streamerName: string,
                        isLive: bool, failing: set<string>)
    returns (after: seq<Guild>)
    ensures after == RolesAfter(guilds, config, streamerName, isLive, failing)
  {
    after := [];
    for i := 0 to |guilds|
      invariant |after| == i
      invariant forall j :: 0 <= j < i ==> after[j] == GuildAfter(guilds[j], config, streamerName, isLive, failing)
    {
      after := after + [GuildAfter(guilds[i], config, streamerName, isLive, failing)];
    }
    assert after == RolesAfter(guilds, config, streamerName, isLive, failing);
  }
}
