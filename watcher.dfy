/**
  The `StreamerWatcher` object: its fields, the probes that update its token
  cache, and `checkStreamers`, the polling cycle that walks the tracked
  streamers and announces, or retracts, each live transition exactly once.

  The Discord client is a `Client` object whose guilds (members' roles) and
  sent messages the watcher changes. What the network answers while the
  `i`-th streamer of a cycle is checked is `net(i)`; the two JSON files read
  during a cycle are an `Environment`.
*/
module Watcher {
  import opened Wrappers
  import opened Dedup
  import opened Probes
  import opened Delivery

  /** The `streamers` property after `data.streamers || []`: a list, or a truthy value `for...of` cannot iterate. */
  datatype StreamerList = Entries(entries: seq<Streamer>) | NotIterable

  /**
    The files a cycle reads: `notificacao.json` and `server_config.json`
    (`servers` is `None` when the file exists but has no `servers` object), the
    channels in the client's cache, and the channels and guilds whose API calls fail.
  */
  datatype Environment = Environment(
    notificacao: Option<NotificacaoDoc>,
    servers: Option<map<string, ServerConfig>>,
    knownChannels: set<string>,
    failingChannels: set<string>,
    failingGuilds: set<string>)

  /** `updateLiveRole` rejects when `config.servers` is missing and there is a guild to look it up for. */
  predicate RolesThrow(env: Environment, guilds: seq<Guild>) {
    env.servers.None? && |guilds| > 0
  }

  /** Everything a cycle can change: the notified keys, the token cache, the guilds and the messages sent. */
  datatype World = World(notified: set<string>, cache: TokenCache, guilds: seq<Guild>, outbox: seq<Dispatch>)

  /** One iteration of the loop: the world after it, the observation it made, whether it called `notifyChannel`, and whether it threw. */
  datatype StepResult = StepResult(world: World, obs: Observation, sent: bool, threw: bool)

  /** The body of the `for...of` loop of `checkStreamers` for one streamer. */
  function StepWorld(w: World, s: Streamer, net: Network, env: Environment): StepResult {
    var (p, c) := CheckIfLive(s, w.cache, net);
    var key := StreamKey(s);
    var w1 := w.(cache := c);
    if p == Threw then StepResult(w1, Observation(key, false), false, true)
    else
      var d := Decide(w.notified, key, p.Live?);
      match d
      case Keep => StepResult(w1, Observation(key, p.Live?), false, false)
      case Announce =>
        var w2 := w1.(outbox := w.outbox + Sends(Reachable(ChannelIds(env.notificacao), env.knownChannels, env.failingChannels),
                                                  BuildNotice(s, p.data)));
        if RolesThrow(env, w.guilds) then StepResult(w2, Observation(key, true), true, true)
        else
          StepResult(w2.(guilds := RolesAfter(w.guilds, env.servers.GetOr(map[]), s.name, true, env.failingGuilds),
                         notified := Apply(w.notified, key, d)),
                     Observation(key, true), true, false)
      case Retract =>
        if RolesThrow(env, w.guilds) then StepResult(w1, Observation(key, false), false, true)
        else
          StepResult(w1.(guilds := RolesAfter(w.guilds, env.servers.GetOr(map[]), s.name, false, env.failingGuilds),
                         notified := Apply(w.notified, key, d)),
                     Observation(key, false), false, false)
  }

  /**
    The outcome of the loop from the `i`-th streamer on: the final world, the
    observations of the iterations that completed, the keys for which
    `notifyChannel` ran, and whether an iteration threw (which ends the cycle).
  */
  datatype CycleResult = CycleResult(world: World, obs: seq<Observation>, announced: seq<string>, aborted: bool)

  function Cycle(w: World, ss: seq<Streamer>, i: nat, net: nat -> Network, env: Environment): CycleResult
    decreases |ss| - i
  {
    if i >= |ss| then CycleResult(w, [], [], false)
    else
      var st := StepWorld(w, ss[i], net(i), env);
      var ann := if st.sent then [StreamKey(ss[i])] else [];
      if st.threw then CycleResult(st.world, [], ann, true)
      else
        var r := Cycle(st.world, ss, i + 1, net, env);
        CycleResult(r.world, [st.obs] + r.obs, ann + r.announced, r.aborted)
  }

  /**
    One iteration: the probe's token cache is kept even when it throws; a
    completed iteration moves the notified set exactly as the two-state machine
    does; an iteration that throws leaves the set as it was; `notifyChannel`
    runs exactly on an offline-to-live transition and sends the notice to every
    reachable channel; the guilds change only on a transition.
  */
  lemma StepWorldSpec(w: World, s: Streamer, net: Network, env: Environment)
    ensures var st := StepWorld(w, s, net, env);
      var p := CheckIfLive(s, w.cache, net).0;
      var d := Decide(w.notified, StreamKey(s), p.Live?);
      && st.world.cache == CheckIfLive(s, w.cache, net).1
      && (st.threw <==> p == Threw || (d != Keep && RolesThrow(env, w.guilds)))
      && (!st.threw ==> st.obs == Observation(StreamKey(s), p.Live?)
                        && st.world.notified == Step(w.notified, StreamKey(s), p.Live?))
      && (st.threw ==> st.world.notified == w.notified)
      && (st.sent <==> p.Live? && StreamKey(s) !in w.notified)
      && (st.sent ==> st.world.outbox == w.outbox + Sends(Reachable(ChannelIds(env.notificacao), env.knownChannels,
                                                                    env.failingChannels), BuildNotice(s, p.data)))
      && (!st.sent ==> st.world.outbox == w.outbox)
      && (d == Keep || st.threw ==> st.world.guilds == w.guilds)
      && (!st.threw && d != Keep ==>
            st.world.guilds == RolesAfter(w.guilds, env.servers.GetOr(map[]), s.name, d == Announce, env.failingGuilds))
  {
  }

  /**
    A cycle's notified set is the replay of its completed observations, and the
    keys it announced are the replay's announcements, followed, only when the
    cycle aborted, by at most one key whose notice went out before the role
    update threw. With a `servers` object in `server_config.json` the role
    update cannot throw, and the announcements are exactly the replay's even
    when a probe aborted the cycle.
  */
  lemma {:induction false} CycleTracksReplay(w: World, ss: seq<Streamer>, i: nat, net: nat -> Network, env: Environment)
    ensures var r := Cycle(w, ss, i, net, env);
      && r.world.notified == Replay(w.notified, r.obs)
      && |Announced(w.notified, r.obs)| <= |r.announced| <= |Announced(w.notified, r.obs)| + 1
      && r.announced[..|Announced(w.notified, r.obs)|] == Announced(w.notified, r.obs)
      && (!r.aborted ==> r.announced == Announced(w.notified, r.obs))
      && (env.servers.Some? ==> r.announced == Announced(w.notified, r.obs))
    decreases |ss| - i
  {
    if i < |ss| {
      var st := StepWorld(w, ss[i], net(i), env);
      StepWorldSpec(w, ss[i], net(i), env);
      if st.threw && env.servers.Some? {
        assert !st.sent;
      }
      var ann := if st.sent then [StreamKey(ss[i])] else [];
      if !st.threw {
        var r := Cycle(st.world, ss, i + 1, net, env);
        CycleTracksReplay(st.world, ss, i + 1, net, env);
        var obs := [st.obs] + r.obs;
        assert obs[0] == st.obs && obs[1..] == r.obs;
        var a := Announced(st.world.notified, r.obs);
        assert Announced(w.notified, obs) == ann + a;
        assert (ann + r.announced)[..|ann + a|] == ann + r.announced[..|a|];
      }
    }
  }

  /** A cycle that meets a streamer whose probe throws stops there: no later streamer is checked. */
  lemma {:induction false} CycleStopsAtThrow(w: World, ss: seq<Streamer>, i: nat, net: nat -> Network, env: Environment)
    requires i <= |ss|
    ensures var r := Cycle(w, ss, i, net, env);
      |r.obs| <= |ss| - i && (!r.aborted ==> |r.obs| == |ss| - i)
      && (forall k :: 0 <= k < |r.obs| ==> r.obs[k].key == StreamKey(ss[i + k]))
    decreases |ss| - i
  {
    if i < |ss| {
      var st := StepWorld(w, ss[i], net(i), env);
      if !st.threw {
        CycleStopsAtThrow(st.world, ss, i + 1, net, env);
        var r := Cycle(st.world, ss, i + 1, net, env);
        forall k | 0 <= k < 1 + |r.obs|
          ensures ([st.obs] + r.obs)[k].key == StreamKey(ss[i + k])
        {
          if k > 0 {
            assert ([st.obs] + r.obs)[k] == r.obs[k - 1];
          }
        }
      }
    }
  }

  /** What one poll gets to see: the network's answers and the files on disk. */
  datatype Tick = Tick(net: nat -> Network, env: Environment)

  /** The results of several cycles in a row over the same list of streamers. */
  datatype History = History(world: World, obs: seq<Observation>, announced: seq<string>, anyAborted: bool)

  /**
    Cycles one after the other. `loadStreamers` loads the list with `require`,
    which caches it, so every cycle walks the same list.
  */
  function Watch(w: World, ss: seq<Streamer>, ticks: seq<Tick>): History
    decreases |ticks|
  {
    if ticks == [] then History(w, [], [], false)
    else
      var h := Watch(w, ss, ticks[..|ticks| - 1]);
      var t := ticks[|ticks| - 1];
      var r := Cycle(h.world, ss, 0, t.net, t.env);
      History(r.world, h.obs + r.obs, h.announced + r.announced, h.anyAborted || r.aborted)
  }

  /** Every cycle reads a `server_config.json` that has a `servers` object. */
  predicate ServersPresent(ticks: seq<Tick>) {
    forall k :: 0 <= k < |ticks| ==> ticks[k].env.servers.Some?
  }

  /**
    Over any number of cycles, the notified set is the replay of every
    completed observation, and the announcements are exactly the replay's
    announcements when no cycle aborts or when every cycle reads a `servers`
    object, whatever probes throw: the dedup state survives from one cycle to
    the next.
  */
  lemma {:induction false} WatchTracksReplay(w: World, ss: seq<Streamer>, ticks: seq<Tick>)
    ensures var h := Watch(w, ss, ticks);
      h.world.notified == Replay(w.notified, h.obs)
      && (!h.anyAborted || ServersPresent(ticks) ==> h.announced == Announced(w.notified, h.obs))
    decreases |ticks|
  {
    if ticks != [] {
      var h := Watch(w, ss, ticks[..|ticks| - 1]);
      var t := ticks[|ticks| - 1];
      WatchTracksReplay(w, ss, ticks[..|ticks| - 1]);
      CycleTracksReplay(h.world, ss, 0, t.net, t.env);
      var r := Cycle(h.world, ss, 0, t.net, t.env);
      ReplayAppend(w.notified, h.obs, r.obs);
      if ServersPresent(ticks) {
        assert t.env.servers.Some?;
        assert ServersPresent(ticks[..|ticks| - 1]);
      }
    }
  }

  /**
    Exactly one notification per maximal run of live observations, across
    cycles: for a key not notified at the start, the number of times it is
    announced is the number of maximal runs of live observations of it,
    whenever every cycle reads a `servers` object (probes may throw and abort
    cycles) or no cycle aborts.
  */
  lemma OneNotificationPerLiveRun(w: World, ss: seq<Streamer>, ticks: seq<Tick>, key: string)
    requires key !in w.notified
    requires ServersPresent(ticks) || !Watch(w, ss, ticks).anyAborted
    ensures Occurrences(Watch(w, ss, ticks).announced, key) == LiveRuns(Project(Watch(w, ss, ticks).obs, key))
  {
    WatchTracksReplay(w, ss, ticks);
    OneAnnouncementPerLiveRun(w.notified, Watch(w, ss, ticks).obs, key);
  }

  /**
    A streamer listed twice (the add command does not deduplicate) and seen
    live both times is announced once, and its role is only added once.
  */
  lemma DuplicateEntryAnnouncedOnce(w: World, s: Streamer, net: nat -> Network, env: Environment)
    requires StreamKey(s) !in w.notified && !RolesThrow(env, w.guilds)
    requires CheckIfLive(s, w.cache, net(0)).0.Live?
    requires CheckIfLive(s, CheckIfLive(s, w.cache, net(0)).1, net(1)).0.Live?
    ensures Cycle(w, [s, s], 0, net, env).announced == [StreamKey(s)]
    ensures Cycle(w, [s, s], 0, net, env).world.notified == w.notified + {StreamKey(s)}
    ensures Cycle(w, [s, s], 0, net, env).world.guilds
      == RolesAfter(w.guilds, env.servers.GetOr(map[]), s.name, true, env.failingGuilds)
  {
    var ss := [s, s];
    var st := StepWorld(w, s, net(0), env);
    StepWorldSpec(w, s, net(0), env);
    var st2 := StepWorld(st.world, s, net(1), env);
    StepWorldSpec(st.world, s, net(1), env);
    assert Cycle(st2.world, ss, 2, net, env) == CycleResult(st2.world, [], [], false);
    assert Cycle(st.world, ss, 1, net, env).announced == [];
  }

  /**
    A `server_config.json` without `servers`, with the bot in some guild, makes
    the notice go out again on every cycle: a streamer not yet notified and
    live in two cycles in a row is announced twice, once per cycle, each cycle
    aborts, the key is never recorded and no role changes.
  */
  lemma RoleThrowRepeatsNotice(w: World, s: Streamer, t1: Tick, t2: Tick)
    requires StreamKey(s) !in w.notified && |w.guilds| > 0
    requires t1.env.servers.None? && t2.env.servers.None?
    requires CheckIfLive(s, w.cache, t1.net(0)).0.Live?
    requires CheckIfLive(s, CheckIfLive(s, w.cache, t1.net(0)).1, t2.net(0)).0.Live?
    ensures var h := Watch(w, [s], [t1, t2]);
      && h.announced == [StreamKey(s), StreamKey(s)]
      && h.anyAborted && h.obs == []
      && h.world.notified == w.notified && h.world.guilds == w.guilds
  {
    RoleThrowCycle(w, s, t1);
    var c1 := Cycle(w, [s], 0, t1.net, t1.env);
    assert [t1, t2][..1] == [t1] && [t1][..0] == [];
    assert Watch(w, [s], [t1]) == History(c1.world, [], [StreamKey(s)], true);
    RoleThrowCycle(c1.world, s, t2);
  }

  /** One cycle over a live streamer that is not yet notified, with a guild but no `servers`: it sends the notice and aborts. */
  lemma RoleThrowCycle(w: World, s: Streamer, t: Tick)
    requires StreamKey(s) !in w.notified && |w.guilds| > 0
    requires t.env.servers.None?
    requires CheckIfLive(s, w.cache, t.net(0)).0.Live?
    ensures var c := Cycle(w, [s], 0, t.net, t.env);
      && c.obs == [] && c.announced == [StreamKey(s)] && c.aborted
      && c.world.notified == w.notified && c.world.guilds == w.guilds
      && c.world.cache == CheckIfLive(s, w.cache, t.net(0)).1
  {
    StepWorldSpec(w, s, t.net(0), t.env);
  }

  /** The Discord client: the guilds in its cache and every message it has sent. */
  class Client {
    var guilds: seq<Guild>
    var outbox: seq<Dispatch>

    constructor(guilds: seq<Guild>)
      ensures this.guilds == guilds && outbox == []
    {
      this.guilds := guilds;
      outbox := [];
    }
  }

  class StreamerWatcher {
    const client: Client
    const checkInterval: int
    var streamers: StreamerList
    var notifiedStreams: set<string>
    var twitchToken: string
    var twitchTokenExpires: Option<int>

    /** The part of the watcher and its client a cycle can change. */
    function State(): World
      reads this, client
    {
      World(notifiedStreams, TokenCache(twitchToken, twitchTokenExpires), client.guilds, client.outbox)
    }

    /** A fresh watcher polls every 60 seconds, tracks no streamer, has notified nobody and holds no token. */
    constructor(client: Client)
      ensures this.client == client && checkInterval == 60000
      ensures streamers == Entries([]) && notifiedStreams == {}
      ensures TokenCache(twitchToken, twitchTokenExpires) == NoToken
    {
      this.client := client;
      checkInterval := 60000;
      streamers := Entries([]);
      notifiedStreams := {};
      twitchToken := "";
      twitchTokenExpires := None;
    }

    /** `loadStreamers`: the file's `streamers`, or an empty list when that is falsy (`None`). */
    method LoadStreamers(data: Option<StreamerList>)
      modifies this
      ensures streamers == data.GetOr(Entries([]))
      ensures notifiedStreams == old(notifiedStreams)
      ensures twitchToken == old(twitchToken) && twitchTokenExpires == old(twitchTokenExpires)
    {
      if data.Some? {
        streamers := data.value;
      } else {
        streamers := Entries([]);
      }
    }

    /** `checkTwitchLive`: refreshes the token fields when stale, then asks for the stream. */
    method CheckTwitchLive(net: Network) returns (p: Probe)
      modifies this
      ensures (p, TokenCache(twitchToken, twitchTokenExpires))
        == Probes.CheckTwitchLive(old(TokenCache(twitchToken, twitchTokenExpires)), net)
      ensures streamers == old(streamers) && notifiedStreams == old(notifiedStreams)
    {
      if twitchToken == "" || (twitchTokenExpires.Some? && twitchTokenExpires.value < net.now) {
        if net.token.TokenUnreachable? {
          return Threw;
        }
        twitchToken := net.token.accessToken;
        if net.token.expiresIn.Some? {
          twitchTokenExpires := Some(net.later + net.token.expiresIn.value * 1000);
        } else {
          twitchTokenExpires := None;
        }
      }
      if net.streams.StreamsUnreachable? {
        return Threw;
      }
      var data := net.streams.data;
      if data.Some? && |data.value| > 0 && data.value[0].kind == "live" {
        p := Live(TwitchLive(data.value[0]));
      } else {
        p := Offline;
      }
    }

    /** `checkIfLive`: the probe for the streamer's platform. */
    method CheckIfLive(s: Streamer, net: Network) returns (p: Probe)
      modifies this
      ensures (p, TokenCache(twitchToken, twitchTokenExpires))
        == Probes.CheckIfLive(s, old(TokenCache(twitchToken, twitchTokenExpires)), net)
      ensures streamers == old(streamers) && notifiedStreams == old(notifiedStreams)
    {
      if s.kind == "twitch" {
        p := CheckTwitchLive(net);
      } else if s.kind == "kick" {
        var ls := CheckKickLive(net.kick);
        p := if ls.Some? then Live(KickLive(ls.value)) else Offline;
      } else {
        p := Offline;
      }
    }

    /** `notifyChannel`, recording what the client sent. */
    method NotifyChannel(s: Streamer, data: LiveData, env: Environment)
      modifies client
      ensures client.outbox == old(client.outbox)
        + Sends(Reachable(ChannelIds(env.notificacao), env.knownChannels, env.failingChannels), BuildNotice(s, data))
      ensures client.guilds == old(client.guilds)
    {
      var sent := Delivery.NotifyChannel(s, data, env.notificacao, env.knownChannels, env.failingChannels);
      client.outbox := client.outbox + sent;
    }

    /** `updateLiveRole`; `threw` when reading `config.servers` fails, before any guild is touched. */
    method UpdateLiveRole(streamerName: string, isLive: bool, env: Environment) returns (threw: bool)
      modifies client
      ensures threw == RolesThrow(env, old(client.guilds))
      ensures client.guilds == if threw then old(client.guilds)
        else RolesAfter(old(client.guilds), env.servers.GetOr(map[]), streamerName, isLive, env.failingGuilds)
      ensures client.outbox == old(client.outbox)
    {
      if env.servers.None? && |client.guilds| > 0 {
        return true;
      }
      threw := false;
      var after := Delivery.UpdateLiveRole(client.guilds, env.servers.GetOr(map[]), streamerName, isLive, env.failingGuilds);
      client.guilds := after;
    }

    /**
      `checkStreamers`: loads the list and runs the loop; `aborted` when the
      returned promise rejects. Everything the loop changes is what the cycle
      specification says.
    */
    method CheckStreamers(data: Option<StreamerList>, net: nat -> Network, env: Environment) returns (aborted: bool)
      modifies this, client
      ensures streamers == data.GetOr(Entries([]))
      ensures streamers.NotIterable? ==> aborted && State() == old(State())
      ensures streamers.Entries? ==>
        var r := Cycle(old(State()), streamers.entries, 0, net, env);
        State() == r.world && aborted == r.aborted
    {
      LoadStreamers(data);
      if streamers.NotIterable? {
        return true;
      }
      var ss := streamers.entries;
      ghost var start := State();
      for i := 0 to |ss|
        invariant streamers == Entries(ss)
        invariant Cycle(State(), ss, i, net, env).world == Cycle(start, ss, 0, net, env).world
        invariant Cycle(State(), ss, i, net, env).aborted == Cycle(start, ss, 0, net, env).aborted
      {
        ghost var before := State();
        var s := ss[i];
        var key := StreamKey(s);
        var p := CheckIfLive(s, net(i));
        if p == Threw {
          return true;
        }
        if p.Live? {
          if key !in notifiedStreams {
            NotifyChannel(s, p.data, env);
            var threw := UpdateLiveRole(s.name, true, env);
            if threw {
              return true;
            }
            notifiedStreams := notifiedStreams + {key};
          }
        } else {
          if key in notifiedStreams {
            var threw := UpdateLiveRole(s.name, false, env);
            if threw {
              return true;
            }
            notifiedStreams := notifiedStreams - {key};
          }
        }
        assert State() == StepWorld(before, s, net(i), env).world;
      }
      aborted := false;
    }
  }
}
