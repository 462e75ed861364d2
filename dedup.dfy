/**
  The deduplication rule at the heart of the streamer watcher's polling loop
  (`StreamerWatcher.checkStreamers`), stated over values.

  Each tracked streamer is identified by the key `type:name`. The watcher keeps
  the set `notifiedStreams` of keys it has announced as live. One observation of
  a key either announces it (offline to live), retracts it (live to offline) or
  changes nothing. This module proves that this rule yields exactly one
  announcement per maximal run of live observations of a key.
*/
module Dedup {
  import Text

  /** One entry of the tracked-streamer list: its platform `type` and channel `name`. */
  datatype Streamer = Streamer(kind: string, name: string)

  /** The key `${type}:${name}` under which a streamer is remembered as notified. */
  function StreamKey(s: Streamer): string {
    s.kind + ":" + s.name
  }

  /** Two entries share a key only if they are the same entry, as long as no platform name holds a colon. */
  lemma StreamKeyInjective(a: Streamer, b: Streamer)
    requires ':' !in a.kind && ':' !in b.kind
    requires StreamKey(a) == StreamKey(b)
    ensures a == b
  {
    var k := StreamKey(a);
    ColonAfterKind(a);
    ColonAfterKind(b);
    assert a.kind == k[..|a.kind|] == b.kind;
    assert a.name == k[|a.kind| + 1..] == b.name;
  }

  /** The first colon of a key ends the platform part. */
  lemma ColonAfterKind(s: Streamer)
    requires ':' !in s.kind
    ensures Text.IndexOf(StreamKey(s), ':') == |s.kind|
  {
    var k := StreamKey(s);
    assert k[|s.kind|] == ':';
    assert k[..|s.kind|] == s.kind;
  }

  /** What the loop does with one observation of a key. */
  datatype Decision =
    | Announce   // notify the channels, add the live role, remember the key
    | Retract    // remove the live role, forget the key
    | Keep       // nothing at all

  function Decide(notified: set<string>, key: string, live: bool): Decision {
    if live then
      if key in notified then Keep else Announce
    else
      if key in notified then Retract else Keep
  }

  /** The notified set after acting on a decision about `key`. */
  function Apply(notified: set<string>, key: string, d: Decision): set<string> {
    match d
    case Announce => notified + {key}
    case Retract => notified - {key}
    case Keep => notified
  }

  /** The notified set after one observation. */
  function Step(notified: set<string>, key: string, live: bool): set<string> {
    Apply(notified, key, Decide(notified, key, live))
  }

  /**
    One observation: announces exactly when the key goes from not notified to
    live, retracts exactly when a notified key is seen offline, afterwards the
    key is notified exactly when it was seen live, and no other key changes.
  */
  lemma StepSpec(notified: set<string>, key: string, live: bool)
    ensures Decide(notified, key, live) == Announce <==> live && key !in notified
    ensures Decide(notified, key, live) == Retract <==> !live && key in notified
    ensures key in Step(notified, key, live) <==> live
    ensures forall other :: other != key ==> (other in Step(notified, key, live) <==> other in notified)
    ensures Decide(notified, key, live) == Keep <==> Step(notified, key, live) == notified
  {
    if Decide(notified, key, live) != Keep {
      assert key in notified <==> key !in Step(notified, key, live);
    }
  }

  /** The result of looking at a streamer in one loop iteration. */
  datatype Observation = Observation(key: string, live: bool)

  /** The notified set after a sequence of observations, processed in order. */
  function Replay(notified: set<string>, obs: seq<Observation>): set<string>
    decreases |obs|
  {
    if obs == [] then notified
    else Replay(Step(notified, obs[0].key, obs[0].live), obs[1..])
  }

  /** The decision taken at each observation. */
  function Decisions(notified: set<string>, obs: seq<Observation>): (ds: seq<Decision>)
    ensures |ds| == |obs|
    decreases |obs|
  {
    if obs == [] then []
    else
      [Decide(notified, obs[0].key, obs[0].live)]
        + Decisions(Step(notified, obs[0].key, obs[0].live), obs[1..])
  }

  /** The keys announced, in the order the announcements happen. */
  function Announced(notified: set<string>, obs: seq<Observation>): seq<string>
    decreases |obs|
  {
    if obs == [] then []
    else
      var d := Decide(notified, obs[0].key, obs[0].live);
      (if d == Announce then [obs[0].key] else [])
        + Announced(Step(notified, obs[0].key, obs[0].live), obs[1..])
  }

  /** Processing two batches one after the other is processing their concatenation. */
  lemma ReplayAppend(notified: set<string>, a: seq<Observation>, b: seq<Observation>)
    ensures Replay(notified, a + b) == Replay(Replay(notified, a), b)
    ensures Decisions(notified, a + b) == Decisions(notified, a) + Decisions(Replay(notified, a), b)
    ensures Announced(notified, a + b) == Announced(notified, a) + Announced(Replay(notified, a), b)
  {
    ReplayStateAppend(notified, a, b);
    DecisionsAppend(notified, a, b);
    AnnouncedAppend(notified, a, b);
  }

  lemma {:induction false} ReplayStateAppend(notified: set<string>, a: seq<Observation>, b: seq<Observation>)
    ensures Replay(notified, a + b) == Replay(Replay(notified, a), b)
    decreases |a|
  {
    if a == [] {
      assert a + b == b;
    } else {
      assert (a + b)[0] == a[0];
      assert (a + b)[1..] == a[1..] + b;
      ReplayStateAppend(Step(notified, a[0].key, a[0].live), a[1..], b);
    }
  }

  lemma {:induction false} DecisionsAppend(notified: set<string>, a: seq<Observation>, b: seq<Observation>)
    ensures Decisions(notified, a + b) == Decisions(notified, a) + Decisions(Replay(notified, a), b)
    decreases |a|
  {
    if a == [] {
      assert a + b == b;
    } else {
      assert (a + b)[0] == a[0];
      assert (a + b)[1..] == a[1..] + b;
      DecisionsAppend(Step(notified, a[0].key, a[0].live), a[1..], b);
    }
  }

  lemma {:induction false} AnnouncedAppend(notified: set<string>, a: seq<Observation>, b: seq<Observation>)
    ensures Announced(notified, a + b) == Announced(notified, a) + Announced(Replay(notified, a), b)
    decreases |a|
  {
    if a == [] {
      assert a + b == b;
    } else {
      assert (a + b)[0] == a[0];
      assert (a + b)[1..] == a[1..] + b;
      AnnouncedAppend(Step(notified, a[0].key, a[0].live), a[1..], b);
    }
  }

  /** The live flags of the observations of `key`, in order. */
  function Project(obs: seq<Observation>, key: string): seq<bool>
    decreases |obs|
  {
    if obs == [] then []
    else (if obs[0].key == key then [obs[0].live] else []) + Project(obs[1..], key)
  }

  /** How often `x` occurs in `xs`. */
  function Occurrences(xs: seq<string>, x: string): nat {
    if xs == [] then 0 else (if xs[0] == x then 1 else 0) + Occurrences(xs[1..], x)
  }

  lemma {:induction false} OccurrencesAppend(a: seq<string>, b: seq<string>, x: string)
    ensures Occurrences(a + b, x) == Occurrences(a, x) + Occurrences(b, x)
  {
    if a != [] {
      assert (a + b)[1..] == a[1..] + b;
      OccurrencesAppend(a[1..], b, x);
    } else {
      assert a + b == b;
    }
  }

  /** The number of positions where a live flag follows a non-live one; `prev` is the flag before the first. */
  function RunStarts(prev: bool, flags: seq<bool>): nat
    decreases |flags|
  {
    if flags == [] then 0
    else (if flags[0] && !prev then 1 else 0) + RunStarts(flags[0], flags[1..])
  }

  /**
    A key's membership in the notified set always equals its latest live flag,
    or its initial membership if it was never observed.
  */
  lemma {:induction false} ReplayTracksLatest(notified: set<string>, obs: seq<Observation>, key: string)
    ensures var flags := Project(obs, key);
      key in Replay(notified, obs) <==> if flags == [] then key in notified else flags[|flags| - 1]
    decreases |obs|
  {
    if obs != [] {
      var next := Step(notified, obs[0].key, obs[0].live);
      StepSpec(notified, obs[0].key, obs[0].live);
      ReplayTracksLatest(next, obs[1..], key);
    }
  }

  /**
    The number of announcements of `key` is the number of times its live flag
    switches on, counting the first flag as a switch when the key starts out
    not notified.
  */
  lemma {:induction false} AnnouncementsAreRunStarts(notified: set<string>, obs: seq<Observation>, key: string)
    ensures Occurrences(Announced(notified, obs), key) == RunStarts(key in notified, Project(obs, key))
    decreases |obs|
  {
    if obs != [] {
      var o := obs[0];
      var next := Step(notified, o.key, o.live);
      StepSpec(notified, o.key, o.live);
      var d := Decide(notified, o.key, o.live);
      var head := if d == Announce then [o.key] else [];
      OccurrencesAppend(head, Announced(next, obs[1..]), key);
      AnnouncementsAreRunStarts(next, obs[1..], key);
      if o.key == key {
        assert Project(obs, key) == [o.live] + Project(obs[1..], key);
      } else {
        assert Project(obs, key) == Project(obs[1..], key);
      }
    }
  }

  /** `flags` with every run of equal neighbours merged into one element. */
  function Collapse(flags: seq<bool>): (r: seq<bool>)
    ensures |r| <= |flags|
    ensures flags != [] ==> r != [] && r[0] == flags[0]
    ensures forall i :: 0 <= i < |r| - 1 ==> r[i] != r[i + 1]
  {
    if |flags| <= 1 then flags
    else if flags[0] == flags[1] then Collapse(flags[1..])
    else [flags[0]] + Collapse(flags[1..])
  }

  function CountTrue(flags: seq<bool>): nat {
    if flags == [] then 0 else (if flags[0] then 1 else 0) + CountTrue(flags[1..])
  }

  /** The number of maximal runs of `true` in `flags`: each one collapses to a single `true`. */
  function LiveRuns(flags: seq<bool>): nat {
    CountTrue(Collapse(flags))
  }

  /** Counting switches-on from an initial `false` is counting maximal live runs. */
  lemma {:induction false} RunStartsAreLiveRuns(flags: seq<bool>)
    ensures RunStarts(false, flags) == LiveRuns(flags)
  {
    if |flags| == 1 {
      assert Collapse(flags) == flags;
      assert flags[1..] == [];
    } else if |flags| > 1 {
      var rest := flags[1..];
      RunStartsAreLiveRuns(rest);
      // the first flag starts a run exactly when it is on; from the second flag on, the
      // count from `flags[0]` differs from the count from `false` by whether `rest[0]` is on
      assert RunStarts(false, flags) == (if flags[0] then 1 else 0) + RunStarts(flags[0], rest);
      assert RunStarts(flags[0], rest) == (if rest[0] && !flags[0] then 1 else 0) + RunStarts(rest[0], rest[1..]);
      assert RunStarts(false, rest) == (if rest[0] then 1 else 0) + RunStarts(rest[0], rest[1..]);
      if flags[0] == flags[1] {
        assert Collapse(flags) == Collapse(rest);
      } else {
        var c := Collapse(rest);
        assert Collapse(flags) == [flags[0]] + c;
        assert ([flags[0]] + c)[1..] == c;
        assert CountTrue(Collapse(flags)) == (if flags[0] then 1 else 0) + CountTrue(c);
      }
    }
  }

  /**
    Exactly one announcement per maximal run of live observations: for a key
    that starts out not notified, the number of times it is announced equals
    the number of maximal runs of `live` among its observations.
  */
  lemma OneAnnouncementPerLiveRun(notified: set<string>, obs: seq<Observation>, key: string)
    requires key !in notified
    ensures Occurrences(Announced(notified, obs), key) == LiveRuns(Project(obs, key))
  {
    AnnouncementsAreRunStarts(notified, obs, key);
    RunStartsAreLiveRuns(Project(obs, key));
  }

  /**
    Where the announcements fall: observation `i` announces exactly when it is
    live and the key was not notified just before it, i.e. its previous
    observation (or, for the first one, the initial state) was not live.
  */
  lemma {:induction false} AnnounceAt(notified: set<string>, obs: seq<Observation>, i: nat)
    requires i < |obs|
    ensures Decisions(notified, obs)[i] == Announce
      <==> obs[i].live && obs[i].key !in Replay(notified, obs[..i])
    decreases i
  {
    if i > 0 {
      var next := Step(notified, obs[0].key, obs[0].live);
      AnnounceAt(next, obs[1..], i - 1);
      assert obs[1..][..i - 1] == obs[..i][1..];
    }
    StepSpec(Replay(notified, obs[..i]), obs[i].key, obs[i].live);
  }

  /** The scripted run offline, live, live, offline, live announces at the second and fifth observations only. */
  lemma ScriptedRun(key: string)
    ensures var obs := [Observation(key, false), Observation(key, true), Observation(key, true),
                        Observation(key, false), Observation(key, true)];
      Decisions({}, obs) == [Keep, Announce, Keep, Retract, Announce]
      && Announced({}, obs) == [key, key]
      && Replay({}, obs) == {key}
  {
    var off, on := Observation(key, false), Observation(key, true);
    var obs := [off, on, on, off, on];
    assert obs[1..] == [on, on, off, on] && obs[2..] == [on, off, on];
    assert obs[3..] == [off, on] && obs[4..] == [on];
    assert Step({}, key, false) == {};
    assert Step({}, key, true) == {key};
    assert Step({key}, key, true) == {key};
    assert Step({key}, key, false) == {};
    assert [on][1..] == [];
    assert Decisions({}, [on]) == [Announce] && Announced({}, [on]) == [key] && Replay({}, [on]) == {key};
    assert [off, on][1..] == [on];
    assert Decisions({key}, [off, on]) == [Retract, Announce];
    assert Announced({key}, [off, on]) == [key] && Replay({key}, [off, on]) == {key};
    assert [on, off, on][1..] == [off, on];
    assert Decisions({key}, [on, off, on]) == [Keep, Retract, Announce];
    assert Announced({key}, [on, off, on]) == [key] && Replay({key}, [on, off, on]) == {key};
    assert [on, on, off, on][1..] == [on, off, on];
    assert Decisions({}, [on, on, off, on]) == [Announce, Keep, Retract, Announce];
    assert Announced({}, [on, on, off, on]) == [key, key];
  }
}
