/**
 * What two deliveries of the game's events do to the state the game does not hold.
 *
 * An event repeated at once changes nothing, but a logout also arrives a second time, and a
 * player may have come back between the two. What was set since then is lost.
 */
module Redelivery {
  import opened Types
  import opened Worlds
  import opened Commands
  import opened Bridge
  import opened LastWriter
  import opened Replication
  import opened Survival

  // ---- a second logout undoes what was set after the first ----

  const RELOGIN := [WLogout(7), WClan(7, 1, false)]
  const MUTING := Client(7, ChangePrefs(SetPlayerMute(9, true)))

  // Delivered once, a player that logs out and comes back keeps the mute it then sets.
  lemma MuteKeptOnOneTransport(grow: Allocator)
    ensures var inputs := Delivered(RELOGIN) + [MUTING];
            && DeliveredOnce(inputs, RELOGIN, [MUTING])
            && PrefsOf(Run(EMPTY_WORLD, inputs, grow), 7) == Some(DEFAULT_PREFS.(muted := {9}))
  {
    var log := Delivered(RELOGIN);
    assert log == [Deliver(WLogout(7)), Deliver(WClan(7, 1, false))];
    FollowedBy(log, [MUTING]);
    RunThree(EMPTY_WORLD, log[0], log[1], MUTING, grow);
    assert Step(EMPTY_WORLD, log[0], grow) == EMPTY_WORLD;
    var back := Step(EMPTY_WORLD, log[1], grow);
    assert PrefsOf(back, 7) == Some(DEFAULT_PREFS);
    assert DEFAULT_PREFS.muted + {9} == {9};
  }

  // Delivered twice, with the mute between the deliveries, it loses it.
  lemma MuteLostOnTwoTransports(grow: Allocator)
    ensures var inputs := Delivered(RELOGIN) + [MUTING] + Delivered(RELOGIN);
            && DeliveredTwice(inputs, RELOGIN, Delivered(RELOGIN) + Delivered(RELOGIN), [MUTING])
            && PrefsOf(Run(EMPTY_WORLD, inputs, grow), 7) == Some(DEFAULT_PREFS)
  {
    var log := Delivered(RELOGIN);
    assert log == [Deliver(WLogout(7)), Deliver(WClan(7, 1, false))];
    FollowedBy(log, log);
    PutBetween(log, [MUTING], log);
    MuteKeptOnOneTransport(grow);
    RunJoin(EMPTY_WORLD, log + [MUTING], log, grow);
    RunTwo(Run(EMPTY_WORLD, log + [MUTING], grow), log[0], log[1], grow);
  }

  lemma {:induction false} FollowedBy(a: seq<Input>, b: seq<Input>)
    ensures Shuffle(a + b, a, b)
  {
    if a == [] {
      assert a + b == b;
      AllFromSecond(b);
    } else {
      assert (a + b)[1..] == a[1..] + b;
      FollowedBy(a[1..], b);
    }
  }

  lemma {:induction false} AllFromSecond(b: seq<Input>)
    ensures Shuffle(b, [], b)
  {
    if b == [] {
    } else {
      AllFromSecond(b[1..]);
    }
  }

  lemma {:induction false} PutBetween(a: seq<Input>, b: seq<Input>, c: seq<Input>)
    ensures Shuffle(a + b + c, a + c, b)
  {
    if a == [] {
      assert a + b + c == b + c && a + c == c;
      FollowedBy(b, c);
      ShuffleSymmetric(b + c, b, c);
    } else {
      assert (a + b + c)[1..] == a[1..] + b + c && (a + c)[1..] == a[1..] + c;
      PutBetween(a[1..], b, c);
    }
  }

  lemma {:induction false} RunJoin(w: World, a: seq<Input>, b: seq<Input>, grow: Allocator)
    ensures Run(w, a + b, grow) == Run(Run(w, a, grow), b, grow)
    decreases |a|
  {
    if a == [] {
      assert a + b == b;
    } else {
      assert (a + b)[1..] == a[1..] + b;
      RunJoin(Step(w, a[0], grow), a[1..], b, grow);
    }
  }

  lemma RunTwo(w: World, a: Input, b: Input, grow: Allocator)
    ensures Run(w, [a, b], grow) == Step(Step(w, a, grow), b, grow)
  {
    assert Run(w, [a, b], grow) == Run(Step(w, a, grow), [b], grow);
    assert Run(Step(w, a, grow), [b], grow) == Run(Step(Step(w, a, grow), b, grow), [], grow);
  }

  lemma RunThree(w: World, a: Input, b: Input, c: Input, grow: Allocator)
    ensures Run(w, [a, b] + [c], grow) == Step(Step(Step(w, a, grow), b, grow), c, grow)
  {
    RunJoin(w, [a, b], [c], grow);
    RunTwo(w, a, b, grow);
  }

  // ---- in terms of the deliveries ----

  function Count(log: seq<Input>, test: Test): nat {
    if log == [] then 0 else (if test(log[0]) then 1 else 0) + Count(log[1..], test)
  }

  lemma {:induction false} CountJoin(a: seq<Input>, b: seq<Input>, test: Test)
    ensures Count(a + b, test) == Count(a, test) + Count(b, test)
  {
    if a == [] {
      assert a + b == b;
    } else {
      assert (a + b)[1..] == a[1..] + b;
      CountJoin(a[1..], b, test);
    }
  }

  lemma {:induction false} CountShuffled(m: seq<Input>, a: seq<Input>, b: seq<Input>, test: Test)
    requires Shuffle(m, a, b)
    ensures Count(m, test) == Count(a, test) + Count(b, test)
    decreases |m|
  {
    if m == [] {
    } else if a != [] && m[0] == a[0] && Shuffle(m[1..], a[1..], b) {
      CountShuffled(m[1..], a[1..], b, test);
    } else {
      CountShuffled(m[1..], a, b[1..], test);
    }
  }

  lemma {:induction false} CleanIffCountsNone(log: seq<Input>, test: Test)
    ensures Clean(log, test) <==> Count(log, test) == 0
  {
    if log == [] {
    } else {
      CleanIffCountsNone(log[1..], test);
      assert Clean(log, test) <==> !test(log[0]) && Clean(log[1..], test) by {
        assert log == [log[0]] + log[1..];
      }
    }
  }

  // No logout of the player is still to come exactly if each of them came twice already.
  lemma NoLogoutToComeIff(before: seq<Input>, rest: seq<Input>, events: seq<WireEvent>, both: seq<Input>,
                          clients: seq<Input>, id: int32)
    requires DeliveredTwice(before + rest, events, both, clients)
    ensures Clean(rest, LogsOut(id)) <==> Count(before, LogsOut(id)) == 2 * Count(Delivered(events), LogsOut(id))
  {
    var log, out := Delivered(events), LogsOut(id);
    CountShuffled(both, log, log, out);
    CountShuffled(before + rest, both, clients, out);
    CleanIffCountsNone(clients, out);
    CountJoin(before, rest, out);
    CleanIffCountsNone(rest, out);
  }

  // So preferences other than the defaults survive two deliveries exactly if, when they were
  // set, both had delivered all logouts of the player.
  lemma PrefsSurviveTwoTransportsIff(w: World, before: seq<Input>, rest: seq<Input>, events: seq<WireEvent>,
                                     both: seq<Input>, clients: seq<Input>, id: int32, grow: Allocator)
    requires DeliveredTwice(before + rest, events, both, clients) && 0 <= id
    requires var at := Run(w, before, grow);
             && PrefsOf(at, id).Some? && PrefsOf(at, id) != Some(DEFAULT_PREFS)
             && Unchanged(at, rest, OwnPrefs(id), grow)
    ensures PrefsOf(Run(w, before + rest, grow), id) == PrefsOf(Run(w, before, grow), id) <==>
            Count(before, LogsOut(id)) == 2 * Count(Delivered(events), LogsOut(id))
  {
    RunJoin(w, before, rest, grow);
    NoLogoutToComeIff(before, rest, events, both, clients, id);
    PrefsLastUntilLogout(Run(w, before, grow), id, rest, grow);
  }
}
