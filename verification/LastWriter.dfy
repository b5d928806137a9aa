/**
 * Facts about the end of a log that decide the state it leads to, and that survive
 * interleaving: if each of two logs ends with a certain write undisturbed, so does every
 * shuffle of the two.
 */
module LastWriter {

  ghost predicate Clean<T>(log: seq<T>, spoils: T -> bool) {
    forall i :: 0 <= i < |log| ==> !spoils(log[i])
  }

  // Some entry hits, and none after it spoils.
  ghost predicate Settled<T>(log: seq<T>, hits: T -> bool, spoils: T -> bool) {
    log != [] && (Settled(log[1..], hits, spoils) || (hits(log[0]) && Clean(log[1..], spoils)))
  }

  // Some entry makes, none after it unmakes, and what follows it is settled.
  ghost predicate MadeAndSettled<T>(log: seq<T>, makes: T -> bool, unmakes: T -> bool, hits: T -> bool,
      spoils: T -> bool) {
    log != [] &&
    (MadeAndSettled(log[1..], makes, unmakes, hits, spoils) ||
     (makes(log[0]) && Clean(log[1..], unmakes) && Settled(log[1..], hits, spoils)))
  }

  // ---- building them up ----

  lemma {:induction false} CleanAndHitSettled<T>(log: seq<T>, i: nat, hits: T -> bool, spoils: T -> bool)
    requires i < |log| && hits(log[i]) && Clean(log, spoils)
    ensures Settled(log, hits, spoils)
  {
    if i == 0 {
    } else {
      CleanAndHitSettled(log[1..], i - 1, hits, spoils);
    }
  }

  lemma {:induction false} SettledAppend<T>(a: seq<T>, b: seq<T>, hits: T -> bool, spoils: T -> bool)
    requires (Settled(a, hits, spoils) && Clean(b, spoils)) || Settled(b, hits, spoils)
    ensures Settled(a + b, hits, spoils)
    decreases |a|
  {
    if a == [] {
      assert a + b == b;
    } else {
      assert (a + b)[1..] == a[1..] + b;
      if Settled(a[1..], hits, spoils) || Settled(b, hits, spoils) {
        SettledAppend(a[1..], b, hits, spoils);
      }
    }
  }

  lemma {:induction false} MadeAppendClean<T>(a: seq<T>, b: seq<T>, makes: T -> bool, unmakes: T -> bool,
                                              hits: T -> bool, spoils: T -> bool)
    requires MadeAndSettled(a, makes, unmakes, hits, spoils) && Clean(b, unmakes) && Clean(b, spoils)
    ensures MadeAndSettled(a + b, makes, unmakes, hits, spoils)
    decreases |a|
  {
    assert (a + b)[1..] == a[1..] + b;
    if MadeAndSettled(a[1..], makes, unmakes, hits, spoils) {
      MadeAppendClean(a[1..], b, makes, unmakes, hits, spoils);
    } else {
      SettledAppend(a[1..], b, hits, spoils);
    }
  }

  lemma {:induction false} MadeAppendMade<T>(a: seq<T>, b: seq<T>, makes: T -> bool, unmakes: T -> bool,
                                             hits: T -> bool, spoils: T -> bool)
    requires MadeAndSettled(b, makes, unmakes, hits, spoils)
    ensures MadeAndSettled(a + b, makes, unmakes, hits, spoils)
    decreases |a|
  {
    if a == [] {
      assert a + b == b;
    } else {
      assert (a + b)[1..] == a[1..] + b;
      MadeAppendMade(a[1..], b, makes, unmakes, hits, spoils);
    }
  }

  lemma {:induction false} MadeAppendSettled<T>(a: seq<T>, b: seq<T>, makes: T -> bool, unmakes: T -> bool,
                                                hits: T -> bool, spoils: T -> bool)
    requires Settled(a, makes, unmakes) && Clean(b, unmakes) && Settled(b, hits, spoils)
    ensures MadeAndSettled(a + b, makes, unmakes, hits, spoils)
    decreases |a|
  {
    assert (a + b)[1..] == a[1..] + b;
    if Settled(a[1..], makes, unmakes) {
      MadeAppendSettled(a[1..], b, makes, unmakes, hits, spoils);
    } else {
      SettledAppend(a[1..], b, hits, spoils);
    }
  }

  lemma MadeFirst<T>(x: T, rest: seq<T>, makes: T -> bool, unmakes: T -> bool, hits: T -> bool, spoils: T -> bool)
    requires makes(x) && Clean(rest, unmakes) && Settled(rest, hits, spoils)
    ensures MadeAndSettled([x] + rest, makes, unmakes, hits, spoils)
  {
  }

  lemma {:induction false} MadeIsSettled<T>(log: seq<T>, makes: T -> bool, unmakes: T -> bool, hits: T -> bool,
      spoils: T -> bool)
    requires MadeAndSettled(log, makes, unmakes, hits, spoils)
    ensures Settled(log, makes, unmakes)
  {
    if MadeAndSettled(log[1..], makes, unmakes, hits, spoils) {
      MadeIsSettled(log[1..], makes, unmakes, hits, spoils);
    }
  }

  // ---- shuffles ----

  ghost predicate Shuffle<T>(m: seq<T>, a: seq<T>, b: seq<T>)
    decreases |m|
  {
    if m == [] then a == [] && b == []
    else
      || (a != [] && m[0] == a[0] && Shuffle(m[1..], a[1..], b))
      || (b != [] && m[0] == b[0] && Shuffle(m[1..], a, b[1..]))
  }

  lemma {:induction false} ShuffleSymmetric<T>(m: seq<T>, a: seq<T>, b: seq<T>)
    requires Shuffle(m, a, b)
    ensures Shuffle(m, b, a)
    decreases |m|
  {
    if m == [] {
    } else {
      if a != [] && m[0] == a[0] && Shuffle(m[1..], a[1..], b) {
        ShuffleSymmetric(m[1..], a[1..], b);
      } else {
        ShuffleSymmetric(m[1..], a, b[1..]);
      }
    }
  }

  lemma {:induction false} ShuffleClean<T>(m: seq<T>, a: seq<T>, b: seq<T>, spoils: T -> bool)
    requires Shuffle(m, a, b) && Clean(a, spoils) && Clean(b, spoils)
    ensures Clean(m, spoils)
    decreases |m|
  {
    if m == [] {
    } else {
      if a != [] && m[0] == a[0] && Shuffle(m[1..], a[1..], b) {
        ShuffleClean(m[1..], a[1..], b, spoils);
      } else {
        ShuffleClean(m[1..], a, b[1..], spoils);
      }
    }
  }

  lemma {:induction false} ShuffleSettledClean<T>(m: seq<T>, a: seq<T>, b: seq<T>, hits: T -> bool, spoils: T -> bool)
    requires Shuffle(m, a, b) && Settled(a, hits, spoils) && Clean(b, spoils)
    ensures Settled(m, hits, spoils)
    decreases |m|
  {
    if a != [] && m[0] == a[0] && Shuffle(m[1..], a[1..], b) {
      if Settled(a[1..], hits, spoils) {
        ShuffleSettledClean(m[1..], a[1..], b, hits, spoils);
      } else {
        ShuffleClean(m[1..], a[1..], b, spoils);
      }
    } else {
      ShuffleSettledClean(m[1..], a, b[1..], hits, spoils);
    }
  }

  lemma {:induction false} ShuffleSettled<T>(m: seq<T>, a: seq<T>, b: seq<T>, hits: T -> bool, spoils: T -> bool)
    requires Shuffle(m, a, b) && Settled(a, hits, spoils) && Settled(b, hits, spoils)
    ensures Settled(m, hits, spoils)
    decreases |m|
  {
    if a != [] && m[0] == a[0] && Shuffle(m[1..], a[1..], b) {
      if Settled(a[1..], hits, spoils) {
        ShuffleSettled(m[1..], a[1..], b, hits, spoils);
      } else {
        ShuffleSymmetric(m[1..], a[1..], b);
        ShuffleSettledClean(m[1..], b, a[1..], hits, spoils);
      }
    } else {
      if Settled(b[1..], hits, spoils) {
        ShuffleSettled(m[1..], a, b[1..], hits, spoils);
      } else {
        ShuffleSettledClean(m[1..], a, b[1..], hits, spoils);
      }
    }
  }

  lemma {:induction false} ShuffleMadeClean<T>(m: seq<T>, a: seq<T>, b: seq<T>, makes: T -> bool, unmakes: T -> bool,
                                               hits: T -> bool, spoils: T -> bool)
    requires Shuffle(m, a, b) && MadeAndSettled(a, makes, unmakes, hits, spoils)
    requires Clean(b, unmakes) && Clean(b, spoils)
    ensures MadeAndSettled(m, makes, unmakes, hits, spoils)
    decreases |m|
  {
    if a != [] && m[0] == a[0] && Shuffle(m[1..], a[1..], b) {
      if MadeAndSettled(a[1..], makes, unmakes, hits, spoils) {
        ShuffleMadeClean(m[1..], a[1..], b, makes, unmakes, hits, spoils);
      } else {
        ShuffleClean(m[1..], a[1..], b, unmakes);
        ShuffleSettledClean(m[1..], a[1..], b, hits, spoils);
      }
    } else {
      ShuffleMadeClean(m[1..], a, b[1..], makes, unmakes, hits, spoils);
    }
  }

  lemma {:induction false} ShuffleMadeSettled<T>(m: seq<T>, a: seq<T>, b: seq<T>, makes: T -> bool, unmakes: T -> bool,
                                                 hits: T -> bool, spoils: T -> bool)
    requires Shuffle(m, a, b) && MadeAndSettled(a, makes, unmakes, hits, spoils)
    requires Clean(b, unmakes) && Settled(b, hits, spoils)
    ensures MadeAndSettled(m, makes, unmakes, hits, spoils)
    decreases |m|
  {
    if a != [] && m[0] == a[0] && Shuffle(m[1..], a[1..], b) {
      if MadeAndSettled(a[1..], makes, unmakes, hits, spoils) {
        ShuffleMadeSettled(m[1..], a[1..], b, makes, unmakes, hits, spoils);
      } else {
        ShuffleClean(m[1..], a[1..], b, unmakes);
        ShuffleSettled(m[1..], a[1..], b, hits, spoils);
      }
    } else {
      if Settled(b[1..], hits, spoils) {
        ShuffleMadeSettled(m[1..], a, b[1..], makes, unmakes, hits, spoils);
      } else {
        ShuffleMadeClean(m[1..], a, b[1..], makes, unmakes, hits, spoils);
      }
    }
  }

  lemma {:induction false} ShuffleMade<T>(m: seq<T>, a: seq<T>, b: seq<T>, makes: T -> bool, unmakes: T -> bool,
                                          hits: T -> bool, spoils: T -> bool)
    requires Shuffle(m, a, b)
    requires MadeAndSettled(a, makes, unmakes, hits, spoils) && MadeAndSettled(b, makes, unmakes, hits, spoils)
    ensures MadeAndSettled(m, makes, unmakes, hits, spoils)
    decreases |m|
  {
    if a != [] && m[0] == a[0] && Shuffle(m[1..], a[1..], b) {
      if MadeAndSettled(a[1..], makes, unmakes, hits, spoils) {
        ShuffleMade(m[1..], a[1..], b, makes, unmakes, hits, spoils);
      } else {
        ShuffleSymmetric(m[1..], a[1..], b);
        ShuffleMadeSettled(m[1..], b, a[1..], makes, unmakes, hits, spoils);
      }
    } else {
      if MadeAndSettled(b[1..], makes, unmakes, hits, spoils) {
        ShuffleMade(m[1..], a, b[1..], makes, unmakes, hits, spoils);
      } else {
        ShuffleMadeSettled(m[1..], a, b[1..], makes, unmakes, hits, spoils);
      }
    }
  }
}
