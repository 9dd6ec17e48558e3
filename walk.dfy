/** The backward walk over build history that both plugin versions make
    after a successful build: from the build's predecessor back to, but not
    including, the most recent SUCCESS build. */
module Walk {
  import opened Jenkins
  import opened IssuePattern

  /** Every issue number the scanned builds reference can be parsed: the
      builds of the backward walk and the build itself. */
  predicate Scannable(build: Build, earlier: seq<Build>)
  {
    Fits(AllMessages(Streak([build] + earlier))) && Fits(Messages(build))
  }

  /** A parse failure in a visited build makes the walk's messages
      unparseable. */
  lemma WalkFails(build: Build, earlier: seq<Build>, i: nat)
    requires i < |earlier|
    requires forall j | 0 <= j <= i :: earlier[j].result != Success
    requires !Fits(Messages(earlier[i]))
    ensures !Fits(AllMessages(Streak([build] + earlier)))
  {
    StreakPrefix(build, earlier, i + 1);
    var streak := Streak([build] + earlier);
    var head := AllMessages(earlier[..i + 1]);
    assert !Fits(head) by {
      LastBuildFails(earlier[..i + 1]);
    }
    var all := AllMessages(streak);
    assert all == head + all[|head|..] by {
      AllMessagesPrefix(streak, i + 1);
    }
    FitsAppend(head, all[|head|..]);
  }

  /** The walk visits at least the first `n` earlier builds when none of
      them succeeded. */
  lemma StreakPrefix(build: Build, earlier: seq<Build>, n: nat)
    requires n <= |earlier|
    requires forall j | 0 <= j < n :: earlier[j].result != Success
    ensures n <= |Streak([build] + earlier)|
    ensures Streak([build] + earlier)[..n] == earlier[..n]
  {
    var h := [build] + earlier;
    forall m | 1 <= m < n + 1 ensures h[m].result != Success {
      assert h[m] == earlier[m - 1];
    }
    StopAtSkips(h, 1, n + 1);
    var streak := Streak(h);
    forall m | 0 <= m < n ensures streak[m] == earlier[m] {
      assert streak[m] == h[m + 1];
    }
  }

  /** A run whose last build has an unparseable reference has unparseable
      messages. */
  lemma LastBuildFails(bs: seq<Build>)
    requires bs != [] && !Fits(Messages(bs[|bs| - 1]))
    ensures !Fits(AllMessages(bs))
  {
    FitsAppend(AllMessages(bs[..|bs| - 1]), Messages(bs[|bs| - 1]));
  }

  /** Where the walk's loop stops, it has visited exactly the streak. */
  lemma WalkStops(build: Build, earlier: seq<Build>, i: nat)
    requires i <= |earlier|
    requires forall j | 0 <= j < i :: earlier[j].result != Success
    requires i == |earlier| || earlier[i].result == Success
    ensures Streak([build] + earlier) == earlier[..i]
  {
    var h := [build] + earlier;
    StopAtSkips(h, 1, i + 1);
  }
}
