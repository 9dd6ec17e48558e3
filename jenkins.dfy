/** The part of a Jenkins build the plugin reads, and the backward walk over
    build history that both plugin versions perform. A history is a sequence
    of builds: index 0 is the build that just finished, index i + 1 is the
    predecessor (`getPreviousBuild()`) of index i, and the sequence ends where
    `getPreviousBuild()` returns null. */
module Jenkins {
  import opened Java

  /** `hudson.model.Result`; `Unset` stands for a build whose result is null. */
  datatype BuildResult = Success | Unstable | Failure | NotBuilt | Aborted | Unset

  /** One entry of a change set: its commit message and its revision, if the
      SCM reports one. */
  datatype Change = Change(msg: string, revision: Option<string>)

  datatype Build = Build(
    result: BuildResult,
    changes: seq<Change>,
    displayName: string,
    fullDisplayName: string,
    url: string)

  /** The commit messages of a build's change set, in change-set order. */
  function Messages(b: Build): seq<string>
  {
    seq(|b.changes|, j requires 0 <= j < |b.changes| => b.changes[j].msg)
  }

  /** The index of the first build at or after `i` whose result is SUCCESS,
      or `|h|` when the history runs out first. */
  function StopAt(h: seq<Build>, i: nat): (k: nat)
    requires i <= |h|
    ensures i <= k <= |h|
    ensures k == |h| || h[k].result == Success
    ensures forall j | i <= j < k :: h[j].result != Success
    decreases |h| - i
  {
    if i == |h| || h[i].result == Success then i else StopAt(h, i + 1)
  }

  /** The builds the backward walk visits: the predecessors of `h[0]`, most
      recent first, up to but excluding the first SUCCESS build. */
  function Streak(h: seq<Build>): seq<Build>
    requires |h| > 0
  {
    h[1..StopAt(h, 1)]
  }

  /** The commit messages of a run of builds, build after build in the given
      order, each build's messages in change-set order. */
  function AllMessages(bs: seq<Build>): seq<string>
  {
    if bs == [] then [] else AllMessages(bs[..|bs| - 1]) + Messages(bs[|bs| - 1])
  }

  /** Every build in the streak failed to succeed, and the walk stopped at a
      SUCCESS build or at the start of history. */
  lemma StreakBounds(h: seq<Build>)
    requires |h| > 0
    ensures forall b | b in Streak(h) :: b.result != Success
    ensures 1 + |Streak(h)| == |h| || h[1 + |Streak(h)|].result == Success
  {
    var k := StopAt(h, 1);
    forall b | b in Streak(h) ensures b.result != Success {
      var j :| 0 <= j < |Streak(h)| && Streak(h)[j] == b;
      assert h[1 + j] == b;
    }
  }

  /** Skipping builds that did not succeed does not move the stopping point. */
  lemma {:induction false} StopAtSkips(h: seq<Build>, i: nat, j: nat)
    requires i <= j <= |h|
    requires forall m | i <= m < j :: h[m].result != Success
    ensures StopAt(h, i) == StopAt(h, j)
    decreases j - i
  {
    if i < j {
      StopAtSkips(h, i + 1, j);
    }
  }

  /** The messages of a run's first `n` builds come first in the run's messages. */
  lemma {:induction false} AllMessagesPrefix(bs: seq<Build>, n: nat)
    requires n <= |bs|
    ensures AllMessages(bs[..n]) <= AllMessages(bs)
    decreases |bs|
  {
    if n < |bs| {
      var p := bs[..|bs| - 1];
      assert bs[..n] == p[..n];
      AllMessagesPrefix(p, n);
    } else {
      assert bs[..n] == bs;
    }
  }
}
