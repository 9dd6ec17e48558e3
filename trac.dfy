/** The Trac side: the remote `ticket.update` call both plugin versions make,
    the two comment kinds, and the outcomes of the call, which are decided
    outside the plugin and therefore supplied as input. */
module Trac {
  import opened Java

  const SuccessfulKind: string := "Referenced in build"
  const CorrectedKind: string := "Referenced in unsuccessful builds prior to"

  /** The comment kind for an issue referenced by the build itself, or only
      by the failing builds before it. */
  function KindFor(isCorrected: bool): string
  {
    if isCorrected then CorrectedKind else SuccessfulKind
  }

  /** What the environment does with an update: whether `new URL(rpcAddress)`
      accepts the configured address (a null address never parses), and the
      tickets whose `ticket.update` call fails with an XmlRpcException. */
  datatype Tracker = Tracker(urlParses: bool, rejected: set<nat>)

  /** `new URL(rpcAddress)` succeeds. */
  predicate UrlAccepted(rpcAddress: Option<string>, tracker: Tracker)
  {
    rpcAddress.Some? && tracker.urlParses
  }

  /** One call `ticket.update(issue, comment, {}, false)` and whether the
      tracker accepted it. */
  datatype TicketUpdate = TicketUpdate(issue: nat, comment: string, accepted: bool)

  /** The tickets whose update failed, in call order: one error record each. */
  function Rejected(us: seq<TicketUpdate>): (r: seq<nat>)
    ensures forall i | i in r :: exists j | 0 <= j < |us| :: us[j].issue == i && !us[j].accepted
  {
    if us == [] then []
    else Rejected(us[..|us| - 1]) + (if us[|us| - 1].accepted then [] else [us[|us| - 1].issue])
  }

  /** One more update adds its ticket to the failures iff it was refused. */
  lemma RejectedSnoc(us: seq<TicketUpdate>, u: TicketUpdate)
    ensures Rejected(us + [u]) == Rejected(us) + (if u.accepted then [] else [u.issue])
  {
    assert (us + [u])[..|us|] == us;
  }

  /** The failures of two runs of updates are those of the first, then
      those of the second. */
  lemma {:induction false} RejectedConcat(a: seq<TicketUpdate>, b: seq<TicketUpdate>)
    ensures Rejected(a + b) == Rejected(a) + Rejected(b)
    decreases |b|
  {
    if b == [] {
      assert a + b == a;
    } else {
      var p := b[..|b| - 1];
      assert a + b == (a + p) + [b[|b| - 1]];
      RejectedConcat(a, p);
      RejectedSnoc(a + p, b[|b| - 1]);
      RejectedSnoc(p, b[|b| - 1]);
      assert b == p + [b[|b| - 1]];
    }
  }

  /** The two comment kinds are told apart by their first characters, so a
      reader of a ticket can tell which kind of comment it received. */
  lemma KindsDiffer(isCorrected: bool, comment: string)
    requires KindFor(isCorrected) <= comment
    ensures (CorrectedKind <= comment) == isCorrected
    ensures (SuccessfulKind <= comment) == !isCorrected
  {
    assert SuccessfulKind[14] == 'b' && CorrectedKind[14] == 'u';
    assert comment[14] == KindFor(isCorrected)[14];
  }
}
