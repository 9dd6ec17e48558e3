/** The current version of the plugin, `TracIssueUpdater`: after a successful
    build it collects, per issue, the commit messages that reference it, in
    the build itself and in the unbroken run of unsuccessful builds before
    it, and comments on every referenced ticket once. */
module IssueUpdater {
  import opened Java
  import opened Jenkins
  import opened IssuePattern
  import opened Trac
  import opened Walk

  // ---------------------------------------------------------------------
  // Accumulated texts: the specification of getIssueRefs

  /** Records one more reference to issue `k` from `msg`: the first reference
      starts the issue's text, each later one appends a newline and `msg`. */
  function Add(m: map<nat, string>, k: nat, msg: string): map<nat, string>
  {
    if k in m then m[k := m[k] + "\n" + msg] else m[k := msg]
  }

  /** Records the references `ids` that one message makes, in match order. */
  function AddEach(m: map<nat, string>, ids: seq<nat>, msg: string): map<nat, string>
  {
    if ids == [] then m else Add(AddEach(m, ids[..|ids| - 1], msg), ids[|ids| - 1], msg)
  }

  /** The map `getIssueRefs` builds from a run of commit messages. */
  function IssueTexts(msgs: seq<string>): map<nat, string>
  {
    if msgs == [] then map[]
    else
      var n := |msgs| - 1;
      AddEach(IssueTexts(msgs[..n]), Refs(msgs[n]), msgs[n])
  }

  /** `n` copies of `x`. */
  function Repeat(x: string, n: nat): (r: seq<string>)
    ensures |r| == n
  {
    if n == 0 then [] else Repeat(x, n - 1) + [x]
  }

  /** The messages that mention issue `k`, in order, each repeated once per
      match of `k` it contains. */
  function Mentions(msgs: seq<string>, k: nat): seq<string>
  {
    if msgs == [] then []
    else
      var n := |msgs| - 1;
      Mentions(msgs[..n], k) + Repeat(msgs[n], multiset(Refs(msgs[n]))[k])
  }

  /** The lines joined by newlines. */
  function JoinLines(lines: seq<string>): string
    requires |lines| > 0
  {
    if |lines| == 1 then lines[0]
    else JoinLines(lines[..|lines| - 1]) + "\n" + lines[|lines| - 1]
  }

  /** Folds one build's map into the accumulated prior map, as the loop over
      `priorRefs.entrySet()` does: a new issue takes the build's text, a known
      one gets a newline and the build's text appended. */
  function Merge(acc: map<nat, string>, refs: map<nat, string>): map<nat, string>
  {
    map k | k in acc.Keys + refs.Keys ::
      if k in acc && k in refs then acc[k] + "\n" + refs[k]
      else if k in acc then acc[k]
      else refs[k]
  }

  /** The part of `m` on the keys `ks`. */
  function Restrict(m: map<nat, string>, ks: set<nat>): map<nat, string>
  {
    map k | k in m.Keys * ks :: m[k]
  }

  // ---------------------------------------------------------------------
  // What the accumulated texts are

  lemma {:induction false} JoinLinesConcat(a: seq<string>, b: seq<string>)
    requires |a| > 0 && |b| > 0
    ensures JoinLines(a + b) == JoinLines(a) + "\n" + JoinLines(b)
    decreases |b|
  {
    var ab := a + b;
    if |b| == 1 {
      assert ab[..|ab| - 1] == a;
    } else {
      var b' := b[..|b| - 1];
      assert ab[..|ab| - 1] == a + b';
      JoinLinesConcat(a, b');
    }
  }

  /** Recording one reference to `k` extends its lines by `msg`. */
  lemma AddLine(m: map<nat, string>, k: nat, msg: string, lines: seq<string>)
    requires k in m <==> |lines| > 0
    requires k in m ==> m[k] == JoinLines(lines)
    ensures k in Add(m, k, msg) && Add(m, k, msg)[k] == JoinLines(lines + [msg])
  {
    var all := lines + [msg];
    assert all[..|all| - 1] == lines;
  }

  /** `n + 1` copies are `n` copies and one more. */
  lemma RepeatMore(lines: seq<string>, x: string, n: nat)
    ensures lines + Repeat(x, n + 1) == (lines + Repeat(x, n)) + [x]
  {
    ConcatAssoc(lines, Repeat(x, n), [x]);
  }

  /** The references one message makes extend the lines recorded for `k` by
      one copy of the message per match of `k`. */
  lemma {:induction false} AddEachLines(m: map<nat, string>, ids: seq<nat>, msg: string, k: nat, lines: seq<string>)
    requires k in m <==> |lines| > 0
    requires k in m ==> m[k] == JoinLines(lines)
    ensures var all := lines + Repeat(msg, multiset(ids)[k]);
      (k in AddEach(m, ids, msg) <==> |all| > 0) &&
      (k in AddEach(m, ids, msg) ==> AddEach(m, ids, msg)[k] == JoinLines(all))
    decreases |ids|
  {
    if ids != [] {
      var p: seq<nat>, x: nat := ids[..|ids| - 1], ids[|ids| - 1];
      var c := multiset(p)[k];
      CountSnoc(ids, k);
      AddEachLines(m, p, msg, k, lines);
      if x == k {
        RepeatMore(lines, msg, c);
        AddLine(AddEach(m, p, msg), k, msg, lines + Repeat(msg, c));
      } else {
        AddOther(AddEach(m, p, msg), x, k, msg);
      }
    } else {
      assert lines + Repeat(msg, multiset(ids)[k]) == lines;
    }
  }

  /** The last element of `ids` counts once more for its own value. */
  lemma CountSnoc(ids: seq<nat>, k: nat)
    requires ids != []
    ensures multiset(ids)[k] == multiset(ids[..|ids| - 1])[k] + (if ids[|ids| - 1] == k then 1 else 0)
  {
    assert ids == ids[..|ids| - 1] + [ids[|ids| - 1]];
  }

  /** Recording a reference to `x` leaves every other issue's text alone. */
  lemma AddOther(m: map<nat, string>, x: nat, k: nat, msg: string)
    requires x != k
    ensures k in Add(m, x, msg) <==> k in m
    ensures k in m ==> Add(m, x, msg)[k] == m[k]
  {
  }

  /** `getIssueRefs` maps each issue to the messages that mention it, joined
      by newlines in change-set order with one copy per match, and maps no
      other issue. */
  lemma {:induction false} IssueTextsLines(msgs: seq<string>, k: nat)
    ensures k in IssueTexts(msgs) <==> |Mentions(msgs, k)| > 0
    ensures k in IssueTexts(msgs) ==> IssueTexts(msgs)[k] == JoinLines(Mentions(msgs, k))
  {
    if msgs != [] {
      var n := |msgs| - 1;
      IssueTextsLines(msgs[..n], k);
      AddEachLines(IssueTexts(msgs[..n]), Refs(msgs[n]), msgs[n], k, Mentions(msgs[..n], k));
    }
  }

  /** An issue is mentioned iff one of the messages references it. */
  lemma {:induction false} MentionsNonEmpty(msgs: seq<string>, k: nat)
    ensures |Mentions(msgs, k)| > 0 <==> Referenced(msgs, k)
  {
    if msgs != [] {
      MentionsNonEmpty(msgs[..|msgs| - 1], k);
      ReferencedSnoc(msgs, k);
    }
  }

  /** The keys of `getIssueRefs` are exactly the issues some message
      references; the map is empty when no message contains a match. */
  lemma IssueTextsKeys(msgs: seq<string>, k: nat)
    ensures k in IssueTexts(msgs) <==> Referenced(msgs, k)
  {
    IssueTextsLines(msgs, k);
    MentionsNonEmpty(msgs, k);
  }

  /** One more message adds its copies at the end. */
  lemma MentionsSnoc(msgs: seq<string>, msg: string, k: nat)
    ensures Mentions(msgs + [msg], k) == Mentions(msgs, k) + Repeat(msg, multiset(Refs(msg))[k])
  {
    assert (msgs + [msg])[..|msgs|] == msgs;
  }

  lemma {:induction false} MentionsConcat(a: seq<string>, b: seq<string>, k: nat)
    ensures Mentions(a + b, k) == Mentions(a, k) + Mentions(b, k)
    decreases |b|
  {
    if b == [] {
      assert a + b == a;
    } else {
      var p, x := b[..|b| - 1], b[|b| - 1];
      var r := Repeat(x, multiset(Refs(x))[k]);
      assert Mentions(a + b, k) == Mentions(a + p, k) + r by {
        assert a + b == (a + p) + [x];
        MentionsSnoc(a + p, x, k);
      }
      assert Mentions(b, k) == Mentions(p, k) + r by {
        assert b == p + [x];
        MentionsSnoc(p, x, k);
      }
      MentionsConcat(a, p, k);
      ConcatAssoc(Mentions(a, k), Mentions(p, k), r);
    }
  }

  lemma MergeTextsAt(a: seq<string>, b: seq<string>, k: nat)
    ensures var m := Merge(IssueTexts(a), IssueTexts(b));
      (k in m <==> k in IssueTexts(a + b)) && (k in m ==> m[k] == IssueTexts(a + b)[k])
  {
    var ta, tb, tab := IssueTexts(a), IssueTexts(b), IssueTexts(a + b);
    var ma, mb := Mentions(a, k), Mentions(b, k);
    IssueTextsLines(a, k);
    IssueTextsLines(b, k);
    IssueTextsLines(a + b, k);
    MentionsConcat(a, b, k);
    assert Mentions(a + b, k) == ma + mb;
    if k in ta && k in tb {
      JoinLinesConcat(ma, mb);
      assert tab[k] == ta[k] + "\n" + tb[k];
    } else if k in ta {
      assert mb == [] && ma + mb == ma;
    } else if k in tb {
      assert ma == [] && ma + mb == mb;
    }
  }

  /** Folding a later run's map into an earlier run's map gives the map of
      the two runs' messages read one after the other. */
  lemma MergeTexts(a: seq<string>, b: seq<string>)
    ensures Merge(IssueTexts(a), IssueTexts(b)) == IssueTexts(a + b)
  {
    var m, tab := Merge(IssueTexts(a), IssueTexts(b)), IssueTexts(a + b);
    forall k | true
      ensures k in m <==> k in tab
      ensures k in m ==> m[k] == tab[k]
    {
      MergeTextsAt(a, b, k);
    }
  }

  /** Absorbing one more entry of a build's map into the prior map is
      recording that build's text for the entry's issue. */
  lemma MergeStep(acc: map<nat, string>, refs: map<nat, string>, done: set<nat>, k: nat)
    requires k in refs && k !in done
    ensures Merge(acc, Restrict(refs, done + {k})) == Add(Merge(acc, Restrict(refs, done)), k, refs[k])
  {
  }

  // ---------------------------------------------------------------------
  // The classification

  /** The issues the build's own commits reference. */
  function SuccessfulIssues(build: Build): set<nat>
  {
    IssueTexts(Messages(build)).Keys
  }

  /** The issues referenced only by the unsuccessful builds since the last
      success: a direct reference in the build itself wins. */
  function CorrectedIssues(build: Build, earlier: seq<Build>): set<nat>
  {
    IssueTexts(AllMessages(Streak([build] + earlier))).Keys - SuccessfulIssues(build)
  }

  /** The comment text: terse, or detailed with the issue's accumulated
      commit messages after a colon and a newline. */
  function Format(kind: string, server: string, build: Build, detail: Option<string>): string
  {
    var terse := kind + " [" + server + "/" + build.url + " " + build.fullDisplayName + "]";
    if detail.Some? then terse + ":\n" + detail.value else terse
  }

  /** The detailed comment extends the terse one, and the accumulated text
      can be read back from it after the two-character separator. */
  lemma DetailRecoverable(kind: string, server: string, build: Build, text: string)
    ensures var terse, detailed := Format(kind, server, build, None), Format(kind, server, build, Some(text));
      terse <= detailed && detailed[|terse| + 2..] == text
  {
  }

  /** Both forms start with the comment kind. */
  lemma FormatKind(isCorrected: bool, server: string, build: Build, detail: Option<string>)
    ensures (CorrectedKind <= Format(KindFor(isCorrected), server, build, detail)) == isCorrected
    ensures (SuccessfulKind <= Format(KindFor(isCorrected), server, build, detail)) == !isCorrected
  {
    var kind := KindFor(isCorrected);
    var m := Format(kind, server, build, detail);
    assert m[..|kind|] == kind;
    KindsDiffer(isCorrected, m);
  }

  // ---------------------------------------------------------------------
  // getIssueRefs

  /** The body of `getIssueRefs` for one change message: every match of the
      message, in order, recorded in `refs` under its parsed issue number. */
  method RecordMatches(refs: map<nat, string>, message: string) returns (r: Result<map<nat, string>>)
    ensures r.Ok? <==> Fits([message])
    ensures r.Ok? ==> r.value == AddEach(refs, Refs(message), message)
    ensures r.Err? ==> r.error == NumberFormat
  {
    var referencedIssues := refs;
    ghost var done: seq<nat> := [];
    var p := 0;
    while true
      invariant p <= |message|
      invariant Refs(message) == done + RefsFrom(message, p)
      invariant referencedIssues == AddEach(refs, done, message)
      invariant forall k | k in done :: k <= MaxInt
      decreases |message| - p
    {
      var found, start, end := Find(message, p);
      if !found {
        break;
      }
      var issue := ParseInt(message[start..end]);
      if issue.Err? {
        assert !Fits([message]) by {
          assert Value(message[start..end]) in Refs([message][0]);
        }
        return Err(NumberFormat);
      }
      var k := issue.value;
      ghost var before := referencedIssues;
      if k !in referencedIssues {
        referencedIssues := referencedIssues[k := message];
      } else {
        referencedIssues := referencedIssues[k := referencedIssues[k] + "\n" + message];
      }
      assert referencedIssues == AddEach(refs, done + [k], message) by {
        assert referencedIssues == Add(before, k, message);
        assert (done + [k])[..|done|] == done;
      }
      assert Refs(message) == (done + [k]) + RefsFrom(message, end) by {
        ConcatAssoc(done, [k], RefsFrom(message, end));
      }
      done := done + [k];
      p := end;
    }
    assert Refs(message) == done;
    return Ok(referencedIssues);
  }

  /** `getIssueRefs(build)`: scans every change message of the build with
      `matcher.find()` and records each match under its parsed issue number.
      A digit run above `Integer.MAX_VALUE` makes `Integer.parseInt` throw,
      and the exception leaves the method. */
  method GetIssueRefs(b: Build) returns (r: Result<map<nat, string>>)
    ensures r.Ok? <==> Fits(Messages(b))
    ensures r.Ok? ==> r.value == IssueTexts(Messages(b))
    ensures r.Err? ==> r.error == NumberFormat
  {
    ghost var msgs := Messages(b);
    var referencedIssues: map<nat, string> := map[];
    for c := 0 to |b.changes|
      invariant referencedIssues == IssueTexts(msgs[..c])
      invariant Fits(msgs[..c])
    {
      var message := b.changes[c].msg;
      assert message == msgs[c];
      assert msgs[..c + 1] == msgs[..c] + [message];
      FitsAppend(msgs[..c], [message]);
      var next := RecordMatches(referencedIssues, message);
      if next.Err? {
        FitsAppend(msgs[..c + 1], msgs[c + 1..]);
        assert msgs == msgs[..c + 1] + msgs[c + 1..];
        return Err(NumberFormat);
      }
      referencedIssues := next.value;
    }
    assert msgs[..|b.changes|] == msgs;
    return Ok(referencedIssues);
  }

  // ---------------------------------------------------------------------
  // The updater

  /** A line the updater writes to the build log. */
  datatype LogLine =
    | Summary(count: nat, server: Option<string>, user: Option<string>)
    | JenkinsUrlMissing
    | RpcUrlMissing
    | Updating(issue: nat, corrected: bool, buildName: string)

  /** `TracIssueUpdater`: one instance serves one finished build. `build` is
      the finished build and `earlier` the chain of its predecessors; the run
      fills `priorIssueRefs` and `issueRefs`, and its visible effects are the
      build log, the error log and the `ticket.update` calls made. */
  class TracIssueUpdater {
    const build: Build
    const earlier: seq<Build>
    const buildServerAddress: Option<string>
    const rpcAddress: Option<string>
    const username: Option<string>
    const password: Option<string>
    const useDetailedComments: bool

    var priorIssueRefs: map<nat, string>
    var issueRefs: map<nat, string>
    var buildLog: seq<LogLine>
    var severeLog: seq<nat>
    var ticketUpdates: seq<TicketUpdate>

    /** Nothing has been collected or reported yet. */
    ghost predicate Unused()
      reads this
    {
      priorIssueRefs == map[] && issueRefs == map[] &&
      buildLog == [] && severeLog == [] && ticketUpdates == []
    }

    /** `rootUrl` is what the Jenkins instance reports as its root URL. */
    constructor (build: Build, earlier: seq<Build>, rootUrl: Option<string>, rpcAddress: Option<string>,
                 username: Option<string>, password: Option<string>, useDetailedComments: bool)
      ensures this.build == build && this.earlier == earlier
      ensures buildServerAddress == rootUrl && this.rpcAddress == rpcAddress
      ensures this.username == username && this.password == password
      ensures this.useDetailedComments == useDetailedComments
      ensures Unused()
    {
      this.build := build;
      this.earlier := earlier;
      buildServerAddress := rootUrl;
      this.rpcAddress := rpcAddress;
      this.username := username;
      this.password := password;
      this.useDetailedComments := useDetailedComments;
      priorIssueRefs := map[];
      issueRefs := map[];
      buildLog := [];
      severeLog := [];
      ticketUpdates := [];
    }

    /** The texts `createMessage` reads: the prior builds' for a corrected
        issue, this build's for a successful one. */
    function Texts(isCorrected: bool): map<nat, string>
      reads this`priorIssueRefs, this`issueRefs
    {
      if isCorrected then priorIssueRefs else issueRefs
    }

    /** A comment for the issue can be formed from `texts`: the Jenkins URL
        is known and, for detailed comments, the issue has a text. */
    predicate CanDescribe(issue: nat, texts: map<nat, string>)
    {
      buildServerAddress.Some? && (useDetailedComments ==> issue in texts)
    }

    /** `createMessage`: the comment for an issue, given the texts of its
        kind; detailed comments carry the issue's accumulated text. */
    function CreateMessage(issue: nat, isCorrected: bool, texts: map<nat, string>): string
      requires CanDescribe(issue, texts)
    {
      var detail := if useDetailedComments then Some(texts[issue]) else None;
      Format(KindFor(isCorrected), buildServerAddress.value, build, detail)
    }

    /** The `ticket.update` call made for an issue. */
    function Ticket(issue: nat, isCorrected: bool, texts: map<nat, string>, tracker: Tracker): TicketUpdate
      requires CanDescribe(issue, texts)
    {
      TicketUpdate(issue, CreateMessage(issue, isCorrected, texts), issue !in tracker.rejected)
    }

    /** The calls made for issues dispatched in the given order. */
    function Tickets(order: seq<nat>, isCorrected: bool, texts: map<nat, string>, tracker: Tracker): seq<TicketUpdate>
      requires forall i | i in order :: CanDescribe(i, texts)
    {
      if order == [] then []
      else Tickets(order[..|order| - 1], isCorrected, texts, tracker) + [Ticket(order[|order| - 1], isCorrected, texts, tracker)]
    }

    /** Dispatching one more issue adds its call at the end. */
    lemma TicketsSnoc(order: seq<nat>, issue: nat, isCorrected: bool, texts: map<nat, string>, tracker: Tracker)
      requires forall i | i in order :: CanDescribe(i, texts)
      requires CanDescribe(issue, texts)
      ensures Tickets(order + [issue], isCorrected, texts, tracker) ==
        Tickets(order, isCorrected, texts, tracker) + [Ticket(issue, isCorrected, texts, tracker)]
      ensures Rejected(Tickets(order + [issue], isCorrected, texts, tracker)) ==
        Rejected(Tickets(order, isCorrected, texts, tracker)) + (if issue in tracker.rejected then [issue] else [])
    {
      assert (order + [issue])[..|order|] == order;
      RejectedSnoc(Tickets(order, isCorrected, texts, tracker), Ticket(issue, isCorrected, texts, tracker));
    }

    /** The build-log lines announcing issues dispatched in the given order. */
    function Announce(order: seq<nat>, isCorrected: bool): seq<LogLine>
    {
      if order == [] then []
      else Announce(order[..|order| - 1], isCorrected) + [Updating(order[|order| - 1], isCorrected, build.displayName)]
    }

    /** The loop over `priorRefs.entrySet()`: folds one build's map into
        `priorIssueRefs`, in whatever order the entries come. */
    method AbsorbPriorRefs(priorRefs: map<nat, string>)
      modifies this`priorIssueRefs
      ensures priorIssueRefs == Merge(old(priorIssueRefs), priorRefs)
    {
      var remaining := priorRefs.Keys;
      while remaining != {}
        invariant remaining <= priorRefs.Keys
        invariant priorIssueRefs == Merge(old(priorIssueRefs), Restrict(priorRefs, priorRefs.Keys - remaining))
        decreases remaining
      {
        var k :| k in remaining;
        MergeStep(old(priorIssueRefs), priorRefs, priorRefs.Keys - remaining, k);
        assert priorRefs.Keys - (remaining - {k}) == (priorRefs.Keys - remaining) + {k};
        if k !in priorIssueRefs {
          priorIssueRefs := priorIssueRefs[k := priorRefs[k]];
        } else {
          priorIssueRefs := priorIssueRefs[k := priorIssueRefs[k] + "\n" + priorRefs[k]];
        }
        remaining := remaining - {k};
      }
      assert Restrict(priorRefs, priorRefs.Keys) == priorRefs;
    }

    /** `updateIssue`: build the client, where `new URL(rpcAddress)` may
        throw, then call `ticket.update` with the comment `createMessage`
        forms; the tracker may refuse the call with an XmlRpcException. */
    method UpdateIssue(issue: nat, isCorrected: bool, tracker: Tracker) returns (exit: Exit)
      requires rpcAddress.Some? && CanDescribe(issue, Texts(isCorrected))
      modifies this`ticketUpdates
      ensures exit == (if !tracker.urlParses then Thrown(MalformedUrl)
                       else if issue in tracker.rejected then Thrown(XmlRpc) else Normal)
      ensures ticketUpdates == old(ticketUpdates) +
        (if tracker.urlParses then [Ticket(issue, isCorrected, Texts(isCorrected), tracker)] else [])
    {
      if !tracker.urlParses {
        return Thrown(MalformedUrl);
      }
      var message := CreateMessage(issue, isCorrected, Texts(isCorrected));
      var accepted := issue !in tracker.rejected;
      ticketUpdates := ticketUpdates + [TicketUpdate(issue, message, accepted)];
      if !accepted {
        return Thrown(XmlRpc);
      }
      return Normal;
    }

    /** `updateSuccessfulIssue` (`isCorrected` false) and
        `updateCorrectedIssue` (true): announce the issue in the build log,
        call `updateIssue`, and log a refused call at SEVERE level instead of
        letting its XmlRpcException escape. */
    method UpdateReferencedIssue(issue: nat, isCorrected: bool, tracker: Tracker) returns (exit: Exit)
      requires rpcAddress.Some? && CanDescribe(issue, Texts(isCorrected))
      modifies this`buildLog, this`severeLog, this`ticketUpdates
      ensures exit == (if tracker.urlParses then Normal else Thrown(MalformedUrl))
      ensures buildLog == old(buildLog) + [Updating(issue, isCorrected, build.displayName)]
      ensures ticketUpdates == old(ticketUpdates) + (if exit.Normal? then [Ticket(issue, isCorrected, Texts(isCorrected), tracker)] else [])
      ensures severeLog == old(severeLog) + (if exit.Normal? && issue in tracker.rejected then [issue] else [])
    {
      buildLog := buildLog + [Updating(issue, isCorrected, build.displayName)];
      exit := UpdateIssue(issue, isCorrected, tracker);
      if exit == Thrown(XmlRpc) {
        severeLog := severeLog + [issue];
        exit := Normal;
      }
    }

    /** One iteration of a dispatch loop: the effects so far are those of
        the issues in `order`, and afterwards those of `order + [issue]`. */
    method UpdateNext(issue: nat, ghost order: seq<nat>, isCorrected: bool, ghost texts: map<nat, string>, tracker: Tracker,
                      ghost log0: seq<LogLine>, ghost updates0: seq<TicketUpdate>, ghost severe0: seq<nat>)
      returns (exit: Exit)
      requires texts == Texts(isCorrected)
      requires rpcAddress.Some? && CanDescribe(issue, texts)
      requires forall i | i in order :: CanDescribe(i, texts)
      requires order != [] ==> tracker.urlParses
      requires buildLog == log0 + Announce(order, isCorrected)
      requires ticketUpdates == updates0 + Tickets(order, isCorrected, texts, tracker)
      requires severeLog == severe0 + Rejected(Tickets(order, isCorrected, texts, tracker))
      modifies this`buildLog, this`severeLog, this`ticketUpdates
      ensures exit == (if tracker.urlParses then Normal else Thrown(MalformedUrl))
      ensures exit.Normal? ==> buildLog == log0 + Announce(order + [issue], isCorrected)
      ensures exit.Normal? ==> ticketUpdates == updates0 + Tickets(order + [issue], isCorrected, texts, tracker)
      ensures exit.Normal? ==> severeLog == severe0 + Rejected(Tickets(order + [issue], isCorrected, texts, tracker))
      ensures exit.Thrown? ==> buildLog == log0 + Announce([issue], isCorrected)
      ensures exit.Thrown? ==> ticketUpdates == updates0 && severeLog == severe0
    {
      assert (order + [issue])[..|order|] == order;
      exit := UpdateReferencedIssue(issue, isCorrected, tracker);
      if exit.Normal? {
        TicketsSnoc(order, issue, isCorrected, texts, tracker);
        var t := Ticket(issue, isCorrected, texts, tracker);
        ConcatAssoc(log0, Announce(order, isCorrected), [Updating(issue, isCorrected, build.displayName)]);
        ConcatAssoc(updates0, Tickets(order, isCorrected, texts, tracker), [t]);
        ConcatAssoc(severe0, Rejected(Tickets(order, isCorrected, texts, tracker)), if issue in tracker.rejected then [issue] else []);
      } else {
        assert order == [];
      }
    }

    /** One of the two `for` loops of `updateIssues`: every issue of the set
        is dispatched once, in the set's iteration order, until a
        MalformedURLException escapes. */
    method UpdateEach(issues: set<nat>, isCorrected: bool, ghost texts: map<nat, string>, tracker: Tracker)
      returns (exit: Exit, ghost order: seq<nat>)
      requires texts == Texts(isCorrected)
      requires issues != {} ==> rpcAddress.Some?
      requires forall i | i in issues :: CanDescribe(i, texts)
      modifies this`buildLog, this`severeLog, this`ticketUpdates
      ensures exit == (if tracker.urlParses || issues == {} then Normal else Thrown(MalformedUrl))
      ensures forall i | i in order :: i in issues
      ensures buildLog == old(buildLog) + Announce(order, isCorrected)
      ensures exit.Normal? ==> multiset(order) == multiset(issues)
      ensures exit.Normal? ==> ticketUpdates == old(ticketUpdates) + Tickets(order, isCorrected, texts, tracker)
      ensures exit.Normal? ==> severeLog == old(severeLog) + Rejected(Tickets(order, isCorrected, texts, tracker))
      ensures exit.Thrown? ==> |order| == 1 && ticketUpdates == old(ticketUpdates) && severeLog == old(severeLog)
    {
      order := [];
      exit := Normal;
      var remaining := issues;
      while remaining != {}
        invariant remaining <= issues
        invariant multiset(order) + multiset(remaining) == multiset(issues)
        invariant forall i | i in order :: i in issues
        invariant order != [] ==> tracker.urlParses
        invariant exit == Normal
        invariant buildLog == old(buildLog) + Announce(order, isCorrected)
        invariant ticketUpdates == old(ticketUpdates) + Tickets(order, isCorrected, texts, tracker)
        invariant severeLog == old(severeLog) + Rejected(Tickets(order, isCorrected, texts, tracker))
        decreases remaining
      {
        var issue :| issue in remaining;
        exit := UpdateNext(issue, order, isCorrected, texts, tracker, old(buildLog), old(ticketUpdates), old(severeLog));
        if exit.Thrown? {
          order := [issue];
          return;
        }
        TakeOne(order, remaining, issues, issue);
        order := order + [issue];
        remaining := remaining - {issue};
      }
      assert multiset(remaining) == multiset{};
      EnumerationEmpty(order, issues);
    }

    /** The `while` loop of `updateIssues`: from the predecessor of the build,
        fold the references of each build that did not succeed into
        `priorIssueRefs`, stopping at the first SUCCESS build or at the start
        of history. */
    method WalkPriorBuilds() returns (exit: Exit)
      requires priorIssueRefs == map[]
      modifies this`priorIssueRefs
      ensures exit == (if Fits(AllMessages(Streak([build] + earlier))) then Normal else Thrown(NumberFormat))
      ensures exit.Normal? ==> priorIssueRefs == IssueTexts(AllMessages(Streak([build] + earlier)))
    {
      var i := 0;
      while i < |earlier| && earlier[i].result != Success
        invariant 0 <= i <= |earlier|
        invariant forall j | 0 <= j < i :: earlier[j].result != Success
        invariant priorIssueRefs == IssueTexts(AllMessages(earlier[..i]))
        invariant Fits(AllMessages(earlier[..i]))
      {
        var priorRefs := GetIssueRefs(earlier[i]);
        if priorRefs.Err? {
          WalkFails(build, earlier, i);
          return Thrown(NumberFormat);
        }
        AbsorbPriorRefs(priorRefs.value);
        MergeTexts(AllMessages(earlier[..i]), Messages(earlier[i]));
        FitsAppend(AllMessages(earlier[..i]), Messages(earlier[i]));
        assert earlier[..i + 1][..i] == earlier[..i];
        i := i + 1;
      }
      WalkStops(build, earlier, i);
      return Normal;
    }

    /** The two `for` loops of `updateIssues`: the successful issues, then
        the corrected ones; a MalformedURLException from the first update
        ends both. */
    method UpdateAll(successfulIssues: set<nat>, correctedIssues: set<nat>, tracker: Tracker)
      returns (exit: Exit, ghost successOrder: seq<nat>, ghost correctedOrder: seq<nat>)
      requires successfulIssues == issueRefs.Keys
      requires correctedIssues == priorIssueRefs.Keys - successfulIssues
      requires successfulIssues + correctedIssues != {} ==> buildServerAddress.Some? && rpcAddress.Some?
      modifies this`buildLog, this`severeLog, this`ticketUpdates
      ensures forall i | i in successOrder :: i in successfulIssues
      ensures forall i | i in correctedOrder :: i in correctedIssues
      ensures buildLog == old(buildLog) + Announce(successOrder, false) + Announce(correctedOrder, true)
      ensures exit == (if tracker.urlParses || successfulIssues + correctedIssues == {} then Normal else Thrown(MalformedUrl))
      ensures exit.Thrown? ==>
        && |successOrder| + |correctedOrder| == 1
        && (successfulIssues != {} ==> |successOrder| == 1)
        && ticketUpdates == old(ticketUpdates) && severeLog == old(severeLog)
      ensures exit.Normal? ==>
        && multiset(successOrder) == multiset(successfulIssues)
        && multiset(correctedOrder) == multiset(correctedIssues)
        && ticketUpdates == old(ticketUpdates) + Tickets(successOrder, false, issueRefs, tracker)
             + Tickets(correctedOrder, true, priorIssueRefs, tracker)
        && severeLog == old(severeLog) + Rejected(Tickets(successOrder, false, issueRefs, tracker))
             + Rejected(Tickets(correctedOrder, true, priorIssueRefs, tracker))
    {
      correctedOrder := [];
      exit, successOrder := UpdateEach(successfulIssues, false, issueRefs, tracker);
      if exit.Thrown? {
        return;
      }
      exit, correctedOrder := UpdateEach(correctedIssues, true, priorIssueRefs, tracker);
      if exit.Thrown? {
        EnumerationEmpty(successOrder, successfulIssues);
      }
    }

    /** What a successful build whose references all parse leaves behind,
        given the order each set was dispatched in. */
    ghost predicate Reported(tracker: Tracker, exit: Exit, successOrder: seq<nat>, correctedOrder: seq<nat>)
      reads this
    {
      var S := issueRefs.Keys;
      var C := priorIssueRefs.Keys - S;
      var summary := Summary(|S|, rpcAddress, username);
      if |C| + |S| == 0 then
        exit == Normal && buildLog == [] && ticketUpdates == [] && severeLog == []
      else if buildServerAddress.None? then
        exit == Normal && buildLog == [summary, JenkinsUrlMissing] && ticketUpdates == [] && severeLog == []
      else if rpcAddress.None? then
        exit == Normal && buildLog == [summary, RpcUrlMissing] && ticketUpdates == [] && severeLog == []
      else Dispatched(tracker, exit, successOrder, correctedOrder)
    }

    /** What dispatching leaves behind when there are issues and both
        addresses are configured: the count line, then one line per update
        in dispatch order; every issue is updated once, unless the first
        update throws. */
    ghost predicate Dispatched(tracker: Tracker, exit: Exit, successOrder: seq<nat>, correctedOrder: seq<nat>)
      reads this
    {
      var S := issueRefs.Keys;
      var C := priorIssueRefs.Keys - S;
      && (forall i | i in successOrder :: i in S)
      && (forall i | i in correctedOrder :: i in C)
      && buildLog == [Summary(|S|, rpcAddress, username)] + Announce(successOrder, false) + Announce(correctedOrder, true)
      && (!tracker.urlParses ==>
            && exit == Thrown(MalformedUrl)
            && |successOrder| + |correctedOrder| == 1
            && (S != {} ==> |successOrder| == 1)
            && ticketUpdates == [] && severeLog == [])
      && (tracker.urlParses ==>
            && exit == Normal
            && multiset(successOrder) == multiset(S)
            && multiset(correctedOrder) == multiset(C)
            && (forall i | i in successOrder :: CanDescribe(i, issueRefs))
            && (forall i | i in correctedOrder :: CanDescribe(i, priorIssueRefs))
            && ticketUpdates == Tickets(successOrder, false, issueRefs, tracker) + Tickets(correctedOrder, true, priorIssueRefs, tracker)
            && severeLog == Rejected(ticketUpdates))
    }

    /** Dispatch once the count is logged and both addresses are known. */
    method DispatchAll(tracker: Tracker) returns (exit: Exit, ghost successOrder: seq<nat>, ghost correctedOrder: seq<nat>)
      requires priorIssueRefs.Keys - issueRefs.Keys + issueRefs.Keys != {}
      requires buildServerAddress.Some? && rpcAddress.Some?
      requires buildLog == [Summary(|issueRefs.Keys|, rpcAddress, username)] && severeLog == [] && ticketUpdates == []
      modifies this`buildLog, this`severeLog, this`ticketUpdates
      ensures Dispatched(tracker, exit, successOrder, correctedOrder)
    {
      var successfulIssues := issueRefs.Keys;
      var correctedIssues := priorIssueRefs.Keys - successfulIssues;
      exit, successOrder, correctedOrder := UpdateAll(successfulIssues, correctedIssues, tracker);
      if exit.Normal? {
        var ts := Tickets(successOrder, false, issueRefs, tracker);
        var tc := Tickets(correctedOrder, true, priorIssueRefs, tracker);
        var rs, rc := Rejected(ts), Rejected(tc);
        assert [] + ts == ts && [] + rs == rs;
        RejectedConcat(ts, tc);
      }
    }

    /** Dispatch when no issue is referenced: both loops run over empty
        sets and leave no trace. */
    method DispatchEmpty(tracker: Tracker) returns (exit: Exit, ghost successOrder: seq<nat>, ghost correctedOrder: seq<nat>)
      requires priorIssueRefs.Keys - issueRefs.Keys + issueRefs.Keys == {}
      requires buildLog == [] && severeLog == [] && ticketUpdates == []
      modifies this`buildLog, this`severeLog, this`ticketUpdates
      ensures exit == Normal && successOrder == [] && correctedOrder == []
      ensures buildLog == [] && severeLog == [] && ticketUpdates == []
    {
      var successfulIssues := issueRefs.Keys;
      var correctedIssues := priorIssueRefs.Keys - successfulIssues;
      exit, successOrder, correctedOrder := UpdateAll(successfulIssues, correctedIssues, tracker);
      EnumerationEmpty(successOrder, successfulIssues);
      EnumerationEmpty(correctedOrder, correctedIssues);
      assert Announce([], false) == [] && Announce([], true) == [];
      assert Tickets([], false, issueRefs, tracker) == [] && Tickets([], true, priorIssueRefs, tracker) == [];
      assert Rejected([]) == [];
    }

    /** The second half of `updateIssues`, once both maps are filled:
        classify, log the count, check the two addresses, and dispatch. */
    method Dispatch(tracker: Tracker) returns (exit: Exit, ghost successOrder: seq<nat>, ghost correctedOrder: seq<nat>)
      requires buildLog == [] && severeLog == [] && ticketUpdates == []
      modifies this`buildLog, this`severeLog, this`ticketUpdates
      ensures Reported(tracker, exit, successOrder, correctedOrder)
    {
      var correctedIssues := priorIssueRefs.Keys;
      var successfulIssues := issueRefs.Keys;
      correctedIssues := correctedIssues - successfulIssues;
      if |correctedIssues| + |successfulIssues| > 0 {
        var summary := Summary(|successfulIssues|, rpcAddress, username);
        buildLog := [summary];
        if buildServerAddress.None? {
          buildLog := [summary, JenkinsUrlMissing];
          return Normal, [], [];
        }
        if rpcAddress.None? {
          buildLog := [summary, RpcUrlMissing];
          return Normal, [], [];
        }
        exit, successOrder, correctedOrder := DispatchAll(tracker);
      } else {
        exit, successOrder, correctedOrder := DispatchEmpty(tracker);
      }
    }

    /** `updateIssues`: on a successful build, walk back through the
        unsuccessful predecessors, collect the references, and comment on
        each referenced ticket once; successful issues first. */
    method UpdateIssues(tracker: Tracker) returns (exit: Exit, ghost successOrder: seq<nat>, ghost correctedOrder: seq<nat>)
      requires Unused()
      modifies this`priorIssueRefs, this`issueRefs, this`buildLog, this`severeLog, this`ticketUpdates
      ensures build.result != Success ==> exit == Normal && Unused()
      ensures build.result == Success && !Scannable(build, earlier) ==>
        exit == Thrown(NumberFormat) && buildLog == [] && severeLog == [] && ticketUpdates == []
      ensures build.result == Success && Scannable(build, earlier) ==>
        && priorIssueRefs == IssueTexts(AllMessages(Streak([build] + earlier)))
        && issueRefs == IssueTexts(Messages(build))
        && Reported(tracker, exit, successOrder, correctedOrder)
    {
      successOrder, correctedOrder := [], [];
      if build.result != Success {
        return Normal, [], [];
      }
      exit := WalkPriorBuilds();
      if exit.Thrown? {
        return;
      }
      var current := GetIssueRefs(build);
      if current.Err? {
        return Thrown(NumberFormat), [], [];
      }
      issueRefs := current.value;
      exit, successOrder, correctedOrder := Dispatch(tracker);
    }
  }
}
