/** The older version of the plugin, `TracPublisher`: after a successful
    build it collects the set of issues the build references and the set the
    unsuccessful builds before it reference, and comments on each issue once,
    quoting the build's change messages that contain the issue's number. */
module Publisher {
  import opened Java
  import opened Jenkins
  import opened IssuePattern
  import opened Trac
  import opened Walk

  // ---------------------------------------------------------------------
  // Referenced issues: the specification of getIssueRefs

  /** The issues a message references, as a set. */
  function RefSet(msg: string): set<nat>
  {
    set k | k in Refs(msg)
  }

  /** The set `getIssueRefs` builds from a run of commit messages. */
  function IssueIds(msgs: seq<string>): set<nat>
  {
    if msgs == [] then {} else IssueIds(msgs[..|msgs| - 1]) + RefSet(msgs[|msgs| - 1])
  }

  /** An issue is in the set iff one of the messages references it. */
  lemma {:induction false} IssueIdsAt(msgs: seq<string>, k: nat)
    ensures k in IssueIds(msgs) <==> Referenced(msgs, k)
  {
    if msgs != [] {
      IssueIdsAt(msgs[..|msgs| - 1], k);
      ReferencedSnoc(msgs, k);
    }
  }

  /** `getIssueRefs` returns exactly the numbers written as `#` and a maximal
      digit run somewhere in the messages; `#007` and `#7` both give 7, and a
      run glued to a word (`abc#5`) counts. */
  lemma IssueIdsMatches(msgs: seq<string>, k: nat)
    ensures k in IssueIds(msgs) <==>
      exists j, i: nat, e: nat | 0 <= j < |msgs| :: IsMatch(msgs[j], i, e) && k == Value(msgs[j][i + 1..e])
  {
    IssueIdsAt(msgs, k);
    if k in IssueIds(msgs) {
      var j :| 0 <= j < |msgs| && k in Refs(msgs[j]);
      RefsMatches(msgs[j], k);
    }
    if exists j, i: nat, e: nat | 0 <= j < |msgs| :: IsMatch(msgs[j], i, e) && k == Value(msgs[j][i + 1..e]) {
      var j, i: nat, e: nat :| 0 <= j < |msgs| && IsMatch(msgs[j], i, e) && k == Value(msgs[j][i + 1..e]);
      RefsMatches(msgs[j], k);
    }
  }

  /** Adding the issues of a later run of messages is taking the union. */
  lemma {:induction false} IssueIdsConcat(a: seq<string>, b: seq<string>)
    ensures IssueIds(a + b) == IssueIds(a) + IssueIds(b)
    decreases |b|
  {
    if b == [] {
      assert a + b == a;
    } else {
      var n := |b| - 1;
      assert (a + b)[..|a + b| - 1] == a + b[..n];
      IssueIdsConcat(a, b[..n]);
    }
  }

  // ---------------------------------------------------------------------
  // The classification

  /** The issues the build's own commits reference. */
  function SuccessfulIssues(build: Build): set<nat>
  {
    IssueIds(Messages(build))
  }

  /** The issues referenced only by the unsuccessful builds since the last
      success; `removeAll` drops those the build references itself. */
  function CorrectedIssues(build: Build, earlier: seq<Build>): set<nat>
  {
    IssueIds(AllMessages(Streak([build] + earlier))) - SuccessfulIssues(build)
  }

  /** Each referenced issue is in exactly one of the two sets, and the two
      together are every issue referenced by the build or by the builds the
      walk visits. */
  lemma Classified(build: Build, earlier: seq<Build>)
    ensures SuccessfulIssues(build) !! CorrectedIssues(build, earlier)
    ensures SuccessfulIssues(build) + CorrectedIssues(build, earlier) ==
      IssueIds(AllMessages(Streak([build] + earlier)) + Messages(build))
  {
    IssueIdsConcat(AllMessages(Streak([build] + earlier)), Messages(build));
  }

  // ---------------------------------------------------------------------
  // The aggregate comment

  /** `String.contains`: `t` occurs in `s` as a contiguous substring. */
  predicate Contains(s: string, t: string)
  {
    exists i | 0 <= i <= |s| - |t| :: t <= s[i..]
  }

  /** The changes whose message contains `id`, in change-set order. */
  function Kept(changes: seq<Change>, id: string): (r: seq<Change>)
    ensures |r| <= |changes|
  {
    if changes == [] then []
    else
      var c := changes[|changes| - 1];
      Kept(changes[..|changes| - 1], id) + (if Contains(c.msg, id) then [c] else [])
  }

  /** One kept change in the aggregate: its message, its revision if it has
      one, and a newline. */
  function Entry(c: Change): string
  {
    c.msg + (if c.revision.Some? then " (Revision " + c.revision.value + ")" else "") + "\n"
  }

  /** The entries of a run of changes, one after the other. */
  function Entries(changes: seq<Change>): string
  {
    if changes == [] then [] else Entries(changes[..|changes| - 1]) + Entry(changes[|changes| - 1])
  }

  /** A change is kept iff it is one of the changes and its message contains
      `id`. */
  lemma {:induction false} KeptMembers(changes: seq<Change>, id: string, c: Change)
    ensures c in Kept(changes, id) <==> c in changes && Contains(c.msg, id)
  {
    if changes != [] {
      var n := |changes| - 1;
      KeptMembers(changes[..n], id, c);
      assert changes == changes[..n] + [changes[n]];
    }
  }

  /** The filter keeps change-set order: filtering a run of changes is
      filtering its two halves. */
  lemma {:induction false} KeptConcat(a: seq<Change>, b: seq<Change>, id: string)
    ensures Kept(a + b, id) == Kept(a, id) + Kept(b, id)
    decreases |b|
  {
    if b == [] {
      assert a + b == a;
    } else {
      var n := |b| - 1;
      assert (a + b)[..|a + b| - 1] == a + b[..n];
      KeptConcat(a, b[..n], id);
    }
  }

  /** A message that references issue `k` contains `Integer.toString(k)`, so
      its change is always quoted in the comment for `k`. */
  lemma ReferencedContains(msg: string, k: nat)
    requires k in Refs(msg)
    ensures Contains(msg, DecimalString(k))
  {
    RefsMatches(msg, k);
    var i: nat, e: nat :| IsMatch(msg, i, e) && k == Value(msg[i + 1..e]);
    var d := msg[i + 1..e];
    CanonicalSuffix(d);
    var t := DecimalString(k);
    var at := e - |t|;
    assert t <= msg[at..] by {
      assert d[|d| - |t|..] == msg[at..e];
      assert msg[at..][..|t|] == msg[at..e];
    }
  }

  /** Every change whose message references issue `k` is quoted in the
      aggregate comment for `k`. */
  lemma AggregateCovers(changes: seq<Change>, k: nat, c: Change)
    requires c in changes && k in Refs(c.msg)
    ensures c in Kept(changes, DecimalString(k))
  {
    ReferencedContains(c.msg, k);
    KeptMembers(changes, DecimalString(k), c);
  }

  /** The substring test over-matches: the comment for issue 1 quotes a
      message that references only issue 12. */
  lemma SubstringOverMatch()
    ensures Refs("#12") == [12]
    ensures Kept([Change("#12", None)], DecimalString(1)) == [Change("#12", None)]
  {
    var s := "#12";
    assert RunEnd(s, 3) == 3;
    assert RunEnd(s, 2) == 3;
    assert RunEnd(s, 1) == 3;
    assert s[1..3] == "12" && Value("12") == 12 by {
      assert "12"[..1] == "1";
    }
    assert DecimalString(1) == "1";
    assert "1" <= s[1..];
  }

  // ---------------------------------------------------------------------
  // The ticket text

  /** The text sent for an issue: the kind, then what `createComment`
      produces from the aggregate of the build's changes that contain the
      issue's number and from that number. `createComment` depends on the
      Jenkins instance and the SCM plugin and is therefore a parameter. */
  function TicketText(build: Build, issue: nat, isCorrected: bool, createComment: (string, string) -> string): string
  {
    var id := DecimalString(issue);
    KindFor(isCorrected) + createComment(Entries(Kept(build.changes, id)), id)
  }

  /** The `ticket.update` call made for an issue. */
  function Ticket(build: Build, issue: nat, isCorrected: bool, tracker: Tracker,
                  createComment: (string, string) -> string): TicketUpdate
  {
    TicketUpdate(issue, TicketText(build, issue, isCorrected, createComment), issue !in tracker.rejected)
  }

  /** The calls made for issues dispatched in the given order. */
  function Tickets(build: Build, order: seq<nat>, isCorrected: bool, tracker: Tracker,
                   createComment: (string, string) -> string): seq<TicketUpdate>
  {
    if order == [] then []
    else
      var last := Ticket(build, order[|order| - 1], isCorrected, tracker, createComment);
      Tickets(build, order[..|order| - 1], isCorrected, tracker, createComment) + [last]
  }

  /** The comment kinds can be told apart in the ticket text. */
  lemma TicketKind(build: Build, issue: nat, isCorrected: bool, createComment: (string, string) -> string)
    ensures (CorrectedKind <= TicketText(build, issue, isCorrected, createComment)) == isCorrected
    ensures (SuccessfulKind <= TicketText(build, issue, isCorrected, createComment)) == !isCorrected
  {
    var text := TicketText(build, issue, isCorrected, createComment);
    assert text[..|KindFor(isCorrected)|] == KindFor(isCorrected);
    KindsDiffer(isCorrected, text);
  }

  /** A line `perform` writes to the plugin's logger. */
  datatype LogLine =
    | Summary(count: nat, server: Option<string>, user: Option<string>)
    | Updating(issue: nat, corrected: bool, buildName: string)

  /** The lines announcing issues dispatched in the given order. */
  function Announce(build: Build, order: seq<nat>, isCorrected: bool): seq<LogLine>
  {
    if order == [] then []
    else Announce(build, order[..|order| - 1], isCorrected) + [Updating(order[|order| - 1], isCorrected, build.fullDisplayName)]
  }

  // ---------------------------------------------------------------------
  // The publisher

  /** `TracPublisher` with its configuration; its visible effects are the
      lines written to the logger, the `ticket.update` calls made and the
      stack traces printed for calls the tracker refused. */
  class TracPublisher {
    const buildServerAddress: Option<string>
    const rpcAddress: Option<string>
    const username: Option<string>
    const password: Option<string>

    var infoLog: seq<LogLine>
    var ticketUpdates: seq<TicketUpdate>
    var stackTraces: seq<nat>

    /** Nothing has been reported yet. */
    ghost predicate Unused()
      reads this
    {
      infoLog == [] && ticketUpdates == [] && stackTraces == []
    }

    constructor (buildServerAddress: Option<string>, rpcAddress: Option<string>,
                 username: Option<string>, password: Option<string>)
      ensures this.buildServerAddress == buildServerAddress && this.rpcAddress == rpcAddress
      ensures this.username == username && this.password == password
      ensures Unused()
    {
      this.buildServerAddress := buildServerAddress;
      this.rpcAddress := rpcAddress;
      this.username := username;
      this.password := password;
      infoLog := [];
      ticketUpdates := [];
      stackTraces := [];
    }

    /** The `find()` loop of `getIssueRefs` for one message: every match is
        parsed and added to the set. */
    method AddMatches(refs: set<nat>, message: string) returns (r: Result<set<nat>>)
      ensures r.Ok? <==> Fits([message])
      ensures r.Ok? ==> r.value == refs + RefSet(message)
      ensures r.Err? ==> r.error == NumberFormat
    {
      var referencedIssues := refs;
      ghost var done: seq<nat> := [];
      var p := 0;
      while true
        invariant p <= |message|
        invariant Refs(message) == done + RefsFrom(message, p)
        invariant referencedIssues == refs + set k | k in done
        invariant forall k | k in done :: k <= MaxInt
        decreases |message| - p
      {
        var found, start, end := Find(message, p);
        if !found {
          break;
        }
        var issue := ParseInt(message[start..end]);
        if issue.Err? {
          assert !Fits([message]) by {
            assert Value(message[start..end]) in Refs([message][0]);
          }
          return Err(NumberFormat);
        }
        referencedIssues := referencedIssues + {issue.value};
        assert referencedIssues == refs + set k | k in done + [issue.value] by {
          assert (set k | k in done + [issue.value]) == (set k | k in done) + {issue.value};
        }
        assert Refs(message) == (done + [issue.value]) + RefsFrom(message, end) by {
          ConcatAssoc(done, [issue.value], RefsFrom(message, end));
        }
        done := done + [issue.value];
        p := end;
      }
      assert Refs(message) == done;
      return Ok(referencedIssues);
    }

    /** `getIssueRefs(build)`: the set of issue numbers the build's change
        messages reference; `Integer.parseInt` throws on a number above
        `Integer.MAX_VALUE`. */
    method GetIssueRefs(b: Build) returns (r: Result<set<nat>>)
      ensures r.Ok? <==> Fits(Messages(b))
      ensures r.Ok? ==> r.value == IssueIds(Messages(b))
      ensures r.Err? ==> r.error == NumberFormat
    {
      ghost var msgs := Messages(b);
      var referencedIssues: set<nat> := {};
      for c := 0 to |b.changes|
        invariant referencedIssues == IssueIds(msgs[..c])
        invariant Fits(msgs[..c])
      {
        var message := b.changes[c].msg;
        assert message == msgs[c];
        assert msgs[..c + 1] == msgs[..c] + [message];
        FitsAppend(msgs[..c], [message]);
        var next := AddMatches(referencedIssues, message);
        if next.Err? {
          FitsAppend(msgs[..c + 1], msgs[c + 1..]);
          assert msgs == msgs[..c + 1] + msgs[c + 1..];
          return Err(NumberFormat);
        }
        referencedIssues := next.value;
      }
      assert msgs[..|b.changes|] == msgs;
      return Ok(referencedIssues);
    }

    /** The `while` loop of `perform`: the union of the issues referenced by
        each predecessor of the build, back to but excluding the most recent
        SUCCESS build. */
    method WalkPriorBuilds(build: Build, earlier: seq<Build>) returns (r: Result<set<nat>>)
      ensures r.Ok? <==> Fits(AllMessages(Streak([build] + earlier)))
      ensures r.Ok? ==> r.value == IssueIds(AllMessages(Streak([build] + earlier)))
      ensures r.Err? ==> r.error == NumberFormat
    {
      var correctedIssues: set<nat> := {};
      var i := 0;
      while i < |earlier| && earlier[i].result != Success
        invariant 0 <= i <= |earlier|
        invariant forall j | 0 <= j < i :: earlier[j].result != Success
        invariant correctedIssues == IssueIds(AllMessages(earlier[..i]))
        invariant Fits(AllMessages(earlier[..i]))
      {
        var priorRefs := GetIssueRefs(earlier[i]);
        if priorRefs.Err? {
          WalkFails(build, earlier, i);
          return Err(NumberFormat);
        }
        correctedIssues := correctedIssues + priorRefs.value;
        assert earlier[..i + 1][..i] == earlier[..i];
        IssueIdsConcat(AllMessages(earlier[..i]), Messages(earlier[i]));
        FitsAppend(AllMessages(earlier[..i]), Messages(earlier[i]));
        i := i + 1;
      }
      WalkStops(build, earlier, i);
      return Ok(correctedIssues);
    }

    /** `createAggregateComment`: the build's changes whose (upper-cased)
        message contains the issue's decimal number, each with its revision
        and a newline. */
    method CreateAggregateComment(build: Build, issue: nat) returns (aggregate: string)
      ensures aggregate == Entries(Kept(build.changes, DecimalString(issue)))
    {
      var id := DecimalString(issue);
      aggregate := "";
      for c := 0 to |build.changes|
        invariant aggregate == Entries(Kept(build.changes[..c], id))
      {
        var e := build.changes[c];
        ghost var kept := Kept(build.changes[..c], id);
        assert build.changes[..c + 1][..c] == build.changes[..c];
        if Contains(e.msg, id) {
          ghost var before := aggregate;
          aggregate := aggregate + e.msg;
          if e.revision.Some? {
            aggregate := aggregate + " (Revision " + e.revision.value + ")";
          }
          aggregate := aggregate + "\n";
          assert aggregate == before + Entry(e);
          assert Entries(Kept(build.changes[..c + 1], id)) == Entries(kept) + Entry(e) by {
            assert Kept(build.changes[..c + 1], id) == kept + [e];
            assert (kept + [e])[..|kept|] == kept;
          }
        } else {
          assert Kept(build.changes[..c + 1], id) == kept;
        }
      }
      assert build.changes[..|build.changes|] == build.changes;
    }

    /** `updateIssue`: build the client, where `new URL(rpcAddress)` may
        throw, then call `ticket.update` with the given text; the tracker may
        refuse the call with an XmlRpcException. */
    method UpdateIssue(ticketMessage: string, issue: nat, tracker: Tracker) returns (exit: Exit)
      modifies this`ticketUpdates
      ensures exit == (if !UrlAccepted(rpcAddress, tracker) then Thrown(MalformedUrl)
                       else if issue in tracker.rejected then Thrown(XmlRpc) else Normal)
      ensures ticketUpdates == old(ticketUpdates) +
        (if UrlAccepted(rpcAddress, tracker) then [TicketUpdate(issue, ticketMessage, issue !in tracker.rejected)] else [])
    {
      if !UrlAccepted(rpcAddress, tracker) {
        return Thrown(MalformedUrl);
      }
      var accepted := issue !in tracker.rejected;
      ticketUpdates := ticketUpdates + [TicketUpdate(issue, ticketMessage, accepted)];
      if !accepted {
        return Thrown(XmlRpc);
      }
      return Normal;
    }

    /** `updateSuccessfulIssue` (`isCorrected` false) and
        `updateCorrectedIssue` (true): log the issue, build the ticket text
        from the aggregate comment, call `updateIssue`, and print the stack
        trace of a refused call instead of letting its XmlRpcException
        escape. */
    method UpdateReferencedIssue(build: Build, issue: nat, isCorrected: bool, tracker: Tracker,
                                 createComment: (string, string) -> string) returns (exit: Exit)
      modifies this`infoLog, this`ticketUpdates, this`stackTraces
      ensures exit == (if UrlAccepted(rpcAddress, tracker) then Normal else Thrown(MalformedUrl))
      ensures infoLog == old(infoLog) + [Updating(issue, isCorrected, build.fullDisplayName)]
      ensures ticketUpdates == old(ticketUpdates) +
        (if exit.Normal? then [Ticket(build, issue, isCorrected, tracker, createComment)] else [])
      ensures stackTraces == old(stackTraces) + (if exit.Normal? && issue in tracker.rejected then [issue] else [])
    {
      infoLog := infoLog + [Updating(issue, isCorrected, build.fullDisplayName)];
      var aggregate := CreateAggregateComment(build, issue);
      var comment := createComment(aggregate, DecimalString(issue));
      exit := UpdateIssue(KindFor(isCorrected) + comment, issue, tracker);
      if exit == Thrown(XmlRpc) {
        stackTraces := stackTraces + [issue];
        exit := Normal;
      }
    }

    /** Dispatching one more issue after those in `order`. */
    lemma TicketsSnoc(build: Build, order: seq<nat>, issue: nat, isCorrected: bool, tracker: Tracker,
                      createComment: (string, string) -> string)
      ensures Tickets(build, order + [issue], isCorrected, tracker, createComment) ==
        Tickets(build, order, isCorrected, tracker, createComment) + [Ticket(build, issue, isCorrected, tracker, createComment)]
      ensures Rejected(Tickets(build, order + [issue], isCorrected, tracker, createComment)) ==
        Rejected(Tickets(build, order, isCorrected, tracker, createComment)) + (if issue in tracker.rejected then [issue] else [])
      ensures Announce(build, order + [issue], isCorrected) ==
        Announce(build, order, isCorrected) + [Updating(issue, isCorrected, build.fullDisplayName)]
    {
      assert (order + [issue])[..|order|] == order;
      RejectedSnoc(Tickets(build, order, isCorrected, tracker, createComment), Ticket(build, issue, isCorrected, tracker, createComment));
    }

    /** One iteration of a dispatch loop: the effects so far are those of
        the issues in `order`, and afterwards those of `order + [issue]`. */
    method UpdateNext(build: Build, issue: nat, ghost order: seq<nat>, isCorrected: bool, tracker: Tracker,
                      createComment: (string, string) -> string,
                      ghost log0: seq<LogLine>, ghost updates0: seq<TicketUpdate>, ghost traces0: seq<nat>)
      returns (exit: Exit)
      requires order != [] ==> UrlAccepted(rpcAddress, tracker)
      requires infoLog == log0 + Announce(build, order, isCorrected)
      requires ticketUpdates == updates0 + Tickets(build, order, isCorrected, tracker, createComment)
      requires stackTraces == traces0 + Rejected(Tickets(build, order, isCorrected, tracker, createComment))
      modifies this`infoLog, this`ticketUpdates, this`stackTraces
      ensures exit == (if UrlAccepted(rpcAddress, tracker) then Normal else Thrown(MalformedUrl))
      ensures exit.Normal? ==> infoLog == log0 + Announce(build, order + [issue], isCorrected)
      ensures exit.Normal? ==> ticketUpdates == updates0 + Tickets(build, order + [issue], isCorrected, tracker, createComment)
      ensures exit.Normal? ==> stackTraces == traces0 + Rejected(Tickets(build, order + [issue], isCorrected, tracker, createComment))
      ensures exit.Thrown? ==> infoLog == log0 + Announce(build, [issue], isCorrected)
      ensures exit.Thrown? ==> ticketUpdates == updates0 && stackTraces == traces0
    {
      ghost var ts := Tickets(build, order, isCorrected, tracker, createComment);
      ghost var t := Ticket(build, issue, isCorrected, tracker, createComment);
      ghost var line := Updating(issue, isCorrected, build.fullDisplayName);
      exit := UpdateReferencedIssue(build, issue, isCorrected, tracker, createComment);
      if exit.Normal? {
        assert infoLog == log0 + Announce(build, order + [issue], isCorrected) by {
          TicketsSnoc(build, order, issue, isCorrected, tracker, createComment);
          ConcatAssoc(log0, Announce(build, order, isCorrected), [line]);
        }
        assert ticketUpdates == updates0 + Tickets(build, order + [issue], isCorrected, tracker, createComment) by {
          TicketsSnoc(build, order, issue, isCorrected, tracker, createComment);
          ConcatAssoc(updates0, ts, [t]);
        }
        assert stackTraces == traces0 + Rejected(Tickets(build, order + [issue], isCorrected, tracker, createComment)) by {
          TicketsSnoc(build, order, issue, isCorrected, tracker, createComment);
          ConcatAssoc(traces0, Rejected(ts), if issue in tracker.rejected then [issue] else []);
        }
      } else {
        assert order == [];
        assert infoLog == log0 + Announce(build, [issue], isCorrected) by {
          assert Announce(build, [], isCorrected) == [] && log0 + [] == log0;
          TicketsSnoc(build, [], issue, isCorrected, tracker, createComment);
        }
        assert ticketUpdates == updates0 && stackTraces == traces0 by {
          assert ts == [] && Rejected(ts) == [];
          assert updates0 + [] == updates0 && traces0 + [] == traces0;
        }
      }
    }

    /** One of the two `for` loops of `perform`: every issue of the set is
        dispatched once, in the set's iteration order, until a
        MalformedURLException escapes. */
    method UpdateEach(build: Build, issues: set<nat>, isCorrected: bool, tracker: Tracker,
                      createComment: (string, string) -> string)
      returns (exit: Exit, ghost order: seq<nat>)
      modifies this`infoLog, this`ticketUpdates, this`stackTraces
      ensures exit == (if UrlAccepted(rpcAddress, tracker) || issues == {} then Normal else Thrown(MalformedUrl))
      ensures forall i | i in order :: i in issues
      ensures infoLog == old(infoLog) + Announce(build, order, isCorrected)
      ensures exit.Normal? ==> multiset(order) == multiset(issues)
      ensures exit.Normal? ==> ticketUpdates == old(ticketUpdates) + Tickets(build, order, isCorrected, tracker, createComment)
      ensures exit.Normal? ==> stackTraces == old(stackTraces) + Rejected(Tickets(build, order, isCorrected, tracker, createComment))
      ensures exit.Thrown? ==> |order| == 1 && ticketUpdates == old(ticketUpdates) && stackTraces == old(stackTraces)
    {
      order := [];
      exit := Normal;
      var remaining := issues;
      while remaining != {}
        invariant remaining <= issues
        invariant multiset(order) + multiset(remaining) == multiset(issues)
        invariant forall i | i in order :: i in issues
        invariant order != [] ==> UrlAccepted(rpcAddress, tracker)
        invariant exit == Normal
        invariant infoLog == old(infoLog) + Announce(build, order, isCorrected)
        invariant ticketUpdates == old(ticketUpdates) + Tickets(build, order, isCorrected, tracker, createComment)
        invariant stackTraces == old(stackTraces) + Rejected(Tickets(build, order, isCorrected, tracker, createComment))
        decreases remaining
      {
        var issue :| issue in remaining;
        exit := UpdateNext(build, issue, order, isCorrected, tracker, createComment,
                           old(infoLog), old(ticketUpdates), old(stackTraces));
        if exit.Thrown? {
          order := [issue];
          return;
        }
        TakeOne(order, remaining, issues, issue);
        order := order + [issue];
        remaining := remaining - {issue};
      }
      assert multiset(remaining) == multiset{};
      EnumerationEmpty(order, issues);
    }

    /** The two `for` loops of `perform`: the successful issues, then the
        corrected ones; a MalformedURLException from the first update ends
        both. */
    method UpdateAll(build: Build, successfulIssues: set<nat>, correctedIssues: set<nat>, tracker: Tracker,
                     createComment: (string, string) -> string)
      returns (exit: Exit, ghost successOrder: seq<nat>, ghost correctedOrder: seq<nat>)
      modifies this`infoLog, this`ticketUpdates, this`stackTraces
      ensures forall i | i in successOrder :: i in successfulIssues
      ensures forall i | i in correctedOrder :: i in correctedIssues
      ensures infoLog == old(infoLog) + Announce(build, successOrder, false) + Announce(build, correctedOrder, true)
      ensures exit == (if UrlAccepted(rpcAddress, tracker) || successfulIssues + correctedIssues == {} then Normal else Thrown(MalformedUrl))
      ensures exit.Thrown? ==>
        && |successOrder| + |correctedOrder| == 1
        && (successfulIssues != {} ==> |successOrder| == 1)
        && ticketUpdates == old(ticketUpdates) && stackTraces == old(stackTraces)
      ensures exit.Normal? ==>
        && multiset(successOrder) == multiset(successfulIssues)
        && multiset(correctedOrder) == multiset(correctedIssues)
        && ticketUpdates == old(ticketUpdates) + Tickets(build, successOrder, false, tracker, createComment)
             + Tickets(build, correctedOrder, true, tracker, createComment)
        && stackTraces == old(stackTraces) + Rejected(Tickets(build, successOrder, false, tracker, createComment))
             + Rejected(Tickets(build, correctedOrder, true, tracker, createComment))
    {
      correctedOrder := [];
      exit, successOrder := UpdateEach(build, successfulIssues, false, tracker, createComment);
      if exit.Thrown? {
        return;
      }
      exit, correctedOrder := UpdateEach(build, correctedIssues, true, tracker, createComment);
      if exit.Thrown? {
        EnumerationEmpty(successOrder, successfulIssues);
      }
    }

    /** What `perform` leaves behind for a successful build whose references
        all parse, given the two sets and the order each set was dispatched
        in. */
    ghost predicate Published(build: Build, S: set<nat>, C: set<nat>, tracker: Tracker,
                              createComment: (string, string) -> string,
                              r: Result<bool>, successOrder: seq<nat>, correctedOrder: seq<nat>)
      reads this
    {
      && (forall i | i in successOrder :: i in S)
      && (forall i | i in correctedOrder :: i in C)
      && infoLog == (if |C| + |S| > 0 then [Summary(|S|, rpcAddress, username)] else [])
           + Announce(build, successOrder, false) + Announce(build, correctedOrder, true)
      && (UrlAccepted(rpcAddress, tracker) || S + C == {} ==>
            && r == Ok(true)
            && multiset(successOrder) == multiset(S)
            && multiset(correctedOrder) == multiset(C)
            && ticketUpdates == Tickets(build, successOrder, false, tracker, createComment)
                 + Tickets(build, correctedOrder, true, tracker, createComment)
            && stackTraces == Rejected(ticketUpdates))
      && (!(UrlAccepted(rpcAddress, tracker) || S + C == {}) ==>
            && r == Err(MalformedUrl)
            && |successOrder| + |correctedOrder| == 1
            && (S != {} ==> |successOrder| == 1)
            && ticketUpdates == [] && stackTraces == [])
    }

    /** The second half of `perform`, once the two sets are known: log the
        count if there is anything to do, then dispatch. */
    method Dispatch(build: Build, successfulIssues: set<nat>, correctedIssues: set<nat>, tracker: Tracker,
                    createComment: (string, string) -> string)
      returns (r: Result<bool>, ghost successOrder: seq<nat>, ghost correctedOrder: seq<nat>)
      requires Unused()
      modifies this`infoLog, this`ticketUpdates, this`stackTraces
      ensures Published(build, successfulIssues, correctedIssues, tracker, createComment, r, successOrder, correctedOrder)
    {
      if |correctedIssues| + |successfulIssues| > 0 {
        infoLog := infoLog + [Summary(|successfulIssues|, rpcAddress, username)];
        assert infoLog == [Summary(|successfulIssues|, rpcAddress, username)];
      }
      var exit;
      exit, successOrder, correctedOrder := UpdateAll(build, successfulIssues, correctedIssues, tracker, createComment);
      if exit.Thrown? {
        return Err(exit.error), successOrder, correctedOrder;
      }
      var ts := Tickets(build, successOrder, false, tracker, createComment);
      var tc := Tickets(build, correctedOrder, true, tracker, createComment);
      var rs, rc := Rejected(ts), Rejected(tc);
      assert [] + ts == ts && [] + rs == rs;
      RejectedConcat(ts, tc);
      r := Ok(true);
    }

    /** `perform`: on a successful build, walk back through the unsuccessful
        predecessors, classify the referenced issues and comment on each
        once, successful issues first; return true unless an exception
        escapes. */
    method Perform(build: Build, earlier: seq<Build>, tracker: Tracker, createComment: (string, string) -> string)
      returns (r: Result<bool>, ghost successOrder: seq<nat>, ghost correctedOrder: seq<nat>)
      requires Unused()
      modifies this`infoLog, this`ticketUpdates, this`stackTraces
      ensures build.result != Success ==> r == Ok(true) && Unused()
      ensures build.result == Success && !Scannable(build, earlier) ==> r == Err(NumberFormat) && Unused()
      ensures build.result == Success && Scannable(build, earlier) ==>
        Published(build, SuccessfulIssues(build), CorrectedIssues(build, earlier), tracker, createComment,
                  r, successOrder, correctedOrder)
    {
      if build.result != Success {
        return Ok(true), [], [];
      }
      var prior := WalkPriorBuilds(build, earlier);
      if prior.Err? {
        return Err(prior.error), [], [];
      }
      var correctedIssues := prior.value;
      var current := GetIssueRefs(build);
      if current.Err? {
        return Err(current.error), [], [];
      }
      var successfulIssues := current.value;
      correctedIssues := correctedIssues - successfulIssues;
      r, successOrder, correctedOrder := Dispatch(build, successfulIssues, correctedIssues, tracker, createComment);
    }
  }
}
