# trac-publisher, modelled in Dafny

The trac-publisher Jenkins plugin comments on Trac tickets after a
successful build. It scans the commit messages of the build's change set
for references of the form `#<digits>`. It also walks back through the
builds before it that did not succeed, up to the most recent SUCCESS build.
Then it calls the tracker's `ticket.update` once per referenced ticket. An
issue the build itself references is reported as *successful*. An issue
referenced only by the failing builds before it is reported as *corrected*.

The project models both versions of the plugin's core:

- `TracIssueUpdater` (the current version, `issue_updater.dfy`) keeps, per
  issue, the commit messages that reference it, and can quote them in the
  comment.
- `TracPublisher` (the older notifier, `publisher.dfy`) keeps a set of
  issue numbers, and quotes the build's changes whose message contains the
  issue's number.

The modules:

- `Java` holds the Java notions both versions rely on: null references as
  `Option`, `Integer.MAX_VALUE`, the exceptions, and the enumeration of a
  `HashSet`.
- `Jenkins` holds builds, change sets and the build history.
- `IssuePattern` holds the pattern `[#](\d+)` as a scanner, with
  `matcher.find()` and `Integer.parseInt`.
- `Trac` holds the `ticket.update` call, the two comment kinds and the
  tracker's answers.
- `Walk` holds the backward walk over history.
- `Agreement` proves that both versions touch the same tickets and classify
  them the same way.

A history is a finished build plus the sequence `earlier` of its
predecessors, most recent first. The tracker is an input `Tracker(urlParses,
rejected)`:

- `urlParses` says whether `new URL(rpcAddress)` accepts the configured
  address. A null address never parses.
- `rejected` lists the tickets whose `ticket.update` fails with an
  XmlRpcException.

Both plugin classes are Dafny classes. The state they update, and the
visible output, are fields that the methods reassign:

- the maps of the updater;
- the build log or logger lines;
- the `ticket.update` calls made;
- the error records.

The order in which a `HashSet` or `HashMap` is enumerated is a choice
(`:|`), so the contracts speak of the multiset of the issues dispatched.

The count line ("Updating %d Trac issue(s)") reads as the number of
tickets about to be updated. Both versions in fact log
`successfulIssues.size()`, the number of successful issues only, and the
model logs the same.

## Model

| member | source | states |
|---|---|---|
| `IssuePattern.Find` | src/main/java/jenkins/plugins/tracpublisher/TracIssueUpdater.java:182-183 | `matcher.find()` from a position reports group 1 of the next match: a `#` followed by a maximal digit run. The scanner's list of references is that match's value followed by the references after it. When nothing is found, no reference remains. |
| `IssuePattern.ParseInt` | src/main/java/jenkins/plugins/tracpublisher/TracIssueUpdater.java:184 | `Integer.parseInt` of a digit run succeeds iff its value is at most `Integer.MAX_VALUE`, and then returns that value. Otherwise it fails with NumberFormatException. |
| `IssuePattern.RefsFromMatches` | src/main/java/jenkins/plugins/tracpublisher/TracIssueUpdater.java:40 | The scanner reports a number from a position iff some `#` at or after that position is followed by a maximal digit run with that value. |
| `IssuePattern.RefsMatches` | src/main/java/jenkins/plugins/tracpublisher/TracPublisher.java:79 | A message references an issue iff it contains a match of `[#](\d+)` whose digits have that value. |
| `IssuePattern.LeadingZero` | src/main/java/jenkins/plugins/tracpublisher/TracPublisher.java:303 | A leading zero does not change the parsed value, so `#007` and `#7` name the same issue. |
| `IssuePattern.CanonicalSuffix` | src/main/java/jenkins/plugins/tracpublisher/TracPublisher.java:274 | `issue.toString()` of a parsed digit run is a suffix of that run, at most as long as the run. |
| `IssuePattern.DecimalString` | src/main/java/jenkins/plugins/tracpublisher/TracPublisher.java:241 | `Integer.toString` yields a non-empty digit string with no leading zero that parses back to the number. |
| `IssuePattern.FitsAppend` | src/main/java/jenkins/plugins/tracpublisher/TracPublisher.java:298-306 | Every reference in two runs of messages parses iff every reference in each run does. |
| `Jenkins.StopAt` | src/main/java/jenkins/plugins/tracpublisher/TracIssueUpdater.java:83-84 | The walk stops at the first SUCCESS build at or after the start, or at the end of history. No build it passes succeeded. |
| `Jenkins.StreakBounds` | src/main/java/jenkins/plugins/tracpublisher/TracIssueUpdater.java:82-95 | Every build the walk visits did not succeed. The build after the last visited one is a SUCCESS build, or history ends there. |
| `Walk.WalkFails` | src/main/java/jenkins/plugins/tracpublisher/TracIssueUpdater.java:83-85 | A reference that does not parse in a visited build means the walk's messages cannot all be parsed. |
| `Walk.StreakPrefix` | src/main/java/jenkins/plugins/tracpublisher/TracIssueUpdater.java:82-95 | When none of the first n predecessors succeeded, the walk visits at least those n builds, in the same order. |
| `Walk.WalkStops` | src/main/java/jenkins/plugins/tracpublisher/TracIssueUpdater.java:83-84 | Where the walk's loop condition fails, it has visited exactly the builds of the streak. |
| `Trac.Rejected` | src/main/java/jenkins/plugins/tracpublisher/TracIssueUpdater.java:145-146 | Each error record names a ticket whose update was refused. |
| `Trac.RejectedConcat` | src/main/java/jenkins/plugins/tracpublisher/TracIssueUpdater.java:123-127 | The error records of two runs of updates are those of the first run, then those of the second. |
| `Trac.KindsDiffer` | src/main/java/jenkins/plugins/tracpublisher/TracIssueUpdater.java:237-238 | A comment starting with one kind's prefix does not start with the other's, so a comment tells which kind it is. |
| `IssueUpdater.AddEachLines` | src/main/java/jenkins/plugins/tracpublisher/TracIssueUpdater.java:185-188 | Recording one message's matches extends issue `k`'s text by one newline-separated copy of the message per match of `k`. The first copy starts the text. |
| `IssueUpdater.IssueTextsLines` | src/main/java/jenkins/plugins/tracpublisher/TracIssueUpdater.java:175-192 | `getIssueRefs` maps an issue iff some message mentions it. The issue maps to the mentioning messages joined by newlines, in change-set order, with one copy per match. |
| `IssueUpdater.MentionsNonEmpty` | src/main/java/jenkins/plugins/tracpublisher/TracIssueUpdater.java:179-189 | An issue has mentioning messages iff one of the messages references it. |
| `IssueUpdater.IssueTextsKeys` | src/main/java/jenkins/plugins/tracpublisher/TracIssueUpdater.java:177-191 | The keys of `getIssueRefs`'s map are exactly the issues some message references. A run with no match gives the empty map. |
| `IssueUpdater.MentionsConcat` | src/main/java/jenkins/plugins/tracpublisher/TracIssueUpdater.java:179 | The mentions in two runs of messages are those of the first run, then those of the second. |
| `IssueUpdater.JoinLinesConcat` | src/main/java/jenkins/plugins/tracpublisher/TracIssueUpdater.java:91-92 | Joining two non-empty lists of lines is joining each and putting a newline between them. |
| `IssueUpdater.MergeTextsAt` | src/main/java/jenkins/plugins/tracpublisher/TracIssueUpdater.java:88-92 | For each issue, folding a later run's map into an earlier run's map agrees with the map of the two runs read in order. |
| `IssueUpdater.MergeTexts` | src/main/java/jenkins/plugins/tracpublisher/TracIssueUpdater.java:85-93 | Folding a build's map into the accumulated prior map gives the map of all the visited builds' messages, most recent build first. |
| `IssueUpdater.MergeStep` | src/main/java/jenkins/plugins/tracpublisher/TracIssueUpdater.java:88-92 | Absorbing one more entry appends that entry's text to the issue's accumulated text, or starts it. |
| `IssueUpdater.DetailRecoverable` | src/main/java/jenkins/plugins/tracpublisher/TracIssueUpdater.java:240-248 | The detailed comment extends the terse one. The accumulated commit messages can be read back after the colon and newline. |
| `IssueUpdater.FormatKind` | src/main/java/jenkins/plugins/tracpublisher/TracIssueUpdater.java:237-248 | Both comment forms start with the kind, and the kind in a comment is correct iff the issue is corrected. |
| `IssueUpdater.RecordMatches` | src/main/java/jenkins/plugins/tracpublisher/TracIssueUpdater.java:180-189 | The `find()` loop for one message fails iff some match does not parse. Otherwise it records every match, in order, into the map. |
| `IssueUpdater.GetIssueRefs` | src/main/java/jenkins/plugins/tracpublisher/TracIssueUpdater.java:175-192 | `getIssueRefs` fails with NumberFormatException iff a match in the build does not parse. Otherwise it returns exactly the accumulated texts of the build's messages. |
| `IssueUpdater.TracIssueUpdater.constructor` | src/main/java/jenkins/plugins/tracpublisher/TracIssueUpdater.java:54-67 | The configuration is stored, the Jenkins root URL becomes the build-server address, and both maps and all outputs start empty. |
| `IssueUpdater.TracIssueUpdater.AbsorbPriorRefs` | src/main/java/jenkins/plugins/tracpublisher/TracIssueUpdater.java:86-93 | The `entrySet()` loop folds a build's map into `priorIssueRefs`, whatever the entry order. |
| `IssueUpdater.TracIssueUpdater.WalkPriorBuilds` | src/main/java/jenkins/plugins/tracpublisher/TracIssueUpdater.java:82-95 | The walk throws NumberFormatException iff some visited build's reference does not parse. Otherwise `priorIssueRefs` is the map of the streak's messages. |
| `IssueUpdater.TracIssueUpdater.UpdateIssue` | src/main/java/jenkins/plugins/tracpublisher/TracIssueUpdater.java:205-220 | An unparseable address throws MalformedURLException before any call. Otherwise it makes one `ticket.update` call with `createMessage`'s comment, which throws XmlRpcException iff the tracker refuses the ticket. |
| `IssueUpdater.TracIssueUpdater.UpdateReferencedIssue` | src/main/java/jenkins/plugins/tracpublisher/TracIssueUpdater.java:139-166 | It announces the issue in the build log and updates it. A refusal becomes one SEVERE record and a normal return. Only MalformedURLException escapes. |
| `IssueUpdater.TracIssueUpdater.UpdateNext` | src/main/java/jenkins/plugins/tracpublisher/TracIssueUpdater.java:123-124 | One loop iteration extends the log, calls and error records from those of `order` to those of `order + [issue]`. On a throw, only the first announcement is left. |
| `IssueUpdater.TracIssueUpdater.UpdateEach` | src/main/java/jenkins/plugins/tracpublisher/TracIssueUpdater.java:126-127 | A `for` loop over a set dispatches every issue exactly once, in some order, and its effects are those of that order. An unparseable URL stops it after the first announcement with no call made. |
| `IssueUpdater.TracIssueUpdater.UpdateAll` | src/main/java/jenkins/plugins/tracpublisher/TracIssueUpdater.java:123-127 | The successful issues are dispatched first, then the corrected ones. A MalformedURLException from the first update ends both loops. |
| `IssueUpdater.TracIssueUpdater.DispatchEmpty` | src/main/java/jenkins/plugins/tracpublisher/TracIssueUpdater.java:109-127 | With no referenced issue, nothing is logged and no call is made. |
| `IssueUpdater.TracIssueUpdater.DispatchAll` | src/main/java/jenkins/plugins/tracpublisher/TracIssueUpdater.java:123-127 | With both addresses configured, every referenced issue gets one comment of its kind, successful issues first. Exactly the refused tickets get SEVERE records. |
| `IssueUpdater.TracIssueUpdater.Dispatch` | src/main/java/jenkins/plugins/tracpublisher/TracIssueUpdater.java:97-127 | A direct reference wins over a prior one. When there are issues, the count line is logged, and a missing Jenkins URL or RPC URL is reported in the log and stops the run. |
| `IssueUpdater.TracIssueUpdater.UpdateIssues` | src/main/java/jenkins/plugins/tracpublisher/TracIssueUpdater.java:75-129 | A build that did not succeed leaves no trace. An unparseable reference throws NumberFormatException before any output. Otherwise both maps hold the texts of the streak and of the build, and the run is reported as above. |
| `Publisher.IssueIdsAt` | src/main/java/jenkins/plugins/tracpublisher/TracPublisher.java:295-308 | An issue is in `getIssueRefs`'s set iff one of the messages references it. |
| `Publisher.IssueIdsMatches` | src/main/java/jenkins/plugins/tracpublisher/TracPublisher.java:299-305 | An issue is in the set iff some message holds a match of `[#](\d+)` whose digits have its value. |
| `Publisher.IssueIdsConcat` | src/main/java/jenkins/plugins/tracpublisher/TracPublisher.java:101 | `addAll` over successive builds gives the union of their issues. |
| `Publisher.Classified` | src/main/java/jenkins/plugins/tracpublisher/TracPublisher.java:105-108 | After `removeAll`, the successful and corrected sets are disjoint. Together they are every issue referenced by the build or by the walk. |
| `Publisher.Kept` | src/main/java/jenkins/plugins/tracpublisher/TracPublisher.java:273-274 | The filter keeps at most as many changes as there are. |
| `Publisher.KeptMembers` | src/main/java/jenkins/plugins/tracpublisher/TracPublisher.java:273-274 | A change is quoted iff it is one of the build's changes and its message contains the issue's number. |
| `Publisher.KeptConcat` | src/main/java/jenkins/plugins/tracpublisher/TracPublisher.java:273-284 | The filter keeps change-set order: filtering a run of changes is filtering its two halves. |
| `Publisher.ReferencedContains` | src/main/java/jenkins/plugins/tracpublisher/TracPublisher.java:274 | A message that references an issue contains `issue.toString()`. |
| `Publisher.AggregateCovers` | src/main/java/jenkins/plugins/tracpublisher/TracPublisher.java:270-286 | Every change whose message references the issue is quoted in the issue's aggregate comment. |
| `Publisher.SubstringOverMatch` | src/main/java/jenkins/plugins/tracpublisher/TracPublisher.java:274 | The substring test over-matches: the comment for issue 1 quotes a change that references only issue 12. |
| `Publisher.TicketKind` | src/main/java/jenkins/plugins/tracpublisher/TracPublisher.java:243-263 | The ticket text starts with the kind, and the kind in it is correct iff the issue is corrected. |
| `Publisher.TracPublisher.constructor` | src/main/java/jenkins/plugins/tracpublisher/TracPublisher.java:61-68 | The four configuration fields are stored, and all outputs start empty. |
| `Publisher.TracPublisher.AddMatches` | src/main/java/jenkins/plugins/tracpublisher/TracPublisher.java:299-305 | The `find()` loop for one message fails iff some match does not parse. Otherwise it adds exactly the message's issues to the set. |
| `Publisher.TracPublisher.GetIssueRefs` | src/main/java/jenkins/plugins/tracpublisher/TracPublisher.java:295-308 | `getIssueRefs` fails with NumberFormatException iff a match in the build does not parse. Otherwise it returns exactly the issues its messages reference. |
| `Publisher.TracPublisher.WalkPriorBuilds` | src/main/java/jenkins/plugins/tracpublisher/TracPublisher.java:97-103 | The walk fails iff a visited build's reference does not parse. Otherwise it returns the issues referenced by the streak. |
| `Publisher.TracPublisher.CreateAggregateComment` | src/main/java/jenkins/plugins/tracpublisher/TracPublisher.java:270-286 | The aggregate is the build's changes whose message contains the issue's number, in change-set order. Each is its message, then ` (Revision r)` when it has a revision, then a newline. |
| `Publisher.TracPublisher.UpdateIssue` | src/main/java/jenkins/plugins/tracpublisher/TracPublisher.java:311-324 | An unparseable or null address throws MalformedURLException before any call. Otherwise it makes one `ticket.update` call with the given text, which throws XmlRpcException iff the tracker refuses the ticket. |
| `Publisher.TracPublisher.UpdateReferencedIssue` | src/main/java/jenkins/plugins/tracpublisher/TracPublisher.java:230-268 | It logs the issue, then sends the kind followed by `createComment` of the aggregate. A refusal becomes one printed stack trace and a normal return. Only MalformedURLException escapes. |
| `Publisher.TracPublisher.UpdateNext` | src/main/java/jenkins/plugins/tracpublisher/TracPublisher.java:115-116 | One loop iteration extends the log, calls and stack traces from those of `order` to those of `order + [issue]`. On a throw, only the first log line is left. |
| `Publisher.TracPublisher.UpdateEach` | src/main/java/jenkins/plugins/tracpublisher/TracPublisher.java:118-119 | A `for` loop over a set dispatches every issue exactly once, in some order, and its effects are those of that order. An unusable URL stops it after the first log line with no call made. |
| `Publisher.TracPublisher.UpdateAll` | src/main/java/jenkins/plugins/tracpublisher/TracPublisher.java:115-119 | The successful issues are dispatched first, then the corrected ones. A MalformedURLException from the first update ends both loops. |
| `Publisher.TracPublisher.Dispatch` | src/main/java/jenkins/plugins/tracpublisher/TracPublisher.java:110-119 | The count line is logged iff there are issues. Then every issue is commented on once, or the first update throws. |
| `Publisher.TracPublisher.Perform` | src/main/java/jenkins/plugins/tracpublisher/TracPublisher.java:82-123 | A build that did not succeed returns true with no output. An unparseable reference throws NumberFormatException before any output. Otherwise the successful and corrected sets are dispatched as above, and the result is true unless MalformedURLException escapes. |
| `Agreement.SameIssues` | src/main/java/jenkins/plugins/tracpublisher/TracIssueUpdater.java:175-192 | The updater's map has as keys exactly the issues in the publisher's set for the same messages. |
| `Agreement.SameClassification` | src/main/java/jenkins/plugins/tracpublisher/TracIssueUpdater.java:97-107 | Both versions put the same issues in the successful set and the same issues in the corrected set. |

## Left out

- The XML-RPC client, the network and authentication are left out. The outcome of `new URL(rpcAddress)` and of each `ticket.update` call is an input (`Tracker`). `password` and `username` are stored but only used to authenticate, apart from `username` appearing in the count line.
- `createComment` and `getScmComments` of the older publisher are a function parameter of `Publisher.TracPublisher.Perform`. They depend on the Jenkins root URL from the running instance, the result's colour image, `Util.encode`, the SCM plugin's repository browser, authors and affected files, none of which the model can see.
- `getRevision` reads `getCommitId()` or, through reflection, a `getRevision()` method. The revision is a field `Change.revision` that may be null.
- In `TracIssueUpdater`, `Jenkins.getInstance().getRootUrl()` is the constructor argument `rootUrl`.
- The exact wording of log lines is not kept. Log lines are a datatype carrying the values formatted into them.
- `java.util.logging` and `printStackTrace` are left out. A SEVERE log record or a stack trace is the ticket number it concerns.
- `toUpperCase()` in `createAggregateComment` is left out. Upper-casing keeps ASCII digits and never turns another character into a digit, so whether a message contains an issue's digit string does not change.
- The `commitMessages` list that `perform` fills and never reads is left out, as are the descriptor, the form validation and the configuration glue.
- Java's regular-expression engine is replaced by the scanner it amounts to for `[#](\d+)`. `\d` is ASCII digits, as Java's default.
- The iteration order of `HashSet` and `HashMap` is not specified by Java and is not modelled. A run dispatches the issues in some order, and the contracts hold for every order.
- The `listener` and `PrintStream` objects are not modelled. The build log is the sequence of lines written to it.
