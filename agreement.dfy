/** The two versions of the plugin agree on which tickets a build touches:
    the set `TracPublisher` collects and the key set of the map
    `TracIssueUpdater` fills are the same, and so is the split into
    successful and corrected issues. */
module Agreement {
  import opened Jenkins
  import Publisher
  import IssueUpdater

  /** The set of referenced issues is the key set of the accumulated texts. */
  lemma SameIssues(msgs: seq<string>)
    ensures Publisher.IssueIds(msgs) == IssueUpdater.IssueTexts(msgs).Keys
  {
    forall k | true
      ensures k in Publisher.IssueIds(msgs) <==> k in IssueUpdater.IssueTexts(msgs)
    {
      Publisher.IssueIdsAt(msgs, k);
      IssueUpdater.IssueTextsKeys(msgs, k);
    }
  }

  /** Both versions classify the issues of a build the same way. */
  lemma SameClassification(build: Build, earlier: seq<Build>)
    ensures Publisher.SuccessfulIssues(build) == IssueUpdater.SuccessfulIssues(build)
    ensures Publisher.CorrectedIssues(build, earlier) == IssueUpdater.CorrectedIssues(build, earlier)
  {
    SameIssues(Messages(build));
    SameIssues(AllMessages(Streak([build] + earlier)));
  }
}
