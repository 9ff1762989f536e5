/** How much of a conversation compaction keeps as recent (`compact_context` in
    `src/agent/runner.rs`). */
module CompactionBudget {
  import opened Wrappers
  import opened Conversation
  import opened Compaction
  import opened Protocol
  import opened RunLoop

  /** The recent part never takes the last 1024 tokens of the target; without a
      count of its own it gets a quarter of the window, between 4000 and 16000. */
  lemma RecentBudgetIs(s: Settings)
    requires s.window.Some?
    ensures RecentBudget(s) == 0 <==> s.target <= 1024 || s.preserve == Some(0)
    ensures RecentBudget(s) > 0 ==> RecentBudget(s) + 1024 <= s.target
    ensures s.preserve.Some? ==> RecentBudget(s) <= s.preserve.value
    ensures RecentBudget(s) + 1024 < s.target ==>
      var window := s.window.value;
      && (s.preserve.Some? ==> RecentBudget(s) == s.preserve.value)
      && (s.preserve.None? && window <= 16000 ==> RecentBudget(s) == 4000)
      && (s.preserve.None? && window >= 64000 ==> RecentBudget(s) == 16000)
      && (s.preserve.None? && 16000 <= window <= 64000 ==> 4 * RecentBudget(s) <= window < 4 * RecentBudget(s) + 4)
  {
  }

  /** What compaction keeps as recent, and 1024 tokens beside it, fit the target. */
  lemma RecentLeavesRoom(items: seq<Item>, s: Settings)
    requires IsCalibration(s.calibration) && PlanFor(items, s).CutAt?
    ensures var recent := RecentStart(items, RecentBudget(s), s.calibration);
      && recent <= |items| && PlanFor(items, s).cut <= recent
      && (recent < |items| ==> Calibrated(EstimateTokens(items[recent..]), s.calibration) + 1024 <= s.target)
  {
    RecentBudgetIs(s);
    RecentFitsJointly(items, RecentBudget(s), s.calibration);
  }

  /** What is left fits the input capacity and begins with no orphaned output;
      a note stands for what went. */
  ghost predicate CutToFit(items: seq<Item>, capacity: Option<nat>, after: seq<Item>, k: nat) {
    && k <= |items| && after == (if k == 0 then items else [TrimNote(k)] + items[k..])
    && match capacity
      case None => k == 0
      case Some(budget) => k == |items| || (!items[k].ToolOutput? && EstimateTokens(items[k..]) <= budget)
  }

  /** Where compaction fails, the conversation is trimmed. */
  ghost predicate FellBack(items: seq<Item>, capacity: Option<nat>, after: seq<Item>) {
    exists k: nat :: CutToFit(items, capacity, after, k)
  }

  lemma TrimmedFellBack(items: seq<Item>, budget: nat)
    ensures FellBack(items, Some(budget), Trimmed(items, budget))
  {
    TrimFits(items, budget);
    var rest := TrimmedRest(items, budget);
    assert CutToFit(items, Some(budget), Trimmed(items, budget), |items| - |rest|);
  }

  lemma FailureFellBack(items: seq<Item>, settings: Settings, outcome: Outcome)
    requires IsCalibration(settings.calibration) && Compacted(items, settings, outcome).Err?
    ensures FellBack(items, settings.capacity, Shrunken(items, settings, outcome))
  {
    if settings.capacity.Some? {
      TrimmedFellBack(items, settings.capacity.value);
    } else {
      assert CutToFit(items, None, items, 0);
    }
  }

  /** Every way in which a conversation is shrunk, and what is told about it. */
  lemma ShrinkingMeans(items: seq<Item>, settings: Settings, outcome: Outcome)
    requires IsCalibration(settings.calibration)
    ensures var after, sent := Shrunken(items, settings, outcome), ShrinkEvents(items, settings, outcome);
      if settings.window.None? then after == items && sent == []
      else if settings.target <= 1024 || settings.preserve == Some(0) then
        sent == [CompactionFailed(NO_ROOM)] && FellBack(items, settings.capacity, after)
      else
        var cut := CutBack(items, RecentStart(items, RecentBudget(settings), settings.calibration));
        if cut == 0 then after == items && sent == []
        else match outcome
          case Summarized(text, hidden) =>
            after == [CompactionSummary(text)] + items[cut..] && sent == [CompactionStarted, CompactionCompleted(hidden)]
          case EmptySummary =>
            && sent == [CompactionStarted, CompactionFailed("compaction returned an empty summary")]
            && FellBack(items, settings.capacity, after)
          case StreamFailed(error) =>
            sent == [CompactionStarted, CompactionFailed(error)] && FellBack(items, settings.capacity, after)
          case StorageFailed(error) =>
            sent == [CompactionStarted, CompactionFailed(error)] && FellBack(items, settings.capacity, after)
  {
    if settings.window.Some? {
      RecentBudgetIs(settings);
    }
    if Compacted(items, settings, outcome).Err? {
      FailureFellBack(items, settings, outcome);
    }
  }
}
