/**
 * The analysis store (src/store/analysisStore.ts): the last analysis result,
 * a one-shot "analysis updated" flag that screens raise and the reader clears,
 * and the summary of the latest analysis for the home screen. Every setter
 * replaces one field through `set` and leaves the others as they were.
 */
module Analysis {
  import opened Wrappers
  import opened SkinTypes

  /** The summary of the latest analysis shown on the home screen. */
  datatype LatestSummary = LatestSummary(analysisId: int, skinType: string, summary: string, date: string)

  datatype AnalysisState = AnalysisState(
    result: Option<AnalysisResult>,
    analysisUpdated: bool,
    latestSummary: Option<LatestSummary>)

  /** The state a fresh store starts in. */
  const Initial: AnalysisState := AnalysisState(None, false, None)

  // The four setters, as transitions of the state value.

  function WithResult(s: AnalysisState, result: AnalysisResult): AnalysisState
  {
    s.(result := Some(result))
  }

  function Marked(s: AnalysisState): AnalysisState
  {
    s.(analysisUpdated := true)
  }

  function Cleared(s: AnalysisState): AnalysisState
  {
    s.(analysisUpdated := false)
  }

  function WithLatestSummary(s: AnalysisState, summary: Option<LatestSummary>): AnalysisState
  {
    s.(latestSummary := summary)
  }

  /** Raising and lowering the flag are each idempotent. */
  lemma FlagSettersIdempotent(s: AnalysisState)
    ensures Marked(Marked(s)) == Marked(s)
    ensures Cleared(Cleared(s)) == Cleared(s)
  {
  }

  /** A raise followed by a clear lowers the flag and changes nothing else. */
  lemma MarkThenClear(s: AnalysisState)
    ensures !Cleared(Marked(s)).analysisUpdated
    ensures Cleared(Marked(s)).result == s.result
    ensures Cleared(Marked(s)).latestSummary == s.latestSummary
    ensures !s.analysisUpdated ==> Cleared(Marked(s)) == s
  {
  }

  /** The setters touch disjoint fields, so their order does not matter. */
  lemma SettersCommute(s: AnalysisState, r: AnalysisResult, sum: Option<LatestSummary>)
    ensures Marked(WithResult(s, r)) == WithResult(Marked(s), r)
    ensures Cleared(WithResult(s, r)) == WithResult(Cleared(s), r)
    ensures WithLatestSummary(WithResult(s, r), sum) == WithResult(WithLatestSummary(s, sum), r)
    ensures Marked(WithLatestSummary(s, sum)) == WithLatestSummary(Marked(s), sum)
  {
  }

  class AnalysisStore {
    var result: Option<AnalysisResult>
    var analysisUpdated: bool
    var latestSummary: Option<LatestSummary>

    function State(): AnalysisState
      reads this
    {
      AnalysisState(result, analysisUpdated, latestSummary)
    }

    constructor ()
      ensures State() == Initial
    {
      result := None;
      analysisUpdated := false;
      latestSummary := None;
    }

    method SetResult(r: AnalysisResult)
      modifies this
      ensures result == Some(r)
      ensures analysisUpdated == old(analysisUpdated) && latestSummary == old(latestSummary)
      ensures State() == WithResult(old(State()), r)
    {
      result := Some(r);
    }

    method MarkUpdated()
      modifies this
      ensures analysisUpdated
      ensures result == old(result) && latestSummary == old(latestSummary)
      ensures State() == Marked(old(State()))
    {
      analysisUpdated := true;
    }

    method ClearUpdated()
      modifies this
      ensures !analysisUpdated
      ensures result == old(result) && latestSummary == old(latestSummary)
      ensures State() == Cleared(old(State()))
    {
      analysisUpdated := false;
    }

    /** Accepts `null` as well as a summary. */
    method SetLatestSummary(summary: Option<LatestSummary>)
      modifies this
      ensures latestSummary == summary
      ensures result == old(result) && analysisUpdated == old(analysisUpdated)
      ensures State() == WithLatestSummary(old(State()), summary)
    {
      latestSummary := summary;
    }
  }
}
