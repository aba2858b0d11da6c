/** The page of src/pages/Index.tsx: which screen view, if any, is rendered for a state of the
    screen machine, and which operations each view hands to the user. */
module IndexPage {
  import opened Wrappers
  import opened Governorates
  import opened AppState

  datatype View =
    | OnboardingView
    | UploadView(governorate: GovernorateId, imagePreview: Option<string>)
    | AnalyzingView
    | ResultsView(result: AnalysisResult, governorate: GovernorateId, imagePreview: Option<string>)

  /** `Index`: the chain of screen tests; `None` is the final `return null`. */
  function Render(s: Snapshot): (v: Option<View>)
    ensures s.screen == Onboarding ==> v == Some(OnboardingView)
    ensures s.screen == Upload ==>
      (v.Some? <==> s.governorate.Some?) &&
      (v.Some? ==> v.value == UploadView(s.governorate.value, s.imagePreview))
    ensures s.screen == Analyzing ==> v == Some(AnalyzingView)
    ensures s.screen == Results ==>
      (v.Some? <==> s.analysisResult.Some? && s.governorate.Some?) &&
      (v.Some? ==> v.value == ResultsView(s.analysisResult.value, s.governorate.value, s.imagePreview))
  {
    if s.screen == Onboarding then Some(OnboardingView)
    else if s.screen == Upload && s.governorate.Some? then Some(UploadView(s.governorate.value, s.imagePreview))
    else if s.screen == Analyzing then Some(AnalyzingView)
    else if s.screen == Results && s.analysisResult.Some? && s.governorate.Some? then
      Some(ResultsView(s.analysisResult.value, s.governorate.value, s.imagePreview))
    else None
  }

  /** The view hands the operation to the user: onboarding hands `selectGovernorate`; upload
      hands `uploadImage`, `startAnalysis` and `goBack`; results hands `reset` and `goBack`;
      the analyzing view hands nothing. */
  predicate Handed(v: Option<View>, e: Event) {
    match e
    case SelectGovernorate(_) => v == Some(OnboardingView)
    case UploadImage(_) => v.Some? && v.value.UploadView?
    case StartAnalysis => v.Some? && v.value.UploadView?
    case GoBack => v.Some? && (v.value.UploadView? || v.value.ResultsView?)
    case Reset => v.Some? && v.value.ResultsView?
    case ReadCompleted(_) => false
    case AnalysisCompleted(_) => false
  }

  /** An event can happen in `s`: a user operation when the rendered view hands it, a
      completion when one is pending. */
  predicate Enabled(s: Snapshot, e: Event) {
    match e
    case ReadCompleted(_) => s.pendingReads > 0
    case AnalysisCompleted(_) => s.pendingAnalyses > 0
    case _ => Handed(Render(s), e)
  }

  /** Every event of the sequence is enabled in the state it happens in. */
  predicate Admissible(s: Snapshot, events: seq<Event>)
    decreases |events|
  {
    events == [] || (Enabled(s, events[0]) && Admissible(Step(s, events[0]), events[1..]))
  }

  /** What holds of every reachable state. */
  predicate Inv(s: Snapshot) {
    && (s.screen == Upload ==> s.governorate.Some?)
    && (s.screen == Analyzing ==> s.governorate.Some?)
    && (s.screen == Results ==> s.governorate.Some? && s.analysisResult.Some?)
    && s.pendingAnalyses <= 1
    && (s.screen == Analyzing <==> s.pendingAnalyses == 1)
  }

  lemma {:induction false} StepPreservesInv(s: Snapshot, e: Event)
    requires Inv(s) && Enabled(s, e)
    ensures Inv(Step(s, e))
  {
  }

  lemma {:induction false} RunPreservesInv(s: Snapshot, events: seq<Event>)
    requires Inv(s) && Admissible(s, events)
    ensures Inv(Run(s, events))
    decreases |events|
  {
    if events != [] {
      StepPreservesInv(s, events[0]);
      RunPreservesInv(Step(s, events[0]), events[1..]);
    }
  }

  /** Every state reachable from the initial state through enabled events renders a view. */
  lemma {:induction false} ReachableRenders(events: seq<Event>)
    requires Admissible(Initial, events)
    ensures Inv(Run(Initial, events))
    ensures Render(Run(Initial, events)).Some?
  {
    RunPreservesInv(Initial, events);
  }

  /** In a reachable state, the results screen is entered only from the analyzing screen, by
      the analysis completion, and with that completion's result stored. */
  lemma {:induction false} ResultsOnlyThroughAnalyzing(s: Snapshot, e: Event)
    requires Inv(s) && Enabled(s, e)
    requires s.screen != Results && Step(s, e).screen == Results
    ensures s.screen == Analyzing && e.AnalysisCompleted?
    ensures Step(s, e).analysisResult == Some(e.result)
  {
    EntersResultsOnlyOnCompletion(s, e);
  }
}
