/** The screen state machine of src/hooks/useAppState.ts: four screens, four nullable
    fields beside the screen, and five operations. The two asynchronous steps (the FileReader load of the preview and
    the 3000 ms analysis timer) are separate completion events that the model's caller fires. */
module AppState {
  import opened Wrappers
  import opened Governorates

  datatype AppScreen = Onboarding | Upload | Analyzing | Results

  datatype Condition = Excellent | Good | Fair | Poor

  datatype ListingLink = ListingLink(title: string, price: int, url: string)

  datatype AnalysisResult = AnalysisResult(
    itemType: string,
    itemName: string,
    condition: Condition,
    conditionScore: int,
    averagePrice: int,
    lowestPrice: int,
    highestPrice: int,
    suggestedPrice: int,
    recommendation: string,
    listingLinks: seq<ListingLink>)

  /** The imported file handle; only its identity matters here. */
  datatype File = File(name: string, mimeType: string)

  /** The fixed result the analysis timer delivers. */
  const MockResult: AnalysisResult := AnalysisResult(
    "Electronics",
    "iPhone 13 Pro Max",
    Good,
    78,
    850000,
    720000,
    980000,
    830000,
    "Market conditions are favorable. Consider listing at the suggested price for a quick sale within 3-5 days.",
    [ ListingLink("iPhone 13 Pro Max 256GB", 850000, "#"),
      ListingLink("iPhone 13 Pro Max Gold", 880000, "#"),
      ListingLink("iPhone 13 Pro Max 128GB", 780000, "#") ])

  /** Prices ordered, the condition score a percentage, three listing links. */
  predicate WellFormedResult(r: AnalysisResult) {
    && r.lowestPrice <= r.suggestedPrice <= r.averagePrice <= r.highestPrice
    && 0 <= r.conditionScore <= 100
    && |r.listingLinks| == 3
  }

  lemma MockResultWellFormed()
    ensures WellFormedResult(MockResult)
  {
  }

  /** The hook's state at one instant, with the number of file reads and analysis timers that
      have been started and have not completed yet. */
  datatype Snapshot = Snapshot(
    screen: AppScreen,
    governorate: Option<GovernorateId>,
    imageFile: Option<File>,
    imagePreview: Option<string>,
    analysisResult: Option<AnalysisResult>,
    pendingReads: nat,
    pendingAnalyses: nat)

  /** The operations the hook hands out, and the two completion events. */
  datatype Event =
    | SelectGovernorate(gov: GovernorateId)
    | UploadImage(file: File)
    | ReadCompleted(dataUrl: string)
    | StartAnalysis
    | AnalysisCompleted(result: AnalysisResult)
    | Reset
    | GoBack

  const Initial: Snapshot := Snapshot(Onboarding, None, None, None, None, 0, 0)

  /** What each event does to the state. A completion with nothing pending leaves the
      counter at zero; callers only fire completions that are pending. */
  function Step(s: Snapshot, e: Event): Snapshot {
    match e
    case SelectGovernorate(gov) => s.(governorate := Some(gov), screen := Upload)
    case UploadImage(file) => s.(imageFile := Some(file), pendingReads := s.pendingReads + 1)
    case ReadCompleted(url) =>
      s.(imagePreview := Some(url), pendingReads := if s.pendingReads > 0 then s.pendingReads - 1 else 0)
    case StartAnalysis => s.(screen := Analyzing, pendingAnalyses := s.pendingAnalyses + 1)
    case AnalysisCompleted(r) =>
      s.(analysisResult := Some(r), screen := Results,
         pendingAnalyses := if s.pendingAnalyses > 0 then s.pendingAnalyses - 1 else 0)
    case Reset => Cleared(s)
    case GoBack =>
      if s.screen == Upload then s.(screen := Onboarding, governorate := None)
      else if s.screen == Results then Cleared(s)
      else s
  }

  /** What `reset` leaves: the upload screen, no image, no preview, no result. */
  function Cleared(s: Snapshot): Snapshot {
    s.(screen := Upload, imageFile := None, imagePreview := None, analysisResult := None)
  }

  /** The state after a sequence of events. */
  function Run(s: Snapshot, events: seq<Event>): Snapshot
    decreases |events|
  {
    if events == [] then s else Run(Step(s, events[0]), events[1..])
  }

  /** The only event that enters the results screen is an analysis completion, and it always
      leaves a result behind. */
  lemma EntersResultsOnlyOnCompletion(s: Snapshot, e: Event)
    requires s.screen != Results && Step(s, e).screen == Results
    ensures e.AnalysisCompleted? && Step(s, e).analysisResult == Some(e.result)
  {
  }

  /** The hook as an object: its five state fields and the two pending counters. */
  class AppState {
    var screen: AppScreen
    var governorate: Option<GovernorateId>
    var imageFile: Option<File>
    var imagePreview: Option<string>
    var analysisResult: Option<AnalysisResult>
    var pendingReads: nat
    var pendingAnalyses: nat

    function State(): Snapshot
      reads this
    {
      Snapshot(screen, governorate, imageFile, imagePreview, analysisResult, pendingReads, pendingAnalyses)
    }

    /** The initial state: onboarding, every nullable field null, nothing pending. */
    constructor ()
      ensures screen == Onboarding
      ensures governorate == None && imageFile == None && imagePreview == None && analysisResult == None
      ensures pendingReads == 0 && pendingAnalyses == 0
      ensures State() == Initial
    {
      screen := Onboarding;
      governorate := None;
      imageFile := None;
      imagePreview := None;
      analysisResult := None;
      pendingReads := 0;
      pendingAnalyses := 0;
    }

    /** `selectGovernorate`: stores the id and moves to upload, from any screen. */
    method SelectGovernorate(gov: GovernorateId)
      modifies this
      ensures governorate == Some(gov) && screen == Upload
      ensures imageFile == old(imageFile) && imagePreview == old(imagePreview)
      ensures analysisResult == old(analysisResult)
      ensures pendingReads == old(pendingReads) && pendingAnalyses == old(pendingAnalyses)
      ensures State() == Step(old(State()), Event.SelectGovernorate(gov))
    {
      governorate := Some(gov);
      screen := Upload;
    }

    /** `uploadImage`: stores the file at once and starts reading it; the preview is set only
        by `ReadCompleted`. */
    method UploadImage(file: File)
      modifies this
      ensures imageFile == Some(file) && pendingReads == old(pendingReads) + 1
      ensures screen == old(screen) && governorate == old(governorate)
      ensures imagePreview == old(imagePreview) && analysisResult == old(analysisResult)
      ensures pendingAnalyses == old(pendingAnalyses)
      ensures State() == Step(old(State()), Event.UploadImage(file))
    {
      imageFile := Some(file);
      pendingReads := pendingReads + 1;
    }

    /** `reader.onload`: the read finished with the file's data URL. */
    method ReadCompleted(dataUrl: string)
      requires pendingReads > 0
      modifies this
      ensures imagePreview == Some(dataUrl) && pendingReads == old(pendingReads) - 1
      ensures screen == old(screen) && governorate == old(governorate)
      ensures imageFile == old(imageFile) && analysisResult == old(analysisResult)
      ensures pendingAnalyses == old(pendingAnalyses)
      ensures State() == Step(old(State()), Event.ReadCompleted(dataUrl))
    {
      imagePreview := Some(dataUrl);
      pendingReads := pendingReads - 1;
    }

    /** `startAnalysis`: moves to analyzing at once and starts the timer. */
    method StartAnalysis()
      modifies this
      ensures screen == Analyzing && pendingAnalyses == old(pendingAnalyses) + 1
      ensures governorate == old(governorate) && imageFile == old(imageFile)
      ensures imagePreview == old(imagePreview) && analysisResult == old(analysisResult)
      ensures pendingReads == old(pendingReads)
      ensures State() == Step(old(State()), Event.StartAnalysis)
    {
      screen := Analyzing;
      pendingAnalyses := pendingAnalyses + 1;
    }

    /** The timer callback: stores the result, then moves to results. */
    method AnalysisCompleted(result: AnalysisResult)
      requires pendingAnalyses > 0
      modifies this
      ensures analysisResult == Some(result) && screen == Results
      ensures pendingAnalyses == old(pendingAnalyses) - 1
      ensures governorate == old(governorate) && imageFile == old(imageFile)
      ensures imagePreview == old(imagePreview) && pendingReads == old(pendingReads)
      ensures State() == Step(old(State()), Event.AnalysisCompleted(result))
    {
      analysisResult := Some(result);
      screen := Results;
      pendingAnalyses := pendingAnalyses - 1;
    }

    /** `reset`: back to upload with image, preview and result cleared; the governorate stays. */
    method Reset()
      modifies this
      ensures screen == Upload
      ensures imageFile == None && imagePreview == None && analysisResult == None
      ensures governorate == old(governorate)
      ensures pendingReads == old(pendingReads) && pendingAnalyses == old(pendingAnalyses)
      ensures State() == Step(old(State()), Event.Reset)
    {
      screen := Upload;
      imageFile := None;
      imagePreview := None;
      analysisResult := None;
    }

    /** `goBack`: depends on the screen. */
    method GoBack()
      modifies this
      ensures old(screen) == Upload ==>
        screen == Onboarding && governorate == None && imageFile == old(imageFile) &&
        imagePreview == old(imagePreview) && analysisResult == old(analysisResult)
      ensures old(screen) == Results ==>
        screen == Upload && governorate == old(governorate) &&
        imageFile == None && imagePreview == None && analysisResult == None
      ensures old(screen) == Onboarding || old(screen) == Analyzing ==> State() == old(State())
      ensures pendingReads == old(pendingReads) && pendingAnalyses == old(pendingAnalyses)
      ensures State() == Step(old(State()), Event.GoBack)
    {
      if screen == Upload {
        screen := Onboarding;
        governorate := None;
      } else if screen == Results {
        Reset();
      }
    }
  }
}
