/**
 * App.tsx: the gamification reducer and the session state the handlers
 * update. Each `setState` step is one atomic method of `Session`; the
 * asynchronous gaps between them (remote replies, geolocation) are where the
 * caller supplies the outcome.
 */
module App {
  import opened Wrappers
  import opened Types
  import opened GeminiService
  import GamificationModal
  import ResultCard

  const NOVICE := "Eco Novice"
  const RANGER := "Recycling Ranger"
  const PROTECTOR := "Planet Protector"
  const LEGEND := "Eco Legend"

  const POINTS_PER_SCAN: nat := 20

  /** `INITIAL_STATS`. */
  const INITIAL_STATS := UserStats(0, NOVICE, 0, 0.0, 0.0, [])

  /** The state `handleReset` restores and the session starts from. */
  const INITIAL_STATE := AnalysisState(false, false, false, None, None, None, None, [])

  /**
   * The `updateStats` reducer: 20 points and one scan per completed scan; the
   * level is overwritten by each threshold the new points pass, and kept
   * when none is passed.
   */
  function ScanReducer(prev: UserStats): (next: UserStats)
    ensures next.points == prev.points + POINTS_PER_SCAN && next.scans == prev.scans + 1
    ensures next.badges == prev.badges
    ensures next.plasticSaved == prev.plasticSaved + 0.05 && next.co2Saved == prev.co2Saved + 0.15
    ensures next.points > 2000 ==> next.level == LEGEND
    ensures 1000 < next.points <= 2000 ==> next.level == PROTECTOR
    ensures 500 < next.points <= 1000 ==> next.level == RANGER
    ensures next.points <= 500 ==> next.level == prev.level
  {
    var newPoints := prev.points + POINTS_PER_SCAN;
    var newScans := prev.scans + 1;
    var level0 := prev.level;
    var level1 := if newPoints > 500 then RANGER else level0;
    var level2 := if newPoints > 1000 then PROTECTOR else level1;
    var newLevel := if newPoints > 2000 then LEGEND else level2;
    prev.(points := newPoints, scans := newScans, level := newLevel,
          plasticSaved := prev.plasticSaved + 0.05, co2Saved := prev.co2Saved + 0.15)
  }

  /** The tier a points total earns, reading "Eco Novice" below the first threshold. */
  function TierFor(points: nat): (tier: string)
    ensures tier in {NOVICE, RANGER, PROTECTOR, LEGEND}
    ensures TierRank(tier) == (if points > 500 then 1 else 0) + (if points > 1000 then 1 else 0)
                              + (if points > 2000 then 1 else 0)
  {
    if points > 2000 then LEGEND
    else if points > 1000 then PROTECTOR
    else if points > 500 then RANGER
    else NOVICE
  }

  /** The order of the tiers; any other label ranks lowest. */
  function TierRank(level: string): nat {
    if level == LEGEND then 3
    else if level == PROTECTOR then 2
    else if level == RANGER then 1
    else 0
  }

  /** More points never earn a lower tier. */
  lemma TierForMonotone(p: nat, q: nat)
    requires p <= q
    ensures TierRank(TierFor(p)) <= TierRank(TierFor(q))
  {
  }

  /** The stats after `n` further scans. */
  function ScansFrom(s: UserStats, n: nat): UserStats {
    if n == 0 then s else ScanReducer(ScansFrom(s, n - 1))
  }

  /** `n` scans add exactly 20·n points and n scans, and leave the badges alone. */
  lemma {:induction false} RepeatedScans(s: UserStats, n: nat)
    ensures ScansFrom(s, n).points == s.points + POINTS_PER_SCAN * n
    ensures ScansFrom(s, n).scans == s.scans + n
    ensures ScansFrom(s, n).badges == s.badges
  {
    if n > 0 {
      RepeatedScans(s, n - 1);
    }
  }

  /** A level that matches its points keeps matching after a scan. */
  lemma ReducerKeepsLevelInStep(s: UserStats)
    requires s.level == TierFor(s.points)
    ensures ScanReducer(s).level == TierFor(ScanReducer(s).points)
  {
  }

  /** From `INITIAL_STATS`, the level after any number of scans is exactly the tier of the points. */
  lemma {:induction false} LevelFromInitialIsTier(n: nat)
    ensures ScansFrom(INITIAL_STATS, n).points == POINTS_PER_SCAN * n
    ensures ScansFrom(INITIAL_STATS, n).level == TierFor(POINTS_PER_SCAN * n)
  {
    if n > 0 {
      LevelFromInitialIsTier(n - 1);
      ReducerKeepsLevelInStep(ScansFrom(INITIAL_STATS, n - 1));
    }
  }

  /** From `INITIAL_STATS`, a further scan never lowers the tier. */
  lemma LevelNeverDrops(n: nat)
    ensures TierRank(ScansFrom(INITIAL_STATS, n).level) <= TierRank(ScansFrom(INITIAL_STATS, n + 1).level)
  {
    LevelFromInitialIsTier(n);
    LevelFromInitialIsTier(n + 1);
    TierForMonotone(POINTS_PER_SCAN * n, POINTS_PER_SCAN * (n + 1));
  }

  /**
   * The guarantee rests on the level matching the points: stats whose level is
   * ahead of their points (as restored storage may hold) are moved down.
   */
  lemma LevelAheadOfPointsDrops()
    ensures ScanReducer(UserStats(580, LEGEND, 29, 0.0, 0.0, [])).level == RANGER
  {
  }

  /** The modal's 500-point bar and the tiers disagree: at 520 points the bar's next level is 1000, which is still a Ranger's total. */
  lemma BarStepsAreNotTiers()
    ensures GamificationModal.NextLevelPoints(520) == 1000
    ensures TierFor(1000) == RANGER && TierFor(520) == RANGER
  {
  }

  /** A value caught by the scan handler. */
  datatype Caught = CaughtError(message: string) | CaughtString(text: string) | CaughtOther

  const GENERIC_ERROR := "Something went wrong. Please try again."

  /** The message the scan handler shows for a caught value. */
  function ErrorMessage(e: Caught): (msg: string)
    ensures e.CaughtError? ==> msg == e.message
    ensures e.CaughtString? ==> msg == e.text
    ensures e.CaughtOther? ==> msg == GENERIC_ERROR
  {
    match e
    case CaughtError(m) => m
    case CaughtString(s) => s
    case CaughtOther => GENERIC_ERROR
  }

  /** The arguments passed to `generateIdeaImage`. */
  datatype IdeaRequest = IdeaRequest(itemName: string, ideaTitle: string, ideaDescription: string)

  /** A failed analysis always reaches the handler as an `Error`, so its own message is shown, never the generic one. */
  lemma AnalysisFailureShowsServiceMessage(reply: AnalysisReply, parse: string -> Option<WasteAnalysis>)
    requires AnalyzeWasteImage(reply, parse).Failure?
    ensures !(reply.CallThrew? && reply.thrown.ErrorObject?) ==>
              ErrorMessage(CaughtError(AnalyzeWasteImage(reply, parse).error)) != GENERIC_ERROR
    ensures AnalyzeWasteImage(reply, parse).error in
              {NO_RESPONSE_MESSAGE, PARSE_FAILURE_MESSAGE, CONNECT_FAILURE_MESSAGE}
              || (reply.CallThrew? && reply.thrown.ErrorObject?)
  {
  }

  /** An image produced by the visualisation call is always displayed by the result card. */
  lemma GeneratedImageIsDisplayed(d: InlineData, isGeneratingImage: bool)
    requires d.data.Some?
    ensures ResultCard.VisualisationPane(Some(DataUri(d)), isGeneratingImage) == ResultCard.ImagePane(DataUri(d))
  {
  }

  /** The App component's state: the scanning session and the gamification counters. */
  class Session {
    var state: AnalysisState
    var stats: UserStats

    /** Loading hides result and error; center lookup only runs for a result. */
    ghost predicate Valid()
      reads this
    {
      && (state.isLoading ==> state.result.None? && state.error.None?)
      && (state.isLoadingCenters ==> state.result.Some?)
    }

    /** Mounting: the initial state, and the stats restored from storage when a record was saved. */
    constructor (saved: Option<UserStats>)
      ensures Valid()
      ensures state == INITIAL_STATE
      ensures stats == if saved.Some? then saved.value else INITIAL_STATS
    {
      state := INITIAL_STATE;
      stats := if saved.Some? then saved.value else INITIAL_STATS;
    }

    /** `updateStats`. */
    method UpdateStats()
      modifies this
      ensures stats == ScanReducer(old(stats)) && state == old(state)
      ensures old(stats.level == TierFor(stats.points)) ==> stats.level == TierFor(stats.points)
    {
      if stats.level == TierFor(stats.points) {
        ReducerKeepsLevelInStep(stats);
      }
      stats := ScanReducer(stats);
    }

    /** The first step of `handleImageSelected`: a new scan clears everything but the preview. */
    method StartScan(previewUrl: string)
      requires Valid()
      modifies this
      ensures Valid()
      ensures state == AnalysisState(true, false, false, None, None, Some(previewUrl), None, [])
      ensures stats == old(stats)
    {
      state := state.(isLoading := true, isGeneratingImage := false, isLoadingCenters := false,
                      error := None, imagePreview := Some(previewUrl), result := None,
                      generatedIdeaImage := None, recyclingCenters := []);
    }

    /**
     * The analysis arrived: store it, count the scan once, and either ask for
     * a visualisation of the first idea or, without ideas, stop generating.
     */
    method AnalysisSucceeded(analysis: WasteAnalysis) returns (request: Option<IdeaRequest>)
      requires Valid()
      modifies this
      ensures Valid()
      ensures stats == ScanReducer(old(stats))
      ensures state == old(state).(isLoading := false, result := Some(analysis),
                                   isGeneratingImage := analysis.creativeIdeas != [])
      ensures request.Some? <==> analysis.creativeIdeas != []
      ensures request.Some? ==> request.value == IdeaRequest(analysis.itemName,
                                  analysis.creativeIdeas[0].title, analysis.creativeIdeas[0].description)
    {
      state := state.(isLoading := false, result := Some(analysis), isGeneratingImage := true);
      UpdateStats();
      if |analysis.creativeIdeas| > 0 {
        var bestIdea := analysis.creativeIdeas[0];
        request := Some(IdeaRequest(analysis.itemName, bestIdea.title, bestIdea.description));
      } else {
        state := state.(isGeneratingImage := false);
        request := None;
      }
    }

    /** The visualisation call returned (possibly no image). */
    method VisualisationCompleted(generatedImage: Option<string>)
      requires Valid()
      modifies this
      ensures Valid()
      ensures state == old(state).(generatedIdeaImage := generatedImage, isGeneratingImage := false)
      ensures stats == old(stats)
    {
      state := state.(generatedIdeaImage := generatedImage, isGeneratingImage := false);
    }

    /** The catch block: stop loading and show the extracted message; the stats are untouched. */
    method AnalysisFailed(error: Caught)
      requires Valid()
      modifies this
      ensures Valid()
      ensures state == old(state).(isLoading := false, isGeneratingImage := false, error := Some(ErrorMessage(error)))
      ensures stats == old(stats)
    {
      var errorMessage := ErrorMessage(error);
      state := state.(isLoading := false, isGeneratingImage := false, error := Some(errorMessage));
    }

    /**
     * `handleFindCenters`: without a result, or without geolocation, nothing
     * changes; otherwise centers start loading and the query for the location
     * call is returned.
     */
    method FindCenters(geolocationAvailable: bool) returns (query: Option<string>)
      requires Valid()
      modifies this
      ensures Valid()
      ensures stats == old(stats)
      ensures query.Some? <==> old(state).result.Some? && geolocationAvailable
      ensures query.None? ==> state == old(state)
      ensures query.Some? ==> (state == old(state).(isLoadingCenters := true)
                               && query.value == old(state).result.value.itemName + " recycling center")
    {
      if state.result.None? {
        return None;
      }
      if !geolocationAvailable {
        return None;
      }
      state := state.(isLoadingCenters := true);
      query := Some(state.result.value.itemName + " recycling center");
    }

    /** The position arrived and the lookup returned: replace the centers. */
    method CentersFound(places: seq<RecyclingPlace>)
      requires Valid()
      modifies this
      ensures Valid()
      ensures state == old(state).(isLoadingCenters := false, recyclingCenters := places)
      ensures stats == old(stats)
    {
      state := state.(isLoadingCenters := false, recyclingCenters := places);
    }

    /** Geolocation failed: stop loading and keep the centers. */
    method LocationFailed()
      requires Valid()
      modifies this
      ensures Valid()
      ensures state == old(state).(isLoadingCenters := false)
      ensures stats == old(stats)
    {
      state := state.(isLoadingCenters := false);
    }

    /** `handleReset`: all eight fields back to their initial values, whatever they were (so it is idempotent). */
    method Reset()
      modifies this
      ensures Valid()
      ensures state == INITIAL_STATE
      ensures stats == old(stats)
    {
      state := AnalysisState(false, false, false, None, None, None, None, []);
    }

    /**
     * The whole of `handleImageSelected`, with the two remote replies as
     * inputs and each `setState` step applied in turn: a success stores the
     * analysis, counts the scan once and ends with generation stopped; a
     * failure shows the service's message and leaves the stats alone. The
     * visualisation reply `imageReply` answers the ghost `prompt`, built from
     * the first idea; the image stored is the first one that reply carries.
     */
    method HandleImageSelected(previewUrl: string, reply: AnalysisReply,
                               parse: string -> Option<WasteAnalysis>, imageReply: ImageReply)
      returns (ghost prompt: Option<string>)
      requires Valid()
      modifies this
      ensures Valid()
      ensures !state.isLoading && !state.isGeneratingImage && !state.isLoadingCenters
      ensures state.imagePreview == Some(previewUrl) && state.recyclingCenters == []
      ensures AnalyzeWasteImage(reply, parse).Success? ==>
                && state.result == Some(AnalyzeWasteImage(reply, parse).value)
                && state.error.None?
                && stats == ScanReducer(old(stats))
                && (state.result.value.creativeIdeas == [] ==> state.generatedIdeaImage.None? && prompt.None?)
      ensures prompt.Some? ==>
                && AnalyzeWasteImage(reply, parse).Success?
                && var ideas := AnalyzeWasteImage(reply, parse).value.creativeIdeas;
                   && ideas != []
                   && prompt.value == IdeaPrompt(AnalyzeWasteImage(reply, parse).value.itemName,
                                                 ideas[0].title, ideas[0].description)
      ensures AnalyzeWasteImage(reply, parse).Success? && AnalyzeWasteImage(reply, parse).value.creativeIdeas != [] ==>
                && prompt.Some?
                && (state.generatedIdeaImage.None? <==>
                      forall i | 0 <= i < |ScannedParts(imageReply)| :: !CarriesImage(ScannedParts(imageReply)[i]))
                && (state.generatedIdeaImage.Some? ==> exists k | 0 <= k < |ScannedParts(imageReply)| ::
                      && CarriesImage(ScannedParts(imageReply)[k])
                      && (forall j | 0 <= j < k :: !CarriesImage(ScannedParts(imageReply)[j]))
                      && state.generatedIdeaImage.value == DataUri(ScannedParts(imageReply)[k].inlineData.value))
      ensures AnalyzeWasteImage(reply, parse).Failure? ==>
                && state.result.None? && state.generatedIdeaImage.None?
                && state.error == Some(AnalyzeWasteImage(reply, parse).error)
                && stats == old(stats)
    {
      prompt := None;
      StartScan(previewUrl);
      var outcome := AnalyzeWasteImage(reply, parse);
      match outcome {
        case Success(analysis) =>
          var request := AnalysisSucceeded(analysis);
          if request.Some? {
            prompt := Some(IdeaPrompt(request.value.itemName, request.value.ideaTitle, request.value.ideaDescription));
            var generatedImage := GenerateIdeaImage(imageReply);
            VisualisationCompleted(generatedImage);
          }
        case Failure(message) =>
          AnalysisFailed(CaughtError(message));
      }
    }
  }
}
