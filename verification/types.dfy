/** The records shared by the service, the components and the application shell (types.ts). */
module Types {
  import opened Wrappers

  /** Recyclability verdict returned by the analysis model. */
  datatype RecycleStatus = YES | NO | MAYBE | UNKNOWN

  datatype CreativeIdea = CreativeIdea(title: string, description: string)

  /** The analysis result. `confidenceScore` is a number in the reply, kept as a real. */
  datatype WasteAnalysis = WasteAnalysis(
    itemName: string,
    status: RecycleStatus,
    category: string,
    explanation: string,
    instructions: seq<string>,
    alternatives: Option<seq<string>>,
    creativeIdeas: seq<CreativeIdea>,
    confidenceScore: real)

  /** A nearby place; `uri` and `address` may be absent. */
  datatype RecyclingPlace = RecyclingPlace(
    name: string,
    address: Option<string>,
    uri: Option<string>,
    rating: Option<real>)

  /** Gamification counters. The two impact estimates are kept as exact reals. */
  datatype UserStats = UserStats(
    points: nat,
    level: string,
    scans: nat,
    plasticSaved: real,
    co2Saved: real,
    badges: seq<string>)

  /** The eight-field view state of one scanning session. */
  datatype AnalysisState = AnalysisState(
    isLoading: bool,
    isGeneratingImage: bool,
    isLoadingCenters: bool,
    error: Option<string>,
    result: Option<WasteAnalysis>,
    imagePreview: Option<string>,
    generatedIdeaImage: Option<string>,
    recyclingCenters: seq<RecyclingPlace>)

  /** JavaScript truthiness of a `string | null` value: absent and empty are both false. */
  function Truthy(s: Option<string>): (t: bool)
    ensures t <==> s.Some? && |s.value| > 0
  {
    s.Some? && s.value != ""
  }
}
