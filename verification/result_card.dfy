/**
 * components/ResultCard.tsx: the decisions the result view makes from its
 * props — the status badge, which sections appear, which centers are listed
 * and what the visualisation pane shows. Layout and styling beyond the
 * badge's colour classes are not modelled.
 */
module ResultCard {
  import opened Wrappers
  import opened Types

  const YES_COLOR := "text-green-600 bg-green-50 border-green-200"
  const NO_COLOR := "text-red-600 bg-red-50 border-red-200"
  const MAYBE_COLOR := "text-amber-600 bg-amber-50 border-amber-200"
  const DEFAULT_COLOR := "text-slate-600 bg-slate-50 border-slate-200"

  /** `getStatusColor`: one colour per known verdict; the default branch serves UNKNOWN. */
  function StatusColor(status: RecycleStatus): (c: string)
    ensures c == DEFAULT_COLOR <==> status == UNKNOWN
    ensures c in {YES_COLOR, NO_COLOR, MAYBE_COLOR, DEFAULT_COLOR}
  {
    match status
    case YES => YES_COLOR
    case NO => NO_COLOR
    case MAYBE => MAYBE_COLOR
    case _ => DEFAULT_COLOR
  }

  datatype Icon = CheckCircle | XCircle | AlertTriangle | HelpCircle

  /** `getStatusIcon`: the question-mark icon is the default branch, for UNKNOWN. */
  function StatusIcon(status: RecycleStatus): (i: Icon)
    ensures i == HelpCircle <==> status == UNKNOWN
  {
    match status
    case YES => CheckCircle
    case NO => XCircle
    case MAYBE => AlertTriangle
    case _ => HelpCircle
  }

  /** Distinct verdicts get distinct colours and icons. */
  lemma BadgeDistinguishesStatuses(a: RecycleStatus, b: RecycleStatus)
    requires a != b
    ensures StatusColor(a) != StatusColor(b)
    ensures StatusIcon(a) != StatusIcon(b)
  {
  }

  /** The badge text: MAYBE and UNKNOWN share "Check Local Rules". */
  function StatusLabel(status: RecycleStatus): (text: string)
    ensures text == "Recyclable" <==> status == YES
    ensures text == "Not Recyclable" <==> status == NO
    ensures text == "Check Local Rules" <==> status == MAYBE || status == UNKNOWN
  {
    assert |"Recyclable"| == 10 && |"Not Recyclable"| == 14 && |"Check Local Rules"| == 17;
    if status.YES? then "Recyclable" else if status.NO? then "Not Recyclable" else "Check Local Rules"
  }

  /** The nearby-centers section is offered for recyclable and check-locally items only. */
  function ShowsCentersSection(status: RecycleStatus): (shown: bool)
    ensures shown <==> status != NO && status != UNKNOWN
  {
    status == YES || status == MAYBE
  }

  /** `recyclingCenters.slice(0, 4)`: the first four centers at most, in order. */
  function ShownCenters(centers: seq<RecyclingPlace>): (shown: seq<RecyclingPlace>)
    ensures |shown| == if |centers| < 4 then |centers| else 4
    ensures forall k | 0 <= k < |shown| :: shown[k] == centers[k]
  {
    if |centers| <= 4 then centers else centers[..4]
  }

  /** What the square visualisation pane shows. */
  datatype Pane = ImagePane(uri: string) | SpinnerPane | UnavailablePane

  /** The image wins over the spinner, the spinner over "Visualization unavailable". */
  function VisualisationPane(generatedIdeaImage: Option<string>, isGeneratingImage: bool): (p: Pane)
    ensures p.ImagePane? <==> Truthy(generatedIdeaImage)
    ensures p.ImagePane? ==> p.uri == generatedIdeaImage.value
    ensures p == SpinnerPane <==> !Truthy(generatedIdeaImage) && isGeneratingImage
  {
    if Truthy(generatedIdeaImage) then ImagePane(generatedIdeaImage.value)
    else if isGeneratingImage then SpinnerPane
    else UnavailablePane
  }

  /** The inputs of the card (its callbacks aside). */
  datatype CardProps = CardProps(
    result: WasteAnalysis,
    imagePreview: string,
    generatedIdeaImage: Option<string>,
    isGeneratingImage: bool,
    recyclingCenters: seq<RecyclingPlace>,
    isLoadingCenters: bool)

  datatype CentersView = CentersView(showFindButton: bool, showLoading: bool, listed: seq<RecyclingPlace>)

  datatype IdeasView = IdeasView(
    ideas: seq<CreativeIdea>,
    pane: Pane,
    showGeneratedBadge: bool,
    footerLabel: string,
    caption: Option<string>)

  datatype CardView = CardView(
    statusColor: string,
    statusIcon: Icon,
    statusLabel: string,
    showAlternatives: bool,
    centers: Option<CentersView>,
    ideas: Option<IdeasView>)

  /** The card's conditional structure. */
  function RenderCard(props: CardProps): (v: CardView)
    ensures v.centers.Some? <==> ShowsCentersSection(props.result.status)
    ensures v.centers.Some? ==>
              && (v.centers.value.showFindButton <==> !props.isLoadingCenters && props.recyclingCenters == [])
              && (v.centers.value.showLoading <==> props.isLoadingCenters)
              && |v.centers.value.listed| <= 4 && |v.centers.value.listed| <= |props.recyclingCenters|
              && v.centers.value.listed == props.recyclingCenters[..|v.centers.value.listed|]
              && v.centers.value.listed == ShownCenters(props.recyclingCenters)
    ensures v.ideas.Some? <==> props.result.creativeIdeas != []
    ensures v.ideas.Some? ==>
              && v.ideas.value.ideas == props.result.creativeIdeas
              && (v.ideas.value.caption.Some? <==> !props.isGeneratingImage && Truthy(props.generatedIdeaImage))
              && (v.ideas.value.caption.Some? ==> v.ideas.value.caption.value == props.result.creativeIdeas[0].title)
              && (v.ideas.value.showGeneratedBadge <==> v.ideas.value.pane.ImagePane?)
              && v.ideas.value.pane == VisualisationPane(props.generatedIdeaImage, props.isGeneratingImage)
              && v.ideas.value.footerLabel == (if props.isGeneratingImage then "Designing..." else "AI Visualization")
    ensures v.statusColor == StatusColor(props.result.status)
    ensures v.statusIcon == StatusIcon(props.result.status)
    ensures v.statusLabel == StatusLabel(props.result.status)
    ensures v.showAlternatives <==> props.result.alternatives.Some? && props.result.alternatives.value != []
  {
    var r := props.result;
    var centers :=
      if ShowsCentersSection(r.status) then
        Some(CentersView(!props.isLoadingCenters && |props.recyclingCenters| == 0,
                         props.isLoadingCenters,
                         ShownCenters(props.recyclingCenters)))
      else None;
    var ideas :=
      if |r.creativeIdeas| > 0 then
        Some(IdeasView(
          r.creativeIdeas,
          VisualisationPane(props.generatedIdeaImage, props.isGeneratingImage),
          Truthy(props.generatedIdeaImage),
          if props.isGeneratingImage then "Designing..." else "AI Visualization",
          if !props.isGeneratingImage && Truthy(props.generatedIdeaImage) then Some(r.creativeIdeas[0].title) else None))
      else None;
    CardView(
      StatusColor(r.status),
      StatusIcon(r.status),
      StatusLabel(r.status),
      r.alternatives.Some? && |r.alternatives.value| > 0,
      centers,
      ideas)
  }
}
