/**
 * The local logic of services/geminiService.ts: what the three remote calls'
 * replies are turned into. The remote model itself is not modelled; each
 * call's reply (or the exception it raised) is an input value.
 */
module GeminiService {
  import opened Wrappers
  import opened Types
  import opened Text

  // ---------------------------------------------------------------------
  // Code-fence stripping: text.replace(/```json|```/g, '').trim()
  // ---------------------------------------------------------------------

  /** Three backticks start at index `i` of `s`. */
  predicate FenceAt(s: string, i: int)
    requires 0 <= i && i + 3 <= |s|
  {
    s[i] == '`' && s[i + 1] == '`' && s[i + 2] == '`'
  }

  /** `s` begins with "```json". */
  predicate StartsWithJsonFence(s: string) {
    |s| >= 7 && FenceAt(s, 0) && s[3] == 'j' && s[4] == 's' && s[5] == 'o' && s[6] == 'n'
  }

  /** `s` begins with "```". */
  predicate StartsWithFence(s: string) {
    |s| >= 3 && FenceAt(s, 0)
  }

  /** `s` contains "```" somewhere. */
  predicate HasFence(s: string) {
    exists i | 0 <= i && i + 3 <= |s| :: FenceAt(s, i)
  }

  /**
   * The global regular-expression replacement: scanning left to right, each
   * "```json" (tried first) or else "```" is deleted and the scan resumes
   * after it; every other character is kept.
   */
  function RemoveFences(s: string): (r: string)
    ensures |r| <= |s|
    decreases |s|
  {
    if s == [] then []
    else if StartsWithJsonFence(s) then RemoveFences(s[7..])
    else if StartsWithFence(s) then RemoveFences(s[3..])
    else [s[0]] + RemoveFences(s[1..])
  }

  /** The reply text after fence removal and trimming, as handed to the JSON parser. */
  function StripFences(s: string): (r: string)
    ensures |r| <= |s|
    ensures r == [] || (!IsJsWhitespace(r[0]) && !IsJsWhitespace(r[|r| - 1]))
  {
    Trim(RemoveFences(s))
  }

  /** The removal never leaves three adjacent backticks behind. */
  lemma {:induction false} RemoveFencesLeavesNoFence(s: string)
    ensures !HasFence(RemoveFences(s))
    decreases |s|
  {
    if s == [] {
    } else if StartsWithJsonFence(s) {
      RemoveFencesLeavesNoFence(s[7..]);
    } else if StartsWithFence(s) {
      RemoveFencesLeavesNoFence(s[3..]);
    } else {
      var t := s[1..];
      var rest := RemoveFences(t);
      RemoveFencesLeavesNoFence(t);
      var r := [s[0]] + rest;
      assert RemoveFences(s) == r;
      // Only the window at index 0 is new; it is not a fence.
      if |rest| >= 2 && s[0] == '`' {
        if t[0] != '`' {
          assert rest[0] == t[0];
        } else {
          assert |t| >= 2 && t[1] != '`';
          assert !StartsWithFence(t);
          assert rest == [t[0]] + RemoveFences(t[1..]);
          assert RemoveFences(t[1..])[0] == t[1];
        }
        assert !FenceAt(r, 0);
      }
      forall i | 0 <= i && i + 3 <= |r|
        ensures !FenceAt(r, i)
      {
        if i > 0 {
          assert !FenceAt(rest, i - 1);
        }
      }
    }
  }

  /** Text without "```" passes through the removal unchanged. */
  lemma {:induction false} RemoveFencesOfFenceFree(s: string)
    requires !HasFence(s)
    ensures RemoveFences(s) == s
    decreases |s|
  {
    if s != [] {
      assert !StartsWithFence(s);
      assert !HasFence(s[1..]) by {
        forall i | 0 <= i && i + 3 <= |s[1..]|
          ensures !FenceAt(s[1..], i)
        {
          assert !FenceAt(s, i + 1);
        }
      }
      RemoveFencesOfFenceFree(s[1..]);
    }
  }

  /** A slice of fence-free text is fence-free. */
  lemma SliceOfFenceFree(s: string, i: int, j: int)
    requires 0 <= i <= j <= |s| && !HasFence(s)
    ensures !HasFence(s[i..j])
  {
    var t := s[i..j];
    forall k | 0 <= k && k + 3 <= |t|
      ensures !FenceAt(t, k)
    {
      assert !FenceAt(s, i + k);
    }
  }

  /** The stripped text never contains "```". */
  lemma StripFencesLeavesNoFence(s: string)
    ensures !HasFence(StripFences(s))
  {
    var t := RemoveFences(s);
    RemoveFencesLeavesNoFence(s);
    var i, j :| 0 <= i <= j <= |t| && Trim(t) == t[i..j];
    SliceOfFenceFree(t, i, j);
  }

  /** Stripping is idempotent. */
  lemma StripFencesIdempotent(s: string)
    ensures StripFences(StripFences(s)) == StripFences(s)
  {
    var r := StripFences(s);
    StripFencesLeavesNoFence(s);
    RemoveFencesOfFenceFree(r);
    TrimIdempotent(RemoveFences(s));
  }

  /** Backtick-free text in front of the rest is kept as it is. */
  lemma {:induction false} RemoveFencesKeepsPlainPrefix(b: string, x: string)
    requires '`' !in b
    ensures RemoveFences(b + x) == b + RemoveFences(x)
  {
    if b == [] {
      assert b + x == x;
    } else {
      var c, rest := b[0], b[1..];
      var bx := b + x;
      assert b == [c] + rest;
      assert c != '`' && '`' !in rest;
      assert bx[0] == c && bx[1..] == rest + x;
      assert !StartsWithFence(bx) && !StartsWithJsonFence(bx);
      RemoveFencesKeepsPlainPrefix(rest, x);
      assert RemoveFences(bx) == [c] + RemoveFences(rest + x);
      assert [c] + (rest + RemoveFences(x)) == b + RemoveFences(x);
    }
  }

  /** A backtick-free body wrapped in ```json ... ``` strips to the same text as the bare body. */
  lemma FencedBodyStripsLikeBody(body: string)
    requires '`' !in body
    ensures StripFences("```json" + body + "```") == Trim(body)
    ensures StripFences(body) == Trim(body)
  {
    RemoveFencesKeepsPlainPrefix(body, "```");
    RemoveFencesKeepsPlainPrefix(body, []);
    assert body + [] == body;
    assert RemoveFences("```") == [];
    var w1 := "```json" + body + "```";
    assert StartsWithJsonFence(w1) && w1[7..] == body + "```";
  }

  // ---------------------------------------------------------------------
  // analyzeWasteImage: from the reply (or the exception) to the analysis or an error message
  // ---------------------------------------------------------------------

  /** A thrown JavaScript value: an `Error` with its message, or anything else. */
  datatype Thrown = ErrorObject(message: string) | NonError

  /** What the analysis request produced: a reply whose `text` may be absent, or an exception. */
  datatype AnalysisReply = Replied(text: Option<string>) | CallThrew(thrown: Thrown)

  const NO_RESPONSE_MESSAGE := "No response text received from Gemini."
  const PARSE_FAILURE_MESSAGE := "Failed to parse recycling data. Please try again."
  const CONNECT_FAILURE_MESSAGE := "Failed to connect to AI service."

  /**
   * The analysis call after the reply arrives. `parse` stands for `JSON.parse`
   * followed by the unchecked cast: `None` where the parser throws.
   * Every failure leaves as an `Error`, whose message is the result's error.
   */
  function AnalyzeWasteImage(reply: AnalysisReply, parse: string -> Option<WasteAnalysis>): (r: Result<WasteAnalysis>)
    ensures r.Success? <==> reply.Replied? && Truthy(reply.text) && parse(StripFences(reply.text.value)).Some?
    ensures r.Success? ==> Some(r.value) == parse(StripFences(reply.text.value))
    ensures reply.Replied? && !Truthy(reply.text) ==> r == Failure(NO_RESPONSE_MESSAGE)
    ensures reply.Replied? && Truthy(reply.text) && r.Failure? ==> r.error == PARSE_FAILURE_MESSAGE
    ensures reply.CallThrew? ==> r.Failure? && r.error == (if reply.thrown.ErrorObject? then reply.thrown.message else CONNECT_FAILURE_MESSAGE)
  {
    match reply
    case CallThrew(ErrorObject(m)) => Failure(m)
    case CallThrew(NonError) => Failure(CONNECT_FAILURE_MESSAGE)
    case Replied(text) =>
      if !Truthy(text) then Failure(NO_RESPONSE_MESSAGE)
      else
        match parse(StripFences(text.value))
        case Some(data) => Success(data)
        case None => Failure(PARSE_FAILURE_MESSAGE)
  }

  /**
   * A non-empty backtick-free reply analyses the same with or without a ```json fence.
   * (An empty body differs: bare it is "no response", fenced it reaches the parser.)
   */
  lemma FencedReplyAnalysedLikeBare(body: string, parse: string -> Option<WasteAnalysis>)
    requires '`' !in body && body != ""
    ensures AnalyzeWasteImage(Replied(Some("```json" + body + "```")), parse)
         == AnalyzeWasteImage(Replied(Some(body)), parse)
  {
    FencedBodyStripsLikeBody(body);
  }

  // ---------------------------------------------------------------------
  // generateIdeaImage: the prompt and the first inline image of the reply
  // ---------------------------------------------------------------------

  const PROMPT_HEAD := "A realistic, high-quality photo of a DIY project: "
  const PROMPT_REUSED_AS := " being reused as "
  const PROMPT_SEPARATOR := ". "
  const PROMPT_TAIL := ". Bright lighting, clean composition, home decor style."

  /** The image prompt: the fixed template with the three values filled in. */
  function IdeaPrompt(itemName: string, ideaTitle: string, ideaDescription: string): (r: string)
    ensures var a := |PROMPT_HEAD|;
            var b := a + |itemName| + |PROMPT_REUSED_AS|;
            var c := b + |ideaTitle| + |PROMPT_SEPARATOR|;
            && |r| == c + |ideaDescription| + |PROMPT_TAIL|
            && r[..a] == PROMPT_HEAD
            && r[a..a + |itemName|] == itemName
            && r[a + |itemName|..b] == PROMPT_REUSED_AS
            && r[b..b + |ideaTitle|] == ideaTitle
            && r[b + |ideaTitle|..c] == PROMPT_SEPARATOR
            && r[c..c + |ideaDescription|] == ideaDescription
            && r[c + |ideaDescription|..] == PROMPT_TAIL
  {
    PROMPT_HEAD + itemName + PROMPT_REUSED_AS + ideaTitle + PROMPT_SEPARATOR + ideaDescription + PROMPT_TAIL
  }

  datatype InlineData = InlineData(mimeType: Option<string>, data: Option<string>)
  datatype Part = Part(inlineData: Option<InlineData>)
  datatype Content = Content(parts: Option<seq<Part>>)
  datatype Candidate = Candidate(content: Option<Content>)

  /** What the image request produced: a reply with optional candidates, or an exception. */
  datatype ImageReply = ImageReplied(candidates: Option<seq<Candidate>>) | ImageCallThrew

  /** `part.inlineData && part.inlineData.data`: the part carries non-empty inline data. */
  function CarriesImage(p: Part): (b: bool)
    ensures b <==> p.inlineData.Some? && p.inlineData.value.data.Some? && |p.inlineData.value.data.value| > 0
  {
    p.inlineData.Some? && Truthy(p.inlineData.value.data)
  }

  /** An absent value interpolated into a template literal reads "undefined". */
  function Interpolated(s: Option<string>): (r: string)
    ensures s.Some? ==> r == s.value
    ensures s.None? ==> r == "undefined"
  {
    if s.Some? then s.value else "undefined"
  }

  /** `data:${mimeType};base64,${data}`. */
  function DataUri(d: InlineData): (r: string)
    requires d.data.Some?
    ensures StartsWith(r, "data:") && |r| > |d.data.value|
    ensures r[|r| - |d.data.value|..] == d.data.value
  {
    "data:" + Interpolated(d.mimeType) + ";base64," + d.data.value
  }

  /** The uploader's `split(',')[1]` recovers the payload of such a URI when neither field has a comma. */
  lemma DataUriPayloadRoundTrip(d: InlineData)
    requires d.data.Some? && ',' !in d.data.value && ',' !in Interpolated(d.mimeType)
    ensures SecondField(DataUri(d)) == Some(d.data.value)
  {
    var p := "data:" + Interpolated(d.mimeType) + ";base64";
    assert DataUri(d) == p + "," + d.data.value;
    SecondFieldOfJoin(p, d.data.value);
  }

  /** The loop over the parts with its early return: the data URI of the first part carrying an image. */
  method FirstImageDataUri(parts: seq<Part>) returns (uri: Option<string>)
    ensures uri.None? <==> forall i | 0 <= i < |parts| :: !CarriesImage(parts[i])
    ensures uri.Some? ==> exists k | 0 <= k < |parts| ::
              && CarriesImage(parts[k])
              && (forall j | 0 <= j < k :: !CarriesImage(parts[j]))
              && uri.value == DataUri(parts[k].inlineData.value)
  {
    for i := 0 to |parts|
      invariant forall j | 0 <= j < i :: !CarriesImage(parts[j])
    {
      var part := parts[i];
      if part.inlineData.Some? && part.inlineData.value.data.Some? && part.inlineData.value.data.value != "" {
        return Some(DataUri(part.inlineData.value));
      }
    }
    return None;
  }

  /**
   * The parts the loop scans: those of the first candidate's content. Every
   * other shape yields none: absent candidates, content or parts give `null`
   * by the guard, and an empty candidate list makes `candidates[0].content`
   * throw, which the handler turns into `null` as well.
   */
  function ScannedParts(reply: ImageReply): (parts: seq<Part>)
    ensures reply.ImageCallThrew? ==> parts == []
    ensures parts != [] ==>
              && reply.ImageReplied? && reply.candidates.Some? && reply.candidates.value != []
              && reply.candidates.value[0].content.Some?
              && reply.candidates.value[0].content.value.parts == Some(parts)
    ensures reply.ImageReplied? && reply.candidates.Some? && reply.candidates.value != []
            && reply.candidates.value[0].content.Some? && reply.candidates.value[0].content.value.parts.Some? ==>
              parts == reply.candidates.value[0].content.value.parts.value
  {
    match reply
    case ImageCallThrew => []
    case ImageReplied(candidates) =>
      if candidates.None? || candidates.value == [] then []
      else
        var c := candidates.value[0];
        if c.content.None? || c.content.value.parts.None? then [] else c.content.value.parts.value
  }

  /** The best-effort image step: never fails, `None` when no scanned part carries an image. */
  method GenerateIdeaImage(reply: ImageReply) returns (uri: Option<string>)
    ensures reply.ImageCallThrew? ==> uri.None?
    ensures uri.None? <==> forall i | 0 <= i < |ScannedParts(reply)| :: !CarriesImage(ScannedParts(reply)[i])
    ensures uri.Some? ==> exists k | 0 <= k < |ScannedParts(reply)| ::
              && CarriesImage(ScannedParts(reply)[k])
              && (forall j | 0 <= j < k :: !CarriesImage(ScannedParts(reply)[j]))
              && uri.value == DataUri(ScannedParts(reply)[k].inlineData.value)
  {
    uri := FirstImageDataUri(ScannedParts(reply));
  }

  // ---------------------------------------------------------------------
  // findNearbyRecyclingCenters: grounding chunks to places, then dedup by uri
  // ---------------------------------------------------------------------

  datatype PlaceAnswerSource = PlaceAnswerSource(formattedAddress: Option<string>)
  datatype MapsData = MapsData(title: Option<string>, uri: Option<string>, placeAnswerSources: Option<seq<PlaceAnswerSource>>)
  datatype WebData = WebData(uri: Option<string>, title: Option<string>)
  datatype GroundingChunk = GroundingChunk(maps: Option<MapsData>, web: Option<WebData>)

  /** What the location request produced: optional grounding chunks, or an exception. */
  datatype LocationReply = LocationReplied(chunks: Option<seq<GroundingChunk>>) | LocationCallThrew

  /** `mapData && mapData.title && mapData.uri`. */
  function HasMapsPlace(c: GroundingChunk): (b: bool)
    ensures b <==> (c.maps.Some? && c.maps.value.title.Some? && |c.maps.value.title.value| > 0
                    && c.maps.value.uri.Some? && |c.maps.value.uri.value| > 0)
  {
    c.maps.Some? && Truthy(c.maps.value.title) && Truthy(c.maps.value.uri)
  }

  /** `web?.uri && web?.title`. */
  function HasWebPlace(c: GroundingChunk): (b: bool)
    ensures b <==> (c.web.Some? && c.web.value.uri.Some? && |c.web.value.uri.value| > 0
                    && c.web.value.title.Some? && |c.web.value.title.value| > 0)
  {
    c.web.Some? && Truthy(c.web.value.uri) && Truthy(c.web.value.title)
  }

  /** `placeAnswerSources?.[0]?.formattedAddress`. */
  function FirstAddress(m: MapsData): (r: Option<string>)
    ensures m.placeAnswerSources.Some? && m.placeAnswerSources.value != [] ==>
              r == m.placeAnswerSources.value[0].formattedAddress
    ensures m.placeAnswerSources.None? || m.placeAnswerSources.value == [] ==> r.None?
  {
    if m.placeAnswerSources.None? || m.placeAnswerSources.value == [] then None
    else m.placeAnswerSources.value[0].formattedAddress
  }

  /** The place one chunk contributes: maps data first, web data as fallback, else none. */
  function PlaceOf(c: GroundingChunk): (r: Option<RecyclingPlace>)
    ensures r.Some? <==> HasMapsPlace(c) || HasWebPlace(c)
    ensures r.Some? ==> r.value.name != "" && Truthy(r.value.uri) && r.value.rating.None?
    ensures HasMapsPlace(c) ==> r == Some(RecyclingPlace(c.maps.value.title.value, FirstAddress(c.maps.value), c.maps.value.uri, None))
    ensures !HasMapsPlace(c) && HasWebPlace(c) ==> r == Some(RecyclingPlace(c.web.value.title.value, None, c.web.value.uri, None))
  {
    if c.maps.Some? && Truthy(c.maps.value.title) && Truthy(c.maps.value.uri) then
      Some(RecyclingPlace(c.maps.value.title.value, FirstAddress(c.maps.value), c.maps.value.uri, None))
    else if c.web.Some? && Truthy(c.web.value.uri) && Truthy(c.web.value.title) then
      Some(RecyclingPlace(c.web.value.title.value, None, c.web.value.uri, None))
    else None
  }

  function OptionToSeq<T>(o: Option<T>): seq<T> {
    if o.Some? then [o.value] else []
  }

  /** The places the extraction loop collects, chunk by chunk. */
  function ExtractedPlaces(chunks: seq<GroundingChunk>): (places: seq<RecyclingPlace>)
    ensures |places| <= |chunks|
    decreases |chunks|
  {
    if chunks == [] then []
    else ExtractedPlaces(chunks[..|chunks| - 1]) + OptionToSeq(PlaceOf(chunks[|chunks| - 1]))
  }

  /** Extraction works chunk by chunk in order: it distributes over concatenation. */
  lemma {:induction false} ExtractedPlacesOfConcat(a: seq<GroundingChunk>, b: seq<GroundingChunk>)
    ensures ExtractedPlaces(a + b) == ExtractedPlaces(a) + ExtractedPlaces(b)
    decreases |b|
  {
    if b == [] {
      assert a + b == a;
    } else {
      var b' := b[..|b| - 1];
      assert (a + b)[..|a + b| - 1] == a + b';
      ExtractedPlacesOfConcat(a, b');
    }
  }

  /** Each chunk yields at most one place, and every place has a name and a uri. */
  lemma {:induction false} ExtractedPlacesBounded(chunks: seq<GroundingChunk>)
    ensures |ExtractedPlaces(chunks)| <= |chunks|
    ensures forall k | 0 <= k < |ExtractedPlaces(chunks)| ::
              ExtractedPlaces(chunks)[k].name != "" && Truthy(ExtractedPlaces(chunks)[k].uri)
    decreases |chunks|
  {
    if chunks != [] {
      ExtractedPlacesBounded(chunks[..|chunks| - 1]);
    }
  }

  /** The extraction loop that pushes each chunk's place onto `places`. */
  method ExtractPlaces(chunks: seq<GroundingChunk>) returns (places: seq<RecyclingPlace>)
    ensures places == ExtractedPlaces(chunks)
  {
    places := [];
    for i := 0 to |chunks|
      invariant places == ExtractedPlaces(chunks[..i])
    {
      var chunk := chunks[i];
      assert chunks[..i + 1][..i] == chunks[..i];
      if chunk.maps.Some? && Truthy(chunk.maps.value.title) && Truthy(chunk.maps.value.uri) {
        places := places + [RecyclingPlace(chunk.maps.value.title.value, FirstAddress(chunk.maps.value), chunk.maps.value.uri, None)];
      } else if chunk.web.Some? && Truthy(chunk.web.value.uri) && Truthy(chunk.web.value.title) {
        places := places + [RecyclingPlace(chunk.web.value.title.value, None, chunk.web.value.uri, None)];
      }
    }
    assert chunks[..|chunks|] == chunks;
  }

  /** `self.findIndex(t => t.uri === u)`: the first index whose uri is `u`, or -1. */
  function FindIndexByUri(s: seq<RecyclingPlace>, u: Option<string>): (r: int)
    ensures -1 <= r < |s|
    ensures r >= 0 ==> s[r].uri == u && forall j | 0 <= j < r :: s[j].uri != u
    ensures r == -1 ==> forall j | 0 <= j < |s| :: s[j].uri != u
  {
    if s == [] then -1
    else if s[0].uri == u then 0
    else
      var k := FindIndexByUri(s[1..], u);
      if k == -1 then -1 else k + 1
  }

  /** The `filter` over the first `n` places: keep index i exactly when it is the first with its uri. */
  function DedupPrefix(s: seq<RecyclingPlace>, n: nat): (r: seq<RecyclingPlace>)
    requires n <= |s|
    ensures |r| <= n
    ensures n > 0 ==> r != [] && r[0] == s[0]
  {
    if n == 0 then []
    else DedupPrefix(s, n - 1) + (if FindIndexByUri(s, s[n - 1].uri) == n - 1 then [s[n - 1]] else [])
  }

  /** `places.filter((place, index, self) => index === self.findIndex(t => t.uri === place.uri))`. */
  function DedupByUri(s: seq<RecyclingPlace>): (r: seq<RecyclingPlace>)
    ensures |r| <= |s|
    ensures s != [] ==> r != [] && r[0] == s[0]
  {
    DedupPrefix(s, |s|)
  }

  /** `a` is `b` with some elements left out, in the same order. */
  predicate IsSubsequence<T(==)>(a: seq<T>, b: seq<T>)
    decreases |b|
  {
    if a == [] then true
    else if b == [] then false
    else (a[|a| - 1] == b[|b| - 1] && IsSubsequence(a[..|a| - 1], b[..|b| - 1]))
         || IsSubsequence(a, b[..|b| - 1])
  }

  /** While the filter runs over the first `n` places, each kept entry is the first place with its uri. */
  lemma {:induction false} DedupPrefixFirstSeen(s: seq<RecyclingPlace>, n: nat)
    requires n <= |s|
    ensures |DedupPrefix(s, n)| <= n
    ensures forall k | 0 <= k < |DedupPrefix(s, n)| ::
              var f := FindIndexByUri(s, DedupPrefix(s, n)[k].uri);
              0 <= f < n && s[f] == DedupPrefix(s, n)[k]
  {
    if n > 0 {
      DedupPrefixFirstSeen(s, n - 1);
    }
  }

  /** While the filter runs, the kept uris stay pairwise distinct. */
  lemma {:induction false} DedupPrefixDistinct(s: seq<RecyclingPlace>, n: nat)
    requires n <= |s|
    ensures forall i, j | 0 <= i < j < |DedupPrefix(s, n)| :: DedupPrefix(s, n)[i].uri != DedupPrefix(s, n)[j].uri
  {
    if n > 0 {
      DedupPrefixDistinct(s, n - 1);
      DedupPrefixFirstSeen(s, n - 1);
      var r0 := DedupPrefix(s, n - 1);
      var u := s[n - 1].uri;
      if FindIndexByUri(s, u) == n - 1 {
        var r := r0 + [s[n - 1]];
        forall k | 0 <= k < |r0|
          ensures r0[k].uri != u
        {
          // r0[k] is first seen before n - 1, while u is first seen at n - 1.
          assert FindIndexByUri(s, r0[k].uri) < n - 1;
        }
        assert forall i, j | 0 <= i < j < |r| :: r[i].uri != r[j].uri by {
          forall i, j | 0 <= i < j < |r|
            ensures r[i].uri != r[j].uri
          {
            if j == |r0| {
              assert r[i] == r0[i];
            } else {
              assert r[i] == r0[i] && r[j] == r0[j];
            }
          }
        }
      }
    }
  }

  /** The uris of a list of places, in order. */
  function Uris(r: seq<RecyclingPlace>): (us: seq<Option<string>>)
    ensures |us| == |r| && forall k | 0 <= k < |r| :: us[k] == r[k].uri
  {
    seq(|r|, k requires 0 <= k < |r| => r[k].uri)
  }

  /** While the filter runs, every uri of the first `n` places has been kept. */
  lemma {:induction false} DedupPrefixCovers(s: seq<RecyclingPlace>, n: nat)
    requires n <= |s|
    ensures forall i | 0 <= i < n :: s[i].uri in Uris(DedupPrefix(s, n))
  {
    if n > 0 {
      DedupPrefixCovers(s, n - 1);
      var r0 := DedupPrefix(s, n - 1);
      var r := DedupPrefix(s, n);
      var f := FindIndexByUri(s, s[n - 1].uri);
      assert 0 <= f <= n - 1;
      assert r == r0 + (if f == n - 1 then [s[n - 1]] else []);
      assert Uris(r)[..|r0|] == Uris(r0);
      if f == n - 1 {
        assert Uris(r)[|r0|] == s[n - 1].uri;
      } else {
        assert s[f].uri == s[n - 1].uri;
      }
    }
  }

  /** While the filter runs, the kept list is a subsequence of the places seen. */
  lemma {:induction false} DedupPrefixSubsequence(s: seq<RecyclingPlace>, n: nat)
    requires n <= |s|
    ensures IsSubsequence(DedupPrefix(s, n), s[..n])
  {
    if n > 0 {
      DedupPrefixSubsequence(s, n - 1);
      var r0 := DedupPrefix(s, n - 1);
      var r := DedupPrefix(s, n);
      assert s[..n][..n - 1] == s[..n - 1];
      if r != r0 {
        assert r[..|r| - 1] == r0;
      }
    }
  }

  /** After deduplication the uris are pairwise distinct. */
  lemma DedupUrisDistinct(s: seq<RecyclingPlace>)
    ensures forall i, j | 0 <= i < j < |DedupByUri(s)| :: DedupByUri(s)[i].uri != DedupByUri(s)[j].uri
  {
    DedupPrefixDistinct(s, |s|);
  }

  /** The deduplicated list is a subsequence of the extracted one, hence never longer. */
  lemma DedupIsSubsequence(s: seq<RecyclingPlace>)
    ensures IsSubsequence(DedupByUri(s), s)
    ensures |DedupByUri(s)| <= |s|
  {
    DedupPrefixSubsequence(s, |s|);
    DedupPrefixFirstSeen(s, |s|);
    assert s[..|s|] == s;
  }

  /** Every uri of the input appears exactly once in the result. */
  lemma DedupKeepsEveryUriOnce(s: seq<RecyclingPlace>, i: int)
    requires 0 <= i < |s|
    ensures s[i].uri in Uris(DedupByUri(s))
    ensures forall k, k' | 0 <= k < k' < |DedupByUri(s)| :: !(DedupByUri(s)[k].uri == s[i].uri == DedupByUri(s)[k'].uri)
  {
    DedupPrefixCovers(s, |s|);
    DedupPrefixDistinct(s, |s|);
  }

  /** The entry kept for each uri is the first one with that uri. */
  lemma DedupKeepsFirstSeen(s: seq<RecyclingPlace>)
    ensures forall k | 0 <= k < |DedupByUri(s)| ::
              0 <= FindIndexByUri(s, DedupByUri(s)[k].uri) && s[FindIndexByUri(s, DedupByUri(s)[k].uri)] == DedupByUri(s)[k]
  {
    DedupPrefixFirstSeen(s, |s|);
  }

  /** The chunks the extraction sees: none when the call threw or they are absent. */
  function ReplyChunks(reply: LocationReply): (r: seq<GroundingChunk>)
    ensures reply.LocationReplied? && reply.chunks.Some? ==> r == reply.chunks.value
    ensures r != [] ==> reply.LocationReplied? && reply.chunks == Some(r)
  {
    if reply.LocationReplied? && reply.chunks.Some? then reply.chunks.value else []
  }

  /** The best-effort location step: extracted, deduplicated places; empty on any failure. */
  method FindNearbyRecyclingCenters(reply: LocationReply) returns (places: seq<RecyclingPlace>)
    ensures places == DedupByUri(ExtractedPlaces(ReplyChunks(reply)))
    ensures (reply.LocationCallThrew? || reply.chunks.None?) ==> places == []
    ensures |places| <= |ReplyChunks(reply)|
    ensures forall i, j | 0 <= i < j < |places| :: places[i].uri != places[j].uri
  {
    match reply {
      case LocationCallThrew =>
        places := [];
      case LocationReplied(chunks) =>
        var extracted: seq<RecyclingPlace> := [];
        if chunks.Some? {
          extracted := ExtractPlaces(chunks.value);
        }
        places := DedupByUri(extracted);
    }
    ExtractedPlacesBounded(ReplyChunks(reply));
    DedupIsSubsequence(ExtractedPlaces(ReplyChunks(reply)));
    DedupUrisDistinct(ExtractedPlaces(ReplyChunks(reply)));
  }
}
