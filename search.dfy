/** Finder mode of services/gemini.ts: how `searchRestaurants` shapes the
    single generateContent request from its arguments, and how it shapes the
    reply into a SearchResult. The call itself is a parameter. */
module Search {
  import opened Wrappers

  /** A position from the browser's geolocation (types.ts). */
  datatype Coordinates = Coordinates(latitude: real, longitude: real)

  /** One element of `contents.parts`. */
  datatype Part = InlineData(mimeType: string, data: string) | Text(text: string)

  datatype LatLng = LatLng(latitude: real, longitude: real)
  datatype RetrievalConfig = RetrievalConfig(latLng: LatLng)
  datatype ToolConfig = ToolConfig(retrievalConfig: RetrievalConfig)

  datatype Tool = GoogleMaps

  /** The arguments of `ai.models.generateContent`. */
  datatype Request = Request(model: string, parts: seq<Part>, tools: seq<Tool>, toolConfig: Option<ToolConfig>)

  // Grounding data, mirrored from types.ts
  datatype ReviewSnippet = ReviewSnippet(content: string)
  datatype PlaceAnswerSources = PlaceAnswerSources(reviewSnippets: Option<seq<ReviewSnippet>>)
  datatype MapsSource = MapsSource(uri: string, title: string, placeAnswerSources: Option<PlaceAnswerSources>)
  datatype WebSource = WebSource(uri: string, title: string)
  datatype GroundingChunk = GroundingChunk(maps: Option<MapsSource>, web: Option<WebSource>)

  /** The parts of a generateContent response that are read; every level may be absent. */
  datatype GroundingMetadata = GroundingMetadata(groundingChunks: Option<seq<GroundingChunk>>)
  datatype Candidate = Candidate(groundingMetadata: Option<GroundingMetadata>)
  datatype Response = Response(text: Option<string>, candidates: Option<seq<Candidate>>)

  datatype SearchResult = SearchResult(text: string, groundingChunks: seq<GroundingChunk>)

  /** The error thrown by the service call, which is rethrown unchanged
      (the console logging before the rethrow is not modelled). */
  datatype ServiceError = ServiceError(message: string)

  const SearchModel := "gemini-2.5-flash"
  const AudioMimeType := "audio/wav"
  const AudioPreamble := "The user has provided audio input. Listen to it to understand their request for food or restaurants. "
  const NoPlacesText := "I couldn't find any specific places matching your request."

  /** `if (audioBase64)`: null and the empty string are both falsy. */
  predicate HasAudio(audio: Option<string>)
  {
    audio.Some? && audio.value != ""
  }

  function BuildParts(prompt: string, audio: Option<string>): (parts: seq<Part>)
    ensures |parts| == if HasAudio(audio) then 2 else 1
    ensures parts[|parts| - 1].Text?
  {
    if HasAudio(audio) then
      [InlineData(AudioMimeType, audio.value), Text(AudioPreamble + prompt)]
    else
      [Text(prompt)]
  }

  function BuildToolConfig(location: Option<Coordinates>): (r: Option<ToolConfig>)
    ensures r.Some? <==> location.Some?
  {
    match location
    case None => None
    case Some(c) => Some(ToolConfig(RetrievalConfig(LatLng(c.latitude, c.longitude))))
  }

  function BuildRequest(prompt: string, audio: Option<string>, location: Option<Coordinates>): (r: Request)
    ensures r.model == SearchModel
    ensures r.tools == [GoogleMaps]
    ensures r.toolConfig.Some? <==> location.Some?
    ensures |r.parts| == if HasAudio(audio) then 2 else 1
  {
    Request(SearchModel, BuildParts(prompt, audio), [GoogleMaps], BuildToolConfig(location))
  }

  // Readers that recover the arguments from a request built above

  function PromptOf(r: Request): Option<string>
  {
    if |r.parts| == 1 && r.parts[0].Text? then Some(r.parts[0].text)
    else if |r.parts| == 2 && r.parts[0].InlineData? && r.parts[1].Text? && AudioPreamble <= r.parts[1].text
    then Some(r.parts[1].text[|AudioPreamble|..])
    else None
  }

  function AudioOf(r: Request): Option<string>
  {
    if |r.parts| == 2 && r.parts[0].InlineData? && r.parts[0].mimeType == AudioMimeType
    then Some(r.parts[0].data)
    else None
  }

  function LocationOf(r: Request): Option<Coordinates>
  {
    match r.toolConfig
    case None => None
    case Some(t) => Some(Coordinates(t.retrievalConfig.latLng.latitude, t.retrievalConfig.latLng.longitude))
  }

  /** The exact shape of `contents.parts`: with audio, the inline WAV data
      followed by the fixed preamble plus the prompt; without, the prompt
      alone. */
  lemma RequestParts(prompt: string, audio: Option<string>, location: Option<Coordinates>)
    ensures HasAudio(audio) ==>
      BuildRequest(prompt, audio, location).parts ==
        [InlineData("audio/wav", audio.value), Text(AudioPreamble + prompt)]
    ensures !HasAudio(audio) ==> BuildRequest(prompt, audio, location).parts == [Text(prompt)]
  {
  }

  /** Nothing the caller supplies is lost: the prompt, the (non-empty) audio
      and the coordinates, latitude and longitude unchanged, can all be read
      back from the request. Empty audio is dropped like no audio. */
  lemma RequestRoundTrip(prompt: string, audio: Option<string>, location: Option<Coordinates>)
    ensures var r := BuildRequest(prompt, audio, location);
      PromptOf(r) == Some(prompt) &&
      AudioOf(r) == (if HasAudio(audio) then audio else None) &&
      LocationOf(r) == location
  {
  }

  /** `response.candidates?.[0]?.groundingMetadata?.groundingChunks`. */
  function FirstGroundingChunks(resp: Response): Option<seq<GroundingChunk>>
  {
    if resp.candidates.Some? && |resp.candidates.value| > 0
       && resp.candidates.value[0].groundingMetadata.Some?
    then resp.candidates.value[0].groundingMetadata.value.groundingChunks
    else None
  }

  /** The fallbacks of `searchRestaurants`: a missing or empty `text` becomes
      the fixed sentence, missing grounding chunks become the empty list. */
  function ShapeResult(resp: Response): (r: SearchResult)
    ensures r.text != ""
    ensures resp.text.Some? && resp.text.value != "" ==> r.text == resp.text.value
    ensures resp.text.None? || resp.text.value == "" ==> r.text == NoPlacesText
    ensures FirstGroundingChunks(resp).Some? ==> r.groundingChunks == FirstGroundingChunks(resp).value
    ensures FirstGroundingChunks(resp).None? ==> r.groundingChunks == []
  {
    var text := if resp.text.Some? && resp.text.value != "" then resp.text.value else NoPlacesText;
    var chunks := match FirstGroundingChunks(resp) case Some(cs) => cs case None => [];
    SearchResult(text, chunks)
  }

  /** The defaults only fill in what is missing: a response that already
      carries the text and chunks of a result shapes back to that result. */
  lemma ShapeResultKeepsPresentFields(res: SearchResult)
    requires res.text != ""
    ensures ShapeResult(Response(Some(res.text),
              Some([Candidate(Some(GroundingMetadata(Some(res.groundingChunks))))]))) == res
  {
  }

  /** `searchRestaurants`: one generateContent call with the built request;
      its error is rethrown unchanged, its reply is shaped with the defaults. */
  function SearchRestaurants(prompt: string, audio: Option<string>, location: Option<Coordinates>,
                             generate: Request -> Result<Response, ServiceError>): (r: Result<SearchResult, ServiceError>)
    ensures r.Failure? <==> generate(BuildRequest(prompt, audio, location)).Failure?
    ensures r.Failure? ==> r.error == generate(BuildRequest(prompt, audio, location)).error
    ensures r.Success? ==> r.value == ShapeResult(generate(BuildRequest(prompt, audio, location)).value)
    ensures r.Success? ==> r.value.text != ""
  {
    match generate(BuildRequest(prompt, audio, location))
    case Failure(e) => Failure(e)
    case Success(resp) => Success(ShapeResult(resp))
  }
}
