/**
 * The analysis service of services/geminiService.ts, with each remote call
 * replaced by the outcome it had: the text-model tiers (primary, then
 * fallback, then a fatal error), the best-effort image step with its fixed
 * placeholder and degraded flag, and the assembly of the result record.
 * `JSON.parse` is the parameter `parse`, an opaque partial function.
 */
module GeminiService {
  import opened Wrappers
  import opened Constants

  // Records

  datatype ChartDataPoint = ChartDataPoint(name: string, percentage: real)

  /** The fields of the parsed model output that the service reads. */
  datatype AnalysisData = AnalysisData(
    assessment: seq<ChartDataPoint>,
    theme: string,
    visualDescription: string,
    vibeCheck: string,
    deepDive: seq<string>,
    realityCheck: string,
    healingRoadmap: seq<string>)

  /** The record handed back to the chat view. */
  datatype AnalysisResult = AnalysisResult(
    chartData: seq<ChartDataPoint>,
    imageUrl: string,
    visualDescription: string,
    theme: string,
    vibeCheck: string,
    deepDive: seq<string>,
    realityCheck: string,
    healingRoadmap: seq<string>,
    isImageFallback: bool)

  // Outcomes of the remote calls and of JSON.parse

  /** A text call either throws or yields its text; an absent text is the empty string. */
  datatype TextResponse = TextThrew | TextReturned(text: string)

  /** JSON.parse throws, yields a falsy value (null, false, 0, ""), or yields the analysis record. */
  datatype ParseOutcome = ParseThrew | ParsedFalsy | ParsedRecord(data: AnalysisData)

  datatype InlineData = InlineData(data: string)

  datatype Part = Part(inlineData: Option<InlineData>)

  datatype Candidate = Candidate(parts: seq<Part>)

  /** An image call either throws or yields its candidates, of which the first is read. */
  datatype ImageResponse = ImageThrew | ImageReturned(candidates: seq<Candidate>)

  // The calls the service makes, and its errors

  datatype Tier = Primary | Fallback

  datatype Call =
    | TextCall(tier: Tier, contents: string, systemInstruction: string)
    | ImageCall(prompt: string)

  datatype ServiceError = Overloaded | NoAnalysisData

  /** The error messages the service throws. */
  function ErrorMessage(e: ServiceError): string {
    match e
    case Overloaded => "Service is currently overloaded. Please try again " +
                       "in a few moments."
    case NoAnalysisData => "Failed to generate analysis data."
  }

  /** Why generateVisualAnchor fails: the call threw, the response had no candidate, or no part had inline data. */
  datatype ImageError = ImageCallFailed | NoCandidate | NoImageData

  /**
   * The message generateVisualAnchor throws itself. Only the missing inline data is
   * its own error; the other two are raised by the client or by the runtime.
   */
  function ImageErrorMessage(e: ImageError): Option<string> {
    match e
    case NoImageData => Some("No image data returned from API")
    case _ => None
  }

  // Constants

  /** The placeholder image used when image generation fails (an SVG gradient, base64-encoded). */
  const FallbackImage: string :=
    "data:image/svg+xml;base64," +
    "PHN2ZyB4bWxucz0iaHR0cDovL3d3dy53My5vcmcvMjAwMC9z" +
    "dmciIHdpZHRoPSIxMDI0IiBoZWlnaHQ9IjEwMjQiIHZpZXdC" +
    "b3g9IjAgMCAxMDI0IDEwMjQiPjxkZWZzPjxsaW5lYXJHcmFk" +
    "aWVudCBpZD0iZ3JhZCIgeDE9IjAlIiB5MT0iMCUiIHgyPSIx" +
    "MDAlIiB5Mj0iMTAwJSI+PHN0b3Agb2Zmc2V0PSIwJSIgc3R5" +
    "bGU9InN0b3AtY29sb3I6IzQzMzhjYTtzdG9wLW9wYWNpdHk6" +
    "MSIgLz48c3RvcCBvZmZzZXQ9IjEwMCUiIHN0eWxlPSJzdG9w" +
    "LWNvbG9yOiM2ZDI4ZDk7c3RvcC1vcGFjaXR5OjEiIC8+PC9s" +
    "aW5lYXJHcmFkaWVudD48L2RlZnM+PHJlY3Qgd2lkdGg9IjEw" +
    "MjQiIGhlaWdodD0iMTAyNCIgZmlsbD0idXJsKCNncmFkKSIg" +
    "Lz48ZyBvcGFjaXR5PSIwLjEiPjxjaXJjbGUgY3g9IjUxMiIg" +
    "Y3k9IjUxMiIgcj0iMzAwIiBmaWxsPSJ3aGl0ZSIvPjwvZz48" +
    "dGV4dCB4PSI1MCUiIHk9IjUwJSIgZG9taW5hbnQtYmFzZWxp" +
    "bmU9Im1pZGRsZSIgdGV4dC1hbmNob3I9Im1pZGRsZSIgZm9u" +
    "dC1mYW1pbHk9InNhbnMtc2VyaWYiIGZvbnQtc2l6ZT0iMjQi" +
    "IGZpbGw9IndoaXRlIiBvcGFjaXR5PSIwLjUiPihWaXN1YWxp" +
    "emF0aW9uIFVuYXZhaWxhYmxlKQ0KPC90ZXh0Pjwvc3ZnPg=="

  const PngDataUriPrefix: string := "data:image/png;base64,"

  /** The style text of the image prompt, before and after the quoted theme. */
  const ImagePromptHead: string :=
    "A high-end, minimalist, and tidy digital art piece " +
    "representing a life path journey with the theme: '"

  const ImagePromptTail: string :=
    "'.\n" +
    "    Style: Serene, clean composition, ethereal lighting, " +
    "soft cinematic atmosphere.\n" +
    "    Visuals: A clear path or road leading towards " +
    "a gentle light, uncluttered environment, symbolic " +
    "of healing and growth. \n" +
    "    Colors: Soothing pastels, deep calming blues " +
    "or warm golds. \n" +
    "    No text, no chaotic elements. Perfectionist composition."

  /** The image prompt: the fixed style text with the theme quoted in it. */
  function ImagePrompt(theme: string): string {
    ImagePromptHead + theme + ImagePromptTail
  }

  // The record assembled from the parsed data

  /** The parsed fields a result carries, under their parsed names (chartData is the assessment). */
  function AnalysisDataOf(r: AnalysisResult): AnalysisData {
    AnalysisData(r.chartData, r.theme, r.visualDescription, r.vibeCheck, r.deepDive, r.realityCheck, r.healingRoadmap)
  }

  /** The returned record: every parsed field copied unchanged, plus the chosen image and the degraded flag. */
  function Assemble(data: AnalysisData, imageUrl: string, isImageFallback: bool): (r: AnalysisResult)
    ensures AnalysisDataOf(r) == data
    ensures r.imageUrl == imageUrl && r.isImageFallback == isImageFallback
  {
    AnalysisResult(
      chartData := data.assessment,
      imageUrl := imageUrl,
      visualDescription := data.visualDescription,
      theme := data.theme,
      vibeCheck := data.vibeCheck,
      deepDive := data.deepDive,
      realityCheck := data.realityCheck,
      healingRoadmap := data.healingRoadmap,
      isImageFallback := isImageFallback)
  }

  // The text tiers

  /** How the try block of one text tier ends: something threw, it left no data, or it produced data. */
  datatype Attempt = Raised | NoData | Data(data: AnalysisData)

  /**
   * The call threw, or its text was non-empty and JSON.parse threw: Raised.
   * The text was empty, or parsed to a falsy value: NoData.
   */
  function TextAttempt(response: TextResponse, parse: string -> ParseOutcome): Attempt {
    match response
    case TextThrew => Raised
    case TextReturned(text) =>
      if text == "" then NoData
      else match parse(text)
        case ParseThrew => Raised
        case ParsedFalsy => NoData
        case ParsedRecord(data) => Data(data)
  }

  // The image step

  /** The inline data of the first part that has any; None when no part has. */
  function FirstInline(parts: seq<Part>): Option<string>
    decreases |parts|
  {
    if parts == [] then None
    else if parts[0].inlineData.Some? then Some(parts[0].inlineData.value.data)
    else FirstInline(parts[1..])
  }

  /** What generateVisualAnchor returns or throws for a given response of the image model. */
  function VisualAnchor(response: ImageResponse): Result<string, ImageError> {
    match response
    case ImageThrew => Failure(ImageCallFailed)
    case ImageReturned(candidates) =>
      if candidates == [] then Failure(NoCandidate)
      else match FirstInline(candidates[0].parts)
        case Some(data) => Success(PngDataUriPrefix + data)
        case None => Failure(NoImageData)
  }

  /** Part k is the first part with inline data. */
  predicate IsFirstInline(parts: seq<Part>, k: int) {
    && 0 <= k < |parts|
    && parts[k].inlineData.Some?
    && forall j | 0 <= j < k :: parts[j].inlineData.None?
  }

  /** The scan returns the data of the first part that has inline data. */
  lemma {:induction false} FirstInlineAt(parts: seq<Part>, k: int)
    requires IsFirstInline(parts, k)
    ensures FirstInline(parts) == Some(parts[k].inlineData.value.data)
    decreases k
  {
    if k > 0 {
      assert IsFirstInline(parts[1..], k - 1);
      FirstInlineAt(parts[1..], k - 1);
    }
  }

  /** The scan finds nothing exactly when no part has inline data. */
  lemma {:induction false} FirstInlineNone(parts: seq<Part>)
    ensures FirstInline(parts).None? <==> forall i | 0 <= i < |parts| :: parts[i].inlineData.None?
    decreases |parts|
  {
    if parts != [] {
      FirstInlineNone(parts[1..]);
      if parts[0].inlineData.None? {
        forall i | 1 <= i < |parts| ensures parts[i].inlineData == parts[1..][i - 1].inlineData {}
      }
    }
  }

  /** Parts after the first one with inline data are ignored. */
  lemma {:induction false} FirstInlineIgnoresLater(parts: seq<Part>, later: seq<Part>)
    requires FirstInline(parts).Some?
    ensures FirstInline(parts + later) == FirstInline(parts)
    decreases |parts|
  {
    if parts[0].inlineData.None? {
      assert (parts + later)[1..] == parts[1..] + later;
      FirstInlineIgnoresLater(parts[1..], later);
    }
  }

  /** A response whose first candidate has a part with inline data yields the PNG data URI of the first such part. */
  lemma VisualAnchorFirstPart(response: ImageResponse, k: int)
    requires response.ImageReturned? && response.candidates != []
    requires IsFirstInline(response.candidates[0].parts, k)
    ensures VisualAnchor(response) ==
      Success(PngDataUriPrefix + response.candidates[0].parts[k].inlineData.value.data)
  {
    FirstInlineAt(response.candidates[0].parts, k);
  }

  /** A response whose first candidate has no part with inline data is an error. */
  lemma VisualAnchorNoImage(response: ImageResponse)
    requires response.ImageReturned? && response.candidates != []
    requires forall i | 0 <= i < |response.candidates[0].parts| :: response.candidates[0].parts[i].inlineData.None?
    ensures VisualAnchor(response) == Failure(NoImageData)
    ensures ImageErrorMessage(VisualAnchor(response).error) == Some("No image data returned from API")
  {
    FirstInlineNone(response.candidates[0].parts);
  }

  /** generateVisualAnchor: one image call with the themed prompt, then a scan of the first candidate's parts. */
  method GenerateVisualAnchor(theme: string, response: ImageResponse)
    returns (r: Result<string, ImageError>, call: Call)
    ensures call == ImageCall(ImagePrompt(theme))
    ensures r == VisualAnchor(response)
    ensures r.Success? ==> PngDataUriPrefix <= r.value
  {
    call := ImageCall(ImagePrompt(theme));
    if response.ImageThrew? {
      return Failure(ImageCallFailed), call;
    }
    if response.candidates == [] {
      return Failure(NoCandidate), call;
    }
    var parts := response.candidates[0].parts;
    var i := 0;
    while i < |parts|
      invariant 0 <= i <= |parts|
      invariant FirstInline(parts[i..]) == FirstInline(parts)
    {
      if parts[i].inlineData.Some? {
        return Success(PngDataUriPrefix + parts[i].inlineData.value.data), call;
      }
      i := i + 1;
    }
    r := Failure(NoImageData);
  }

  // The whole operation, step by step

  /** Step 1, the primary tier: a throw from the call or from JSON.parse is caught and leaves no data. */
  method PrimaryTier(response: TextResponse, parse: string -> ParseOutcome)
    returns (analysisData: Option<AnalysisData>)
    ensures analysisData.Some? <==> TextAttempt(response, parse).Data?
    ensures analysisData.Some? ==> analysisData.value == TextAttempt(response, parse).data
  {
    analysisData := None;
    if response.TextReturned? && response.text != "" {
      var parsed := parse(response.text);
      if parsed.ParsedRecord? {
        analysisData := Some(parsed.data);
      }
    }
  }

  /**
   * Step 2, the fallback tier, with the check that follows it: a throw from
   * the call or from JSON.parse is fatal (Overloaded), and so is leaving no
   * data (NoAnalysisData).
   */
  method FallbackTier(response: TextResponse, parse: string -> ParseOutcome)
    returns (outcome: Result<AnalysisData, ServiceError>)
    ensures outcome == Failure(Overloaded) <==> TextAttempt(response, parse).Raised?
    ensures outcome == Failure(NoAnalysisData) <==> TextAttempt(response, parse).NoData?
    ensures outcome.Success? <==> TextAttempt(response, parse).Data?
    ensures outcome.Success? ==> outcome.value == TextAttempt(response, parse).data
  {
    var analysisData: Option<AnalysisData> := None;
    if response.TextThrew? {
      return Failure(Overloaded);
    }
    if response.text != "" {
      var parsed := parse(response.text);
      if parsed.ParseThrew? {
        return Failure(Overloaded);
      }
      if parsed.ParsedRecord? {
        analysisData := Some(parsed.data);
      }
    }
    if analysisData.None? {
      return Failure(NoAnalysisData);
    }
    outcome := Success(analysisData.value);
  }

  /**
   * Steps 1 and 2 together: the primary call, then the fallback call with the same
   * prompt and instruction only when the primary tier left no data.
   */
  method TextTiers(
    prompt: string,
    instruction: string,
    primary: TextResponse,
    fallback: TextResponse,
    parse: string -> ParseOutcome)
    returns (outcome: Result<AnalysisData, ServiceError>, calls: seq<Call>)
    ensures 1 <= |calls| <= 2 && calls[0] == TextCall(Primary, prompt, instruction)
    ensures TextAttempt(primary, parse).Data? ==>
      |calls| == 1 && outcome == Success(TextAttempt(primary, parse).data)
    ensures !TextAttempt(primary, parse).Data? ==>
      && |calls| == 2 && calls[1] == TextCall(Fallback, prompt, instruction)
      && outcome == match TextAttempt(fallback, parse)
                    case Raised => Failure(Overloaded)
                    case NoData => Failure(NoAnalysisData)
                    case Data(d) => Success(d)
  {
    calls := [TextCall(Primary, prompt, instruction)];
    var analysisData := PrimaryTier(primary, parse);
    if analysisData.Some? {
      return Success(analysisData.value), calls;
    }
    calls := calls + [TextCall(Fallback, prompt, instruction)];
    outcome := FallbackTier(fallback, parse);
  }

  /**
   * Step 3, the image, best effort: one image call with the theme; a failure
   * of any kind keeps the placeholder and sets the degraded flag, and never
   * aborts. The record copies the parsed fields.
   */
  method ImageStep(data: AnalysisData, image: ImageResponse) returns (result: AnalysisResult, call: Call)
    ensures call == ImageCall(ImagePrompt(data.theme))
    ensures AnalysisDataOf(result) == data
    ensures result.isImageFallback <==> VisualAnchor(image).Failure?
    ensures result.imageUrl == if VisualAnchor(image).Success? then VisualAnchor(image).value else FallbackImage
  {
    var imageUrl := FallbackImage;
    var isImageFallback := true;
    var anchor;
    anchor, call := GenerateVisualAnchor(data.theme, image);
    if anchor.Success? {
      imageUrl := anchor.value;
      isImageFallback := false;
    } else {
      isImageFallback := true;
    }
    result := Assemble(data, imageUrl, isImageFallback);
  }

  /**
   * getAnalysisAndImage, given the outcome of each remote call: returns the
   * result or the error, and the calls made, in order.
   */
  method GetAnalysisAndImage(
    answers: seq<string>,
    primary: TextResponse,
    fallback: TextResponse,
    image: ImageResponse,
    parse: string -> ParseOutcome)
    returns (r: Result<AnalysisResult, ServiceError>, calls: seq<Call>)
    // The primary tier is always tried first, with the rendered prompt and the persona.
    ensures 2 <= |calls| <= 3
    ensures calls[0] == TextCall(Primary, AnalysisPrompt(answers), SystemInstruction)
    // Primary data: no fallback call, that data is used.
    ensures TextAttempt(primary, parse).Data? ==>
      && |calls| == 2 && calls[1] == ImageCall(ImagePrompt(TextAttempt(primary, parse).data.theme))
      && r.Success? && AnalysisDataOf(r.value) == TextAttempt(primary, parse).data
    // Otherwise: exactly one fallback call, with the same prompt.
    ensures !TextAttempt(primary, parse).Data? ==>
      |calls| >= 2 && calls[1] == TextCall(Fallback, calls[0].contents, calls[0].systemInstruction)
    ensures !TextAttempt(primary, parse).Data? && TextAttempt(fallback, parse).Raised? ==>
      r == Failure(Overloaded) && |calls| == 2
    ensures !TextAttempt(primary, parse).Data? && TextAttempt(fallback, parse).NoData? ==>
      r == Failure(NoAnalysisData) && |calls| == 2
    ensures !TextAttempt(primary, parse).Data? && TextAttempt(fallback, parse).Data? ==>
      && |calls| == 3 && calls[2] == ImageCall(ImagePrompt(TextAttempt(fallback, parse).data.theme))
      && r.Success? && AnalysisDataOf(r.value) == TextAttempt(fallback, parse).data
    // The image call is made exactly when analysis data exists, with its theme, and never aborts.
    ensures forall i | 0 <= i < |calls| - 1 :: calls[i].TextCall?
    ensures r.Success? <==> calls[|calls| - 1].ImageCall?
    ensures r.Success? ==> calls[|calls| - 1] == ImageCall(ImagePrompt(r.value.theme))
    ensures r.Success? ==> (r.value.isImageFallback <==> VisualAnchor(image).Failure?)
    ensures r.Success? ==>
      r.value.imageUrl == if VisualAnchor(image).Success? then VisualAnchor(image).value else FallbackImage
  {
    var analysisPrompt := AnalysisPrompt(answers);
    var outcome;
    outcome, calls := TextTiers(analysisPrompt, SystemInstruction, primary, fallback, parse);
    if outcome.Failure? {
      return Failure(outcome.error), calls;
    }
    var result, imageCall := ImageStep(outcome.value, image);
    calls := calls + [imageCall];
    r := Success(result);
  }
}
