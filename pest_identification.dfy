/** The pest identification page: it cuts the base64 payload out of the uploaded image's
    data URL, asks the vision model and the detection endpoint about it, and shows one
    analysis chosen by priority (the vision model, then the endpoint, then demo data),
    or an error record when the choice itself throws. */
module PestIdentification {
  import opened Outcomes
  import opened Numbers
  import opened Text
  import opened BedrockService
  import opened SageMakerService

  /** The analysis the page shows; `aiAnalysis` is present only on the vision model's. */
  datatype AnalysisResult = AnalysisResult(
    pestIdentified: string,
    confidence: int,
    severity: string,
    description: string,
    treatment: seq<string>,
    prevention: seq<string>,
    aiAnalysis: Option<string>,
    aiService: string)

  const BedrockLabel := "Amazon Bedrock"
  const SageMakerLabel := "Amazon SageMaker"
  const DemoLabel := "Demo Mode (Configure AWS credentials)"
  const ErrorLabel := "Error"

  const DefaultTreatment := ["Monitor closely", "Apply appropriate treatment"]
  const EndpointPrevention := ["Regular monitoring", "Maintain plant health", "Proper sanitation"]
  const DemoTreatment := [
    "Apply neem oil spray in early morning or evening",
    "Introduce beneficial insects like ladybugs",
    "Monitor plant weekly for re-infestation",
    "Ensure proper plant spacing for air circulation"]
  const DemoDescription := "Green peach aphids detected on leaf surface"
  const ErrorDescription := "Unable to analyze image. Please check your AWS configuration."

  const DemoResult := AnalysisResult("Aphids", 94, "Medium", DemoDescription, DemoTreatment,
                                     AphidPrevention, None, DemoLabel)

  const ErrorResult := AnalysisResult("Analysis Error", 0, "Unknown", ErrorDescription,
                                      ["Consult local agricultural expert"], ["Regular crop monitoring"],
                                      None, ErrorLabel)

  // ---------------------------------------------------------------------------
  // The base64 payload of a data URL

  /** `imageDataUrl.split(',')[1]`: absent when the URL has no comma. */
  function Base64Payload(imageDataUrl: string): Option<string> {
    var parts := Split(imageDataUrl, ',');
    if |parts| >= 2 then Some(parts[1]) else None
  }

  /** The first piece of a split: everything before the first separator. */
  lemma {:induction false} SplitHead(s: string, sep: char)
    ensures Split(s, sep)[0] == (match IndexOf(s, sep) case None => s case Some(j) => s[..j])
  {
  }

  /** The payload is absent exactly when there is no comma; otherwise it is what lies
      between the first comma and the next one, or the end of the URL. */
  lemma Base64PayloadBetweenCommas(imageDataUrl: string)
    ensures Base64Payload(imageDataUrl).None? <==> ',' !in imageDataUrl
    ensures IndexOf(imageDataUrl, ',').Some? ==>
              var rest := imageDataUrl[IndexOf(imageDataUrl, ',').value + 1..];
              Base64Payload(imageDataUrl) ==
                Some(match IndexOf(rest, ',') case None => rest case Some(j) => rest[..j])
  {
    match IndexOf(imageDataUrl, ',')
    case None =>
    case Some(i) =>
      var rest := imageDataUrl[i + 1..];
      assert Split(imageDataUrl, ',') == [imageDataUrl[..i]] + Split(rest, ',');
      SplitHead(rest, ',');
  }

  /** For a data URL `data:<mediatype>;base64,<data>` whose media type and data hold no
      comma, as in section 3 of RFC 2397, the payload is exactly the data. */
  lemma DataUrlPayload(mediaType: string, data: string)
    requires ',' !in mediaType && ',' !in data
    ensures Base64Payload("data:" + mediaType + ";base64," + data) == Some(data)
  {
    var head := "data:" + mediaType + ";base64";
    var url := "data:" + mediaType + ";base64," + data;
    assert ',' !in "data:" && ',' !in ";base64";
    assert ',' !in head;
    assert url == head + [','] + data;
    IndexOfAfter(head, ',', data);
    assert url[|head| + 1..] == data;
    Base64PayloadBetweenCommas(url);
  }

  // ---------------------------------------------------------------------------
  // The choice of the analysis shown

  /** A report of the vision model as the page shows it, tagged with its service. */
  function AsShown(report: PestReport, service: string): AnalysisResult {
    AnalysisResult(report.pestIdentified, report.confidence, report.severity, report.description,
                   report.treatment, report.prevention, Some(report.aiAnalysis), service)
  }

  /** `x || 0` for an optional number, as a real. */
  function OrZero(x: Option<Decimal>): real {
    if x.Some? then ToReal(x.value) else 0.0
  }

  /** The endpoint's prediction converted to the page's shape; reading the first pest of
      an absent list throws. */
  function FromEndpoint(p: PestPrediction): Settled<AnalysisResult> {
    match p.detectedPests
    case None => Rejected(TypeErrorOnUndefined)
    case Some(pests) =>
      var first := if |pests| > 0 then Some(pests[0]) else None;
      Fulfilled(AnalysisResult(
        if first.Some? && first.value.pestName != "" then first.value.pestName else "Unknown",
        Round((if first.Some? then OrZero(first.value.confidence) else 0.0) * 100.0),
        if first.Some? && first.value.severity != "" then first.value.severity else "Medium",
        "Detected with " + IntToString(Round(OrZero(p.plantHealthScore) * 100.0)) + "% plant health score",
        if p.treatmentRecommendations.Some? then p.treatmentRecommendations.value else DefaultTreatment,
        EndpointPrevention,
        None,
        SageMakerLabel))
  }

  /** The analysis shown, given how both calls settled: the vision model's report when
      it answered; else the endpoint's prediction converted, when the endpoint answered;
      else the demo analysis. When the endpoint answered with no prediction at all, or
      one without a pest list, the conversion throws and the error record is shown. */
  function SelectResult(bedrock: Settled<PestReport>, endpoint: Settled<Option<PestPrediction>>): AnalysisResult {
    if bedrock.Fulfilled? then AsShown(bedrock.value, BedrockLabel)
    else if endpoint.Fulfilled? then
      match endpoint.value
      case None => ErrorResult
      case Some(p) =>
        match FromEndpoint(p)
        case Fulfilled(r) => r
        case Rejected(_) => ErrorResult
    else DemoResult
  }

  /** One analysis is shown, from one of four services. */
  lemma OneOfFourServices(bedrock: Settled<PestReport>, endpoint: Settled<Option<PestPrediction>>)
    ensures SelectResult(bedrock, endpoint).aiService in [BedrockLabel, SageMakerLabel, DemoLabel, ErrorLabel]
  {
  }

  /** The vision model's answer wins whatever the endpoint did, and it is shown with
      every field it came with. */
  lemma BedrockWins(report: PestReport, endpoint: Settled<Option<PestPrediction>>)
    ensures var r := SelectResult(Fulfilled(report), endpoint);
            && r.aiService == BedrockLabel
            && r.pestIdentified == report.pestIdentified && r.confidence == report.confidence
            && r.severity == report.severity && r.description == report.description
            && r.treatment == report.treatment && r.prevention == report.prevention
            && r.aiAnalysis == Some(report.aiAnalysis)
  {
  }

  /** The endpoint's path: the first pest's name, or `Unknown` when there is no pest;
      `Math.round` of the first confidence times 100, or 0; the first severity, or
      `Medium`; the endpoint's treatment list when it gave one, else the two defaults;
      and always the three fixed prevention steps. */
  lemma EndpointPath(e: Fault, p: PestPrediction)
    requires p.detectedPests.Some?
    ensures var r := SelectResult(Rejected(e), Fulfilled(Some(p)));
            var pests := p.detectedPests.value;
            && r.aiService == SageMakerLabel
            && (|pests| == 0 ==> r.pestIdentified == "Unknown" && r.confidence == 0 && r.severity == "Medium")
            && (|pests| > 0 ==>
                  r.pestIdentified == (if pests[0].pestName != "" then pests[0].pestName else "Unknown")
                  && r.confidence as real - 0.5 <= OrZero(pests[0].confidence) * 100.0 < r.confidence as real + 0.5
                  && r.severity == (if pests[0].severity != "" then pests[0].severity else "Medium"))
            && r.treatment == (if p.treatmentRecommendations.Some? then p.treatmentRecommendations.value
                               else DefaultTreatment)
            && r.prevention == EndpointPrevention
  {
  }

  /** When the endpoint's answer cannot be read, the error record is shown: confidence
      0, severity `Unknown`, service `Error`. */
  lemma ErrorPath(e: Fault, endpoint: Settled<Option<PestPrediction>>)
    requires endpoint.Fulfilled?
    requires endpoint.value.None? || endpoint.value.value.detectedPests.None?
    ensures var r := SelectResult(Rejected(e), endpoint);
            r.confidence == 0 && r.severity == "Unknown" && r.aiService == ErrorLabel
  {
  }

  /** Demo data is shown only when both calls reject. */
  lemma DemoOnlyWhenBothFail(bedrock: Settled<PestReport>, endpoint: Settled<Option<PestPrediction>>)
    ensures SelectResult(bedrock, endpoint).aiService == DemoLabel <==> bedrock.Rejected? && endpoint.Rejected?
  {
  }

  /** With the real services in place the demo branch is never taken: the detection
      wrapper never rejects. */
  lemma NoDemoWithRealServices(payload: Option<string>, cropType: string,
                               vision: ClaudeInvoker, detector: PestEndpoint)
    ensures SelectResult(AnalyzePestImage(payload, cropType, vision), Fulfilled(DetectPests(payload, detector))).aiService
            != DemoLabel
  {
    DemoOnlyWhenBothFail(AnalyzePestImage(payload, cropType, vision), Fulfilled(DetectPests(payload, detector)));
  }

  /** With both services down, the page shows the endpoint's demo detection converted:
      `Aphids` at 94 with the lower-case severity `medium`. */
  lemma BothServicesDown(payload: Option<string>, cropType: string, e1: Fault, e2: Fault)
    ensures var r := SelectResult(AnalyzePestImage(payload, cropType, _ => Rejected(e1)),
                                  Fulfilled(DetectPests(payload, _ => Rejected(e2))));
            && r.aiService == SageMakerLabel && r.pestIdentified == "Aphids"
            && r.confidence == 94 && r.severity == "medium"
  {
    assert AnalyzePestImage(payload, cropType, _ => Rejected(e1)) == Rejected(e1);
    assert DetectPests(payload, _ => Rejected(e2)) == Some(FallbackPestPrediction);
    FallbackPestShape();
    EndpointPath(e1, FallbackPestPrediction);
  }

  // ---------------------------------------------------------------------------
  // getSeverityColor

  const HighBadge := "text-red-400 bg-red-500/20"
  const MediumBadge := "text-yellow-400 bg-yellow-500/20"
  const LowBadge := "text-green-400 bg-green-500/20"
  const OtherBadge := "text-gray-400 bg-gray-500/20"

  /** `getSeverityColor`. */
  function SeverityColor(severity: string): string {
    match ToLower(severity)
    case "high" => HighBadge
    case "medium" => MediumBadge
    case "low" => LowBadge
    case _ => OtherBadge
  }

  /** The badge depends on the severity's letters only, not their case: each of the
      three levels gets its own colour, and every other string the gray one. */
  lemma SeverityColorCases(severity: string)
    ensures SeverityColor(severity) == HighBadge <==> ToLower(severity) == "high"
    ensures SeverityColor(severity) == MediumBadge <==> ToLower(severity) == "medium"
    ensures SeverityColor(severity) == LowBadge <==> ToLower(severity) == "low"
    ensures SeverityColor(severity) == OtherBadge <==> ToLower(severity) !in ["high", "medium", "low"]
  {
  }

  /** Strings that agree up to case get the same badge. */
  lemma SeverityColorIgnoresCase(a: string, b: string)
    requires ToLower(a) == ToLower(b)
    ensures SeverityColor(a) == SeverityColor(b)
  {
  }

  /** What the handler writes to the page's state, in order. */
  datatype Event = AnalyzingSet(value: bool) | ResultSet(result: Option<AnalysisResult>)

  /** The page's state. */
  class PestAnalyzer {
    var isAnalyzing: bool
    var analysisResult: Option<AnalysisResult>
    var cropType: string
    /** The writes the handler has made, oldest first. */
    ghost var events: seq<Event>

    constructor()
      ensures !isAnalyzing && analysisResult.None? && cropType == "tomato" && events == []
    {
      isAnalyzing := false;
      analysisResult := None;
      cropType := "tomato";
      events := [];
    }

    /** `analyzeImage`: the flag goes up and the old result is cleared before the calls;
        the chosen analysis is shown and the flag goes down at the end. `analyze` and
        `detect` stand for the two wrappers, whose outcomes `Promise.allSettled` gathers. */
    method AnalyzeImage(
      imageDataUrl: string,
      analyze: (Option<string>, string) -> Settled<PestReport>,
      detect: Option<string> -> Settled<Option<PestPrediction>>)
      modifies this
      ensures cropType == old(cropType)
      ensures var payload := Base64Payload(imageDataUrl);
              var shown := SelectResult(analyze(payload, cropType), detect(payload));
              && analysisResult == Some(shown)
              && events == old(events) + [AnalyzingSet(true), ResultSet(None), ResultSet(Some(shown)), AnalyzingSet(false)]
      ensures !isAnalyzing
    {
      ghost var log := events;
      isAnalyzing := true;
      log := log + [AnalyzingSet(true)];
      analysisResult := None;
      log := log + [ResultSet(None)];

      var base64Data := Base64Payload(imageDataUrl);
      var bedrockResult := analyze(base64Data, cropType);
      var sageMakerResult := detect(base64Data);

      var finalResult: AnalysisResult;
      var threw := false;
      if bedrockResult.Fulfilled? {
        finalResult := AsShown(bedrockResult.value, "");
        finalResult := finalResult.(aiService := BedrockLabel);
      } else if sageMakerResult.Fulfilled? {
        finalResult := ErrorResult;
        if sageMakerResult.value.Some? {
          var converted := FromEndpoint(sageMakerResult.value.value);
          if converted.Fulfilled? {
            finalResult := converted.value;
          } else {
            threw := true;
          }
        } else {
          threw := true;
        }
      } else {
        finalResult := DemoResult;
      }
      if threw {
        finalResult := ErrorResult;
      }

      analysisResult := Some(finalResult);
      log := log + [ResultSet(Some(finalResult))];
      isAnalyzing := false;
      log := log + [AnalyzingSet(false)];
      events := log;
    }
  }
}
