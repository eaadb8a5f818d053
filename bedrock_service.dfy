/** The wrapper around the hosted foundation models: a Claude chat for farming advice,
    Titan text generation for crop recommendations and weekly reports, and Claude image
    analysis for pests. Each call to a model is a parameter that maps the request to the
    way the call settles, so the model's behaviour is whatever the caller supplies. */
module BedrockService {
  import opened Outcomes
  import opened Numbers
  import opened Text
  import opened Seqs

  const ClaudeModel := "anthropic.claude-3-sonnet-20240229-v1:0"
  const TitanTextModel := "amazon.titan-text-express-v1"
  const AnthropicVersion := "bedrock-2023-05-31"

  datatype Role = User | Assistant

  /** One turn of a conversation. */
  datatype ChatMessage = ChatMessage(role: Role, content: string)

  datatype ContentBlock =
    | TextBlock(text: string)
      /** `data` is absent when the caller passed `undefined`, which JSON.stringify drops. */
    | Base64Image(mediaType: string, data: Option<string>)

  datatype ClaudeContent = PlainText(text: string) | Blocks(blocks: seq<ContentBlock>)

  datatype ClaudeTurn = ClaudeTurn(role: Role, content: ClaudeContent)

  /** An InvokeModel call to Claude: the model id and the fields of the JSON body. */
  datatype ClaudeRequest = ClaudeRequest(
    modelId: string,
    anthropicVersion: string,
    maxTokens: nat,
    system: Option<string>,
    messages: seq<ClaudeTurn>)

  /** An InvokeModel call to Titan: the model id and the fields of the JSON body. */
  datatype TitanRequest = TitanRequest(
    modelId: string,
    inputText: string,
    maxTokenCount: nat,
    temperature: Decimal,
    topP: Decimal)

  /** A Claude call as this code sees it: `content[0].text` of the decoded reply, or the
      error that sending, decoding or reading the reply threw. */
  type ClaudeInvoker = ClaudeRequest -> Settled<string>

  /** A Titan call as this code sees it: `results[0].outputText` of the decoded reply, or
      the error that sending, decoding or reading the reply threw. */
  type TitanInvoker = TitanRequest -> Settled<string>

  // ---------------------------------------------------------------------------
  // chatWithClaude

  const SystemPromptOpening := "You are AgriAI, an expert agricultural advisor with deep knowledge of farming, crop management, pest control, soil science, and sustainable agriculture practices. \n      \n      "
  const SystemPromptClosing := "\n      \n      Provide practical, actionable advice based on scientific agricultural principles. Always consider:\n      - Sustainable farming practices\n      - Local climate and soil conditions\n      - Economic viability for farmers\n      - Environmental impact\n      - Safety considerations\n      \n      Keep responses concise but comprehensive, and always prioritize farmer safety and crop health."
  const ContextLabel := "Current context: "
  const ChatApology := "I apologize, but I'm having trouble connecting to the AI service right now. Please try again later."

  /** The optional context is truthy: given, and not the empty string. */
  predicate IsTruthy(context: Option<string>) {
    context.Some? && context.value != ""
  }

  function SystemPrompt(context: Option<string>): string {
    SystemPromptOpening + (if IsTruthy(context) then ContextLabel + context.value else "") + SystemPromptClosing
  }

  /** The system prompt always opens and closes with its fixed text, and grows beyond it
      exactly when a truthy context was given; that context can then be read back from
      between the two, after its label, and a falsy context leaves the slot empty. */
  lemma SystemPromptCarriesContext(context: Option<string>)
    ensures SystemPromptOpening <= SystemPrompt(context)
    ensures var p := SystemPrompt(context);
            |p| >= |SystemPromptClosing| && p[|p| - |SystemPromptClosing|..] == SystemPromptClosing
    ensures IsTruthy(context) <==>
              |SystemPrompt(context)| > |SystemPromptOpening| + |SystemPromptClosing|
    ensures IsTruthy(context) ==>
              var p := SystemPrompt(context);
              p[|SystemPromptOpening|..|p| - |SystemPromptClosing|] == ContextLabel + context.value
    ensures !IsTruthy(context) ==> SystemPrompt(context) == SystemPromptOpening + SystemPromptClosing
  {
    var p := SystemPrompt(context);
    var slot := if IsTruthy(context) then ContextLabel + context.value else "";
    assert p == SystemPromptOpening + slot + SystemPromptClosing;
    assert p[..|SystemPromptOpening|] == SystemPromptOpening;
    assert p[|SystemPromptOpening|..|p| - |SystemPromptClosing|] == slot;
    assert p[|p| - |SystemPromptClosing|..] == SystemPromptClosing;
  }

  /** A turn as the chat prompt shows it. */
  function RenderTurn(m: ChatMessage): string {
    (if m.role == User then "Human" else "Assistant") + ": " + m.content
  }

  /** The turns, rendered in order and separated by blank lines. */
  function Transcript(messages: seq<ChatMessage>): string {
    Join(Map(RenderTurn, messages), "\n\n")
  }

  /** Only the empty conversation renders to the empty prompt. */
  lemma TranscriptEmpty(messages: seq<ChatMessage>)
    ensures Transcript(messages) == "" <==> messages == []
  {
    if |messages| > 0 {
      var parts := Map(RenderTurn, messages);
      if |parts| == 1 {
        assert Transcript(messages) == RenderTurn(messages[0]);
      } else {
        assert Transcript(messages) == parts[0] + "\n\n" + Join(parts[1..], "\n\n");
      }
    }
  }

  /** Rendering a conversation in two parts and joining them with a blank line is
      rendering the whole. */
  lemma TranscriptAppend(a: seq<ChatMessage>, b: seq<ChatMessage>)
    requires |a| > 0 && |b| > 0
    ensures Transcript(a + b) == Transcript(a) + "\n\n" + Transcript(b)
  {
    assert Map(RenderTurn, a + b) == Map(RenderTurn, a) + Map(RenderTurn, b);
    JoinAppend(Map(RenderTurn, a), Map(RenderTurn, b), "\n\n");
  }

  /** Each new turn lands at the end of the prompt, after a blank line. */
  lemma TranscriptSnoc(messages: seq<ChatMessage>, m: ChatMessage)
    ensures Transcript(messages + [m]) ==
            if messages == [] then RenderTurn(m) else Transcript(messages) + "\n\n" + RenderTurn(m)
  {
    if messages == [] {
      assert messages + [m] == [m];
    } else {
      TranscriptAppend(messages, [m]);
    }
  }

  /** The chat request: one user turn holding the whole transcript, and the system prompt. */
  function ChatRequest(messages: seq<ChatMessage>, context: Option<string>): ClaudeRequest {
    ClaudeRequest(ClaudeModel, AnthropicVersion, 1000, Some(SystemPrompt(context)),
                  [ClaudeTurn(User, PlainText(Transcript(messages)))])
  }

  /** `chatWithClaude`: the model's reply to the transcript; any error is swallowed and
      answered with a fixed apology, so the call itself never throws. */
  function ChatWithClaude(messages: seq<ChatMessage>, context: Option<string>, invoke: ClaudeInvoker): (reply: string)
    ensures invoke(ChatRequest(messages, context)).Fulfilled? ==>
              reply == invoke(ChatRequest(messages, context)).value
    ensures invoke(ChatRequest(messages, context)).Rejected? ==> reply == ChatApology
  {
    match invoke(ChatRequest(messages, context))
    case Fulfilled(text) => text
    case Rejected(_) => ChatApology
  }

  // ---------------------------------------------------------------------------
  // generateCropRecommendations

  /** The soil description; `nutrientsJson` is `JSON.stringify(soilData.nutrients)`. */
  datatype SoilData = SoilData(soilType: string, ph: Decimal, moisture: Decimal, nutrientsJson: string)

  datatype WeatherData = WeatherData(temperature: Decimal, humidity: Decimal, rainfall: Decimal, season: string)

  const CropPromptIntro := "Based on the following agricultural data, provide detailed crop recommendations:\n\nSoil Data:\n- Type: "
  const CropPromptRequests := "\n\nPlease provide:\n1. Top 5 recommended crops with suitability scores (0-100)\n2. Expected yield estimates\n3. Planting timeline\n4. Specific care instructions\n5. Market potential and pricing\n\nFormat the response as a structured JSON object."

  function CropPrompt(soil: SoilData, weather: WeatherData, location: string): string {
    CropPromptIntro + soil.soilType + "\n- pH: " + DecimalToString(soil.ph)
    + "\n- Moisture: " + DecimalToString(soil.moisture) + "%\n- Nutrients: " + soil.nutrientsJson
    + "\n\nWeather Data:\n- Temperature: " + DecimalToString(weather.temperature) + "\U{00C2}\U{00B0}C"
    + "\n- Humidity: " + DecimalToString(weather.humidity) + "%\n- Rainfall: " + DecimalToString(weather.rainfall)
    + "mm\n- Season: " + weather.season + "\n\nLocation: " + location + CropPromptRequests
  }

  function CropAdviceRequest(soil: SoilData, weather: WeatherData, location: string): TitanRequest {
    TitanRequest(TitanTextModel, CropPrompt(soil, weather, location), 2000, Decimal(3, 1), Decimal(9, 1))
  }

  /** A recommendation as the text model's wrapper returns it: keyed `crop`, with no
      profit and no benefits. */
  datatype AdvisedCrop = AdvisedCrop(
    crop: string,
    suitability: int,
    expectedYield: string,
    plantingTime: string,
    harvestTime: string,
    marketPrice: string,
    careInstructions: string)

  datatype CropAdvice = CropAdvice(recommendations: seq<AdvisedCrop>, aiInsights: string)

  /** The fixed-shape result built around the generated text. */
  function AdviceFromText(generated: string): CropAdvice {
    CropAdvice(
      [ AdvisedCrop("Tomatoes", 95, "45-60 tons/ha", "March-April", "90-120 days", "$4.50/kg",
                    Substring(generated, 0, 200) + "..."),
        AdvisedCrop("Bell Peppers", 88, "25-35 tons/ha", "April-May", "80-100 days", "$6.20/kg",
                    Substring(generated, 200, 400) + "...") ],
      generated)
  }

  /** Whatever the model wrote, the advice has the same two crops; only the care
      instructions (the first two 200-character stretches of the text, each followed by
      an ellipsis) and the insights (the whole text) come from the reply. */
  lemma AdviceShape(generated: string)
    ensures var recs := AdviceFromText(generated).recommendations;
            && |recs| == 2
            && recs[0].crop == "Tomatoes" && recs[0].suitability == 95
            && recs[1].crop == "Bell Peppers" && recs[1].suitability == 88
            && recs[0].careInstructions == generated[..Min(200, |generated|)] + "..."
            && recs[1].careInstructions == generated[Min(200, |generated|)..Min(400, |generated|)] + "..."
            && AdviceFromText(generated).aiInsights == generated
  {
  }

  /** The two care excerpts are consecutive: together they are the first 400 characters. */
  lemma CareExcerptsAdjoin(generated: string)
    ensures var recs := AdviceFromText(generated).recommendations;
            var first, second := recs[0].careInstructions, recs[1].careInstructions;
            first[..|first| - 3] + second[..|second| - 3] == generated[..Min(400, |generated|)]
  {
    AdviceShape(generated);
    var m, n := Min(200, |generated|), Min(400, |generated|);
    assert generated[..m] + generated[m..n] == generated[..n];
    var recs := AdviceFromText(generated).recommendations;
    assert recs[0].careInstructions[..m] == generated[..m];
    assert recs[1].careInstructions[..n - m] == generated[m..n];
  }

  /** `generateCropRecommendations`: the fixed-shape advice around the generated text;
      every error is rethrown unchanged. */
  function GenerateCropRecommendations(soil: SoilData, weather: WeatherData, location: string, invoke: TitanInvoker)
    : (r: Settled<CropAdvice>)
    ensures invoke(CropAdviceRequest(soil, weather, location)).Rejected? ==>
              r == Rejected(invoke(CropAdviceRequest(soil, weather, location)).reason)
    ensures invoke(CropAdviceRequest(soil, weather, location)).Fulfilled? ==>
              r == Fulfilled(AdviceFromText(invoke(CropAdviceRequest(soil, weather, location)).value))
  {
    match invoke(CropAdviceRequest(soil, weather, location))
    case Fulfilled(generated) => Fulfilled(AdviceFromText(generated))
    case Rejected(e) => Rejected(e)
  }

  // ---------------------------------------------------------------------------
  // analyzePestImage

  /** The pest analysis the wrapper returns. */
  datatype PestReport = PestReport(
    pestIdentified: string,
    confidence: int,
    severity: string,
    description: string,
    treatment: seq<string>,
    prevention: seq<string>,
    aiAnalysis: string)

  const PestPromptIntro := "Analyze this crop image for pest identification:\n\nCrop Type: "
  const PestPromptRequests := "\nImage: [Base64 image data provided]\n\nPlease identify:\n1. Any pests or diseases visible\n2. Severity level (Low/Medium/High)\n3. Confidence score (0-100%)\n4. Treatment recommendations\n5. Prevention strategies\n6. Expected damage if untreated\n\nProvide detailed analysis in JSON format."

  function PestPrompt(cropType: string): string {
    PestPromptIntro + cropType + PestPromptRequests
  }

  function PestImageRequest(imageBase64: Option<string>, cropType: string): ClaudeRequest {
    ClaudeRequest(ClaudeModel, AnthropicVersion, 1500, None,
                  [ClaudeTurn(User, Blocks([TextBlock(PestPrompt(cropType)), Base64Image("image/jpeg", imageBase64)]))])
  }

  const AphidTreatment := [
    "Apply neem oil spray in early morning or evening",
    "Introduce beneficial insects like ladybugs",
    "Monitor plant weekly for re-infestation"]
  const AphidPrevention := [
    "Maintain proper plant spacing",
    "Regular inspection of plants",
    "Use companion planting strategies"]

  /** The fixed report around the model's analysis text. */
  function ReportFromText(analysis: string): PestReport {
    PestReport("Aphids", 94, "Medium", "Green peach aphids detected on leaf surface",
               AphidTreatment, AphidPrevention, analysis)
  }

  /** `analyzePestImage`: on success the fixed aphid report, carrying the model's text as
      `aiAnalysis`; every error is rethrown unchanged. */
  function AnalyzePestImage(imageBase64: Option<string>, cropType: string, invoke: ClaudeInvoker)
    : (r: Settled<PestReport>)
    ensures invoke(PestImageRequest(imageBase64, cropType)).Rejected? ==>
              r == Rejected(invoke(PestImageRequest(imageBase64, cropType)).reason)
    ensures invoke(PestImageRequest(imageBase64, cropType)).Fulfilled? ==>
              r.Fulfilled? && r.value.aiAnalysis == invoke(PestImageRequest(imageBase64, cropType)).value
  {
    match invoke(PestImageRequest(imageBase64, cropType))
    case Fulfilled(text) => Fulfilled(ReportFromText(text))
    case Rejected(e) => Rejected(e)
  }

  /** Two successful analyses differ at most in `aiAnalysis`: the identification,
      confidence, severity, description, treatment and prevention are fixed. */
  lemma PestReportFixed(image1: Option<string>, crop1: string, invoke1: ClaudeInvoker,
                        image2: Option<string>, crop2: string, invoke2: ClaudeInvoker)
    requires AnalyzePestImage(image1, crop1, invoke1).Fulfilled?
    requires AnalyzePestImage(image2, crop2, invoke2).Fulfilled?
    ensures var a, b := AnalyzePestImage(image1, crop1, invoke1).value, AnalyzePestImage(image2, crop2, invoke2).value;
            a.(aiAnalysis := b.aiAnalysis) == b
    ensures var a := AnalyzePestImage(image1, crop1, invoke1).value;
            a.pestIdentified == "Aphids" && a.confidence == 94 && a.severity == "Medium"
            && |a.treatment| == 3 && |a.prevention| == 3
  {
  }

  // ---------------------------------------------------------------------------
  // generateWeeklyReport

  /** The farm metrics, each as the text it renders to in the prompt; the `...Json`
      fields are the JSON.stringify of the corresponding objects. */
  datatype FarmData = FarmData(
    totalYield: string,
    revenue: string,
    expenses: string,
    cropHealthJson: string,
    weatherJson: string,
    pestDetections: string,
    irrigationJson: string)

  const WeeklyPromptIntro := "Generate a comprehensive weekly farm report based on the following data:\n\nFarm Metrics:\n- Total Yield: "
  const WeeklyPromptRequests := "\n\nPlease provide:\n1. Executive Summary\n2. Key Performance Indicators\n3. Crop-specific analysis\n4. Environmental impact assessment\n5. Recommendations for next week\n6. Risk factors and mitigation strategies\n7. Market insights and pricing trends\n\nFormat as a professional agricultural report."

  function WeeklyPrompt(farm: FarmData): string {
    WeeklyPromptIntro + farm.totalYield + "\n- Revenue: " + farm.revenue + "\n- Expenses: " + farm.expenses
    + "\n- Crop Health Scores: " + farm.cropHealthJson + "\n- Weather Conditions: " + farm.weatherJson
    + "\n- Pest Detections: " + farm.pestDetections + "\n- Irrigation Data: " + farm.irrigationJson
    + WeeklyPromptRequests
  }

  function WeeklyReportRequest(farm: FarmData): TitanRequest {
    TitanRequest(TitanTextModel, WeeklyPrompt(farm), 3000, Decimal(2, 1), Decimal(8, 1))
  }

  /** `generateWeeklyReport`: the generated text; every error is rethrown unchanged. */
  function GenerateWeeklyReport(farm: FarmData, invoke: TitanInvoker): Settled<string> {
    match invoke(WeeklyReportRequest(farm))
    case Fulfilled(text) => Fulfilled(text)
    case Rejected(e) => Rejected(e)
  }

  /** The chat swallows every failure of the model service and answers with the apology. */
  lemma ChatSwallowsErrors(e: Fault, messages: seq<ChatMessage>, context: Option<string>)
    ensures ChatWithClaude(messages, context, _ => Rejected(e)) == ChatApology
  {
  }

  /** The other three operations reject with the very error the model service raised. */
  lemma OperationsRethrow(e: Fault, soil: SoilData, weather: WeatherData, location: string,
                          image: Option<string>, cropType: string, farm: FarmData)
    ensures GenerateCropRecommendations(soil, weather, location, _ => Rejected(e)) == Rejected(e)
    ensures AnalyzePestImage(image, cropType, _ => Rejected(e)) == Rejected(e)
    ensures GenerateWeeklyReport(farm, _ => Rejected(e)) == Rejected(e)
  {
  }

  /** Whatever the report model does, `generateWeeklyReport` settles the same way. */
  lemma WeeklyReportPassesThrough(farm: FarmData, invoke: TitanInvoker)
    ensures GenerateWeeklyReport(farm, invoke) == invoke(WeeklyReportRequest(farm))
  {
  }
}
