/** The wrapper around the three hosted prediction endpoints. Each operation sends one
    instance whose keys are snake_case renamings of its input's fields, and never fails:
    when the call throws, it answers with a fixed demo payload instead. */
module SageMakerService {
  import opened Outcomes
  import opened Numbers

  const YieldPredictionEndpoint := "yield-prediction-endpoint"
  const CropRecommendationEndpoint := "crop-recommendation-endpoint"
  const PestDetectionEndpoint := "pest-detection-endpoint"

  /** A field value of a request instance: the caller's data is numbers and strings. */
  datatype JsonValue = JNum(n: Decimal) | JStr(s: string)

  /** One instance object of a request body: its key/value pairs in insertion order. */
  type Instance = seq<(string, JsonValue)>

  /** An InvokeEndpoint call: the endpoint name and the body's `instances` array. */
  datatype EndpointRequest = EndpointRequest(endpointName: string, instances: seq<Instance>)

  function Keys(inst: Instance): (ks: seq<string>)
    ensures |ks| == |inst|
    ensures forall i :: 0 <= i < |inst| ==> ks[i] == inst[i].0
  {
    seq(|inst|, i requires 0 <= i < |inst| => inst[i].0)
  }

  /** No key occurs twice. */
  predicate Distinct(ks: seq<string>) {
    forall i, j :: 0 <= i < j < |ks| ==> ks[i] != ks[j]
  }

  /** The value stored under key, as a property read on the decoded object sees it. */
  function Lookup(inst: Instance, key: string): (r: Option<JsonValue>)
    ensures r.Some? <==> exists i :: 0 <= i < |inst| && inst[i].0 == key
    ensures r.Some? ==> exists i :: 0 <= i < |inst| && inst[i] == (key, r.value)
  {
    if |inst| == 0 then None
    else if inst[0].0 == key then Some(inst[0].1)
    else
      var r := Lookup(inst[1..], key);
      assert forall i :: 1 <= i < |inst| ==> inst[i] == inst[1..][i - 1];
      r
  }

  /** With distinct keys, every key finds its own value. */
  lemma {:induction false} LookupAt(inst: Instance, i: int)
    requires Distinct(Keys(inst))
    requires 0 <= i < |inst|
    ensures Lookup(inst, inst[i].0) == Some(inst[i].1)
  {
    if i > 0 {
      assert Keys(inst)[0] != Keys(inst)[i];
      assert Keys(inst[1..]) == Keys(inst)[1..];
      LookupAt(inst[1..], i - 1);
    }
  }

  // ---------------------------------------------------------------------------
  // predictCropYield

  datatype CropYieldInput = CropYieldInput(
    cropType: JsonValue,
    soilPh: JsonValue,
    soilMoisture: JsonValue,
    temperature: JsonValue,
    humidity: JsonValue,
    rainfall: JsonValue,
    fertilizerUsage: JsonValue,
    areaHectares: JsonValue,
    plantingDate: JsonValue,
    growthStage: JsonValue)

  const YieldKeys := ["crop_type", "soil_ph", "soil_moisture", "temperature", "humidity",
                      "rainfall", "fertilizer_usage", "area_hectares", "planting_date", "growth_stage"]

  function YieldInstance(d: CropYieldInput): Instance {
    [ ("crop_type", d.cropType), ("soil_ph", d.soilPh), ("soil_moisture", d.soilMoisture),
      ("temperature", d.temperature), ("humidity", d.humidity), ("rainfall", d.rainfall),
      ("fertilizer_usage", d.fertilizerUsage), ("area_hectares", d.areaHectares),
      ("planting_date", d.plantingDate), ("growth_stage", d.growthStage) ]
  }

  function YieldRequest(d: CropYieldInput): EndpointRequest {
    EndpointRequest(YieldPredictionEndpoint, [YieldInstance(d)])
  }

  /** Reads a yield input back from an instance, by the snake_case keys. */
  function CropYieldInputOf(inst: Instance): Option<CropYieldInput> {
    match (Lookup(inst, "crop_type"), Lookup(inst, "soil_ph"), Lookup(inst, "soil_moisture"),
           Lookup(inst, "temperature"), Lookup(inst, "humidity"))
    case (Some(a), Some(b), Some(c), Some(d), Some(e)) =>
      (match (Lookup(inst, "rainfall"), Lookup(inst, "fertilizer_usage"), Lookup(inst, "area_hectares"),
              Lookup(inst, "planting_date"), Lookup(inst, "growth_stage"))
       case (Some(f), Some(g), Some(h), Some(i), Some(j)) => Some(CropYieldInput(a, b, c, d, e, f, g, h, i, j))
       case _ => None)
    case _ => None
  }

  /** The yield request is one instance with ten distinct keys. */
  lemma YieldRequestKeys(d: CropYieldInput)
    ensures |YieldRequest(d).instances| == 1
    ensures Keys(YieldInstance(d)) == YieldKeys && |YieldKeys| == 10 && Distinct(YieldKeys)
  {
  }

  /** The input can be read back unchanged from the yield request: the renaming loses
      and confuses no field. */
  lemma YieldRequestReadsBack(d: CropYieldInput)
    ensures CropYieldInputOf(YieldInstance(d)) == Some(d)
  {
    YieldLeadingFields(d);
    YieldTrailingFields(d);
  }

  lemma YieldLeadingFields(d: CropYieldInput)
    ensures var inst := YieldInstance(d);
            && Lookup(inst, "crop_type") == Some(d.cropType) && Lookup(inst, "soil_ph") == Some(d.soilPh)
            && Lookup(inst, "soil_moisture") == Some(d.soilMoisture)
            && Lookup(inst, "temperature") == Some(d.temperature) && Lookup(inst, "humidity") == Some(d.humidity)
  {
    var inst := YieldInstance(d);
    YieldRequestKeys(d);
    LookupAt(inst, 0);
    LookupAt(inst, 1);
    LookupAt(inst, 2);
    LookupAt(inst, 3);
    LookupAt(inst, 4);
  }

  lemma YieldTrailingFields(d: CropYieldInput)
    ensures var inst := YieldInstance(d);
            && Lookup(inst, "rainfall") == Some(d.rainfall) && Lookup(inst, "fertilizer_usage") == Some(d.fertilizerUsage)
            && Lookup(inst, "area_hectares") == Some(d.areaHectares)
            && Lookup(inst, "planting_date") == Some(d.plantingDate) && Lookup(inst, "growth_stage") == Some(d.growthStage)
  {
    var inst := YieldInstance(d);
    YieldRequestKeys(d);
    LookupAt(inst, 5);
    LookupAt(inst, 6);
    LookupAt(inst, 7);
    LookupAt(inst, 8);
    LookupAt(inst, 9);
  }

  /** A prediction of the yield endpoint. */
  datatype YieldPrediction = YieldPrediction(
    predictedYield: Decimal,
    confidence: Decimal,
    contributingFactors: seq<string>,
    recommendations: seq<string>)

  /** What `predictCropYield` returns. */
  datatype YieldForecast = YieldForecast(
    predictedYield: Decimal,
    confidence: Decimal,
    factors: seq<string>,
    recommendations: seq<string>)

  /** The yield endpoint as this code sees it: the `predictions` array of the decoded
      reply, or the error that sending, decoding or reading it threw. */
  type YieldEndpoint = EndpointRequest -> Settled<seq<YieldPrediction>>

  const FallbackForecast := YieldForecast(
    Decimal(452, 1), Decimal(87, 2),
    ["soil_moisture", "temperature", "fertilizer_usage"],
    ["Increase irrigation frequency", "Monitor soil nutrients"])

  /** `predictCropYield`: the first prediction with its fields renamed; when the call fails,
      or there is no first prediction to read fields from, the fixed forecast. */
  function PredictCropYield(d: CropYieldInput, invoke: YieldEndpoint): (r: YieldForecast)
    ensures var reply := invoke(YieldRequest(d));
            reply.Fulfilled? && |reply.value| > 0 ==>
              var p := reply.value[0];
              r == YieldForecast(p.predictedYield, p.confidence, p.contributingFactors, p.recommendations)
    ensures var reply := invoke(YieldRequest(d));
            !(reply.Fulfilled? && |reply.value| > 0) ==> r == FallbackForecast
  {
    match invoke(YieldRequest(d))
    case Fulfilled(ps) =>
      if |ps| == 0 then FallbackForecast
      else YieldForecast(ps[0].predictedYield, ps[0].confidence, ps[0].contributingFactors, ps[0].recommendations)
    case Rejected(_) => FallbackForecast
  }

  // ---------------------------------------------------------------------------
  // getCropRecommendations

  datatype EnvironmentalData = EnvironmentalData(
    soilType: JsonValue,
    phLevel: JsonValue,
    moistureContent: JsonValue,
    temperatureAvg: JsonValue,
    rainfallMm: JsonValue,
    season: JsonValue,
    locationLat: JsonValue,
    locationLng: JsonValue,
    farmSize: JsonValue)

  const EnvironmentalKeys := ["soil_type", "ph_level", "moisture_content", "temperature_avg",
                              "rainfall_mm", "season", "location_lat", "location_lng", "farm_size"]

  function EnvironmentalInstance(d: EnvironmentalData): Instance {
    [ ("soil_type", d.soilType), ("ph_level", d.phLevel), ("moisture_content", d.moistureContent),
      ("temperature_avg", d.temperatureAvg), ("rainfall_mm", d.rainfallMm), ("season", d.season),
      ("location_lat", d.locationLat), ("location_lng", d.locationLng), ("farm_size", d.farmSize) ]
  }

  function CropRecommendationRequest(d: EnvironmentalData): EndpointRequest {
    EndpointRequest(CropRecommendationEndpoint, [EnvironmentalInstance(d)])
  }

  /** Reads environmental data back from an instance, by the snake_case keys. */
  function EnvironmentalDataOf(inst: Instance): Option<EnvironmentalData> {
    match (Lookup(inst, "soil_type"), Lookup(inst, "ph_level"), Lookup(inst, "moisture_content"),
           Lookup(inst, "temperature_avg"), Lookup(inst, "rainfall_mm"))
    case (Some(a), Some(b), Some(c), Some(d), Some(e)) =>
      (match (Lookup(inst, "season"), Lookup(inst, "location_lat"), Lookup(inst, "location_lng"),
              Lookup(inst, "farm_size"))
       case (Some(f), Some(g), Some(h), Some(i)) => Some(EnvironmentalData(a, b, c, d, e, f, g, h, i))
       case _ => None)
    case _ => None
  }

  /** The recommendation request is one instance with nine distinct keys. */
  lemma CropRecommendationRequestKeys(d: EnvironmentalData)
    ensures |CropRecommendationRequest(d).instances| == 1
    ensures Keys(EnvironmentalInstance(d)) == EnvironmentalKeys && |EnvironmentalKeys| == 9
            && Distinct(EnvironmentalKeys)
  {
  }

  /** The input can be read back unchanged from the recommendation request. */
  lemma CropRecommendationRequestReadsBack(d: EnvironmentalData)
    ensures EnvironmentalDataOf(EnvironmentalInstance(d)) == Some(d)
  {
    EnvironmentalLeadingFields(d);
    EnvironmentalTrailingFields(d);
  }

  lemma EnvironmentalLeadingFields(d: EnvironmentalData)
    ensures var inst := EnvironmentalInstance(d);
            && Lookup(inst, "soil_type") == Some(d.soilType) && Lookup(inst, "ph_level") == Some(d.phLevel)
            && Lookup(inst, "moisture_content") == Some(d.moistureContent)
            && Lookup(inst, "temperature_avg") == Some(d.temperatureAvg) && Lookup(inst, "rainfall_mm") == Some(d.rainfallMm)
  {
    var inst := EnvironmentalInstance(d);
    CropRecommendationRequestKeys(d);
    LookupAt(inst, 0);
    LookupAt(inst, 1);
    LookupAt(inst, 2);
    LookupAt(inst, 3);
    LookupAt(inst, 4);
  }

  lemma EnvironmentalTrailingFields(d: EnvironmentalData)
    ensures var inst := EnvironmentalInstance(d);
            && Lookup(inst, "season") == Some(d.season) && Lookup(inst, "location_lat") == Some(d.locationLat)
            && Lookup(inst, "location_lng") == Some(d.locationLng) && Lookup(inst, "farm_size") == Some(d.farmSize)
  {
    var inst := EnvironmentalInstance(d);
    CropRecommendationRequestKeys(d);
    LookupAt(inst, 5);
    LookupAt(inst, 6);
    LookupAt(inst, 7);
    LookupAt(inst, 8);
  }

  /** A crop proposed by the recommendation endpoint. */
  datatype SmCrop = SmCrop(name: string, suitabilityScore: Decimal, expectedYield: Decimal)

  /** A prediction of the recommendation endpoint; `recommendedCrops` may be absent. */
  datatype CropPrediction = CropPrediction(
    recommendedCrops: Option<seq<SmCrop>>,
    riskFactors: seq<string>,
    optimalPlantingDate: string)

  type CropEndpoint = EndpointRequest -> Settled<seq<CropPrediction>>

  const FallbackCropPrediction := CropPrediction(
    Some([ SmCrop("Tomatoes", Decimal(95, 2), Decimal(555, 1)),
           SmCrop("Bell Peppers", Decimal(88, 2), Decimal(321, 1)),
           SmCrop("Lettuce", Decimal(82, 2), Decimal(287, 1)) ]),
    ["pest_pressure", "weather_variability"],
    "2024-03-15")

  /** `getCropRecommendations`: `predictions[0]`, which is `undefined` (None) when the
      endpoint predicts nothing; when the call fails, the fixed demo prediction. */
  function GetCropRecommendations(d: EnvironmentalData, invoke: CropEndpoint): (r: Option<CropPrediction>)
    ensures invoke(CropRecommendationRequest(d)).Rejected? ==> r == Some(FallbackCropPrediction)
    ensures var reply := invoke(CropRecommendationRequest(d));
            reply.Fulfilled? ==> (r.Some? <==> |reply.value| > 0) && (r.Some? ==> r.value == reply.value[0])
  {
    match invoke(CropRecommendationRequest(d))
    case Fulfilled(ps) => if |ps| == 0 then None else Some(ps[0])
    case Rejected(_) => Some(FallbackCropPrediction)
  }

  /** The demo prediction proposes three crops, in a fixed order, each with a suitability
      score between 0 and 1. */
  lemma FallbackCropsInRange()
    ensures var crops := FallbackCropPrediction.recommendedCrops;
            && crops.Some? && |crops.value| == 3
            && crops.value[0].name == "Tomatoes" && crops.value[1].name == "Bell Peppers"
            && crops.value[2].name == "Lettuce"
            && forall i :: 0 <= i < 3 ==> 0.0 <= ToReal(crops.value[i].suitabilityScore) <= 1.0
  {
  }

  // ---------------------------------------------------------------------------
  // detectPests

  /** A pest found by the detection endpoint; the empty name and severity stand for
      absent ones, which the callers treat alike. */
  datatype DetectedPest = DetectedPest(
    pestName: string,
    confidence: Option<Decimal>,
    boundingBox: seq<int>,
    severity: string)

  /** A prediction of the detection endpoint; each part may be absent. */
  datatype PestPrediction = PestPrediction(
    detectedPests: Option<seq<DetectedPest>>,
    plantHealthScore: Option<Decimal>,
    treatmentRecommendations: Option<seq<string>>)

  type PestEndpoint = EndpointRequest -> Settled<seq<PestPrediction>>

  /** The instance for an image; an absent image drops the `image_data` key, as
      JSON.stringify drops `undefined` members. */
  function DetectInstance(imageBase64: Option<string>): Instance {
    (if imageBase64.Some? then [("image_data", JStr(imageBase64.value))] else [])
    + [("image_format", JStr("jpeg"))]
  }

  function PestDetectionRequest(imageBase64: Option<string>): EndpointRequest {
    EndpointRequest(PestDetectionEndpoint, [DetectInstance(imageBase64)])
  }

  /** The detection request carries the image exactly as given, and always the format. */
  lemma PestDetectionRequestCarriesImage(imageBase64: Option<string>)
    ensures |PestDetectionRequest(imageBase64).instances| == 1
    ensures Lookup(DetectInstance(imageBase64), "image_data") ==
              (if imageBase64.Some? then Some(JStr(imageBase64.value)) else None)
    ensures Lookup(DetectInstance(imageBase64), "image_format") == Some(JStr("jpeg"))
  {
  }

  const FallbackPestPrediction := PestPrediction(
    Some([DetectedPest("Aphids", Some(Decimal(94, 2)), [120, 80, 200, 160], "medium")]),
    Some(Decimal(72, 2)),
    Some(["Apply neem oil spray", "Introduce beneficial insects", "Monitor weekly"]))

  /** `detectPests`: `predictions[0]`, None when the endpoint predicts nothing; when the
      call fails, the fixed demo detection. */
  function DetectPests(imageBase64: Option<string>, invoke: PestEndpoint): (r: Option<PestPrediction>)
    ensures invoke(PestDetectionRequest(imageBase64)).Rejected? ==> r == Some(FallbackPestPrediction)
    ensures var reply := invoke(PestDetectionRequest(imageBase64));
            reply.Fulfilled? ==> (r.Some? <==> |reply.value| > 0) && (r.Some? ==> r.value == reply.value[0])
  {
    match invoke(PestDetectionRequest(imageBase64))
    case Fulfilled(ps) => if |ps| == 0 then None else Some(ps[0])
    case Rejected(_) => Some(FallbackPestPrediction)
  }

  /** The demo detection holds exactly one pest, aphids at confidence 0.94 and severity
      `medium`, on a plant of health 0.72. */
  lemma FallbackPestShape()
    ensures var pests := FallbackPestPrediction.detectedPests;
            && pests.Some? && |pests.value| == 1
            && pests.value[0].pestName == "Aphids"
            && pests.value[0].confidence == Some(Decimal(94, 2)) && ToReal(Decimal(94, 2)) == 0.94
            && pests.value[0].severity == "medium"
            && FallbackPestPrediction.plantHealthScore == Some(Decimal(72, 2))
  {
  }

  /** A failing endpoint never makes an operation fail: each answers with its demo payload. */
  lemma FallbacksOnFailure(e: Fault, y: CropYieldInput, env: EnvironmentalData, image: Option<string>)
    ensures PredictCropYield(y, _ => Rejected(e)) == FallbackForecast
    ensures GetCropRecommendations(env, _ => Rejected(e)) == Some(FallbackCropPrediction)
    ensures DetectPests(image, _ => Rejected(e)) == Some(FallbackPestPrediction)
  {
  }
}
