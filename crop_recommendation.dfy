/** The crop recommendation page: it asks the text model for advice, then the
    recommendation endpoint for more crops, shows at most four entries (the text model's
    first) and an insights paragraph, and falls back to two fixed cards when anything
    on the way throws. */
module CropRecommendation {
  import opened Outcomes
  import opened Numbers
  import opened Seqs
  import opened BedrockService
  import opened SageMakerService

  /** The picture of a card: a fixed stock photo, or one whose ids `Math.random` picks. */
  datatype ImageRef = Stock(url: string) | RandomStock

  /** An entry of the page's list: an entry of the text model's advice exactly as it came
      (keyed `crop`, no profit, no benefits), or a card of the page's own shape. */
  datatype Recommendation =
    | Advised(advice: AdvisedCrop)
    | Card(name: string, suitability: int, expectedYield: string, profit: string,
           season: string, benefits: seq<string>, image: ImageRef)

  const ShownLimit := 4
  const EndpointBenefits := ["AI-optimized", "High yield potential", "Market demand"]
  const DefaultInsights := "AI analysis completed successfully."
  const FallbackInsights := "Using cached recommendations. Please check your AWS configuration for live AI analysis."

  const TomatoPhoto := "https://images.pexels.com/photos/1327838/pexels-photo-1327838.jpeg?auto=compress&cs=tinysrgb&w=400"
  const PepperPhoto := "https://images.pexels.com/photos/1300972/pexels-photo-1300972.jpeg?auto=compress&cs=tinysrgb&w=400"
  const TomatoBenefits := ["High market demand", "Good storage life", "Multiple harvests"]
  const PepperBenefits := ["Premium pricing", "Export potential", "Greenhouse compatible"]
  const FallbackRecommendations := [
    Card("Tomatoes", 95, "45-60 tons/ha", "$8,500/ha", "Summer",
         TomatoBenefits,
         Stock(TomatoPhoto)),
    Card("Bell Peppers", 85, "25-35 tons/ha", "$6,200/ha", "Summer",
         PepperBenefits,
         Stock(PepperPhoto))]

  /** `JSON.stringify` of the fixed nutrient levels. */
  const NutrientsJson := "{\"nitrogen\":\"high\",\"phosphorus\":\"medium\",\"potassium\":\"high\"}"

  /** The soil sent to the text model for the selected soil type. */
  function SoilFor(soilType: string): SoilData {
    SoilData(soilType, Decimal(68, 1), Decimal(68, 0), NutrientsJson)
  }

  /** The weather sent to the text model for the selected season. */
  function WeatherFor(season: string): WeatherData {
    WeatherData(Decimal(24, 0), Decimal(72, 0), Decimal(150, 0), season)
  }

  /** The data sent to the recommendation endpoint for the selected soil type and season. */
  function EnvironmentFor(soilType: string, season: string): EnvironmentalData {
    EnvironmentalData(JStr(soilType), JNum(Decimal(68, 1)), JNum(Decimal(68, 0)), JNum(Decimal(24, 0)),
                      JNum(Decimal(150, 0)), JStr(season), JNum(Decimal(407128, 4)),
                      JNum(Decimal(-74006, 3)), JNum(Decimal(10, 0)))
  }

  /** The card for a crop the endpoint proposed; `formatLocale` is `toLocaleString`. */
  function ToCard(crop: SmCrop, season: string, formatLocale: Decimal -> string): Recommendation {
    Card(crop.name, Round(ToReal(crop.suitabilityScore) * 100.0),
         DecimalToString(crop.expectedYield) + " tons/ha",
         "$" + formatLocale(Times(crop.expectedYield, 1000)) + "/ha",
         season, EndpointBenefits, RandomStock)
  }

  function ToCards(crops: seq<SmCrop>, season: string, formatLocale: Decimal -> string): (cards: seq<Recommendation>)
    ensures |cards| == |crops|
    ensures forall i :: 0 <= i < |crops| ==> cards[i] == ToCard(crops[i], season, formatLocale)
  {
    seq(|crops|, i requires 0 <= i < |crops| => ToCard(crops[i], season, formatLocale))
  }

  function AdvisedEntries(advice: CropAdvice): (entries: seq<Recommendation>)
    ensures |entries| == |advice.recommendations|
    ensures forall i :: 0 <= i < |entries| ==> entries[i] == Advised(advice.recommendations[i])
  {
    seq(|advice.recommendations|, i requires 0 <= i < |advice.recommendations| => Advised(advice.recommendations[i]))
  }

  /** The list shown: the advice's entries, then the endpoint's cards, cut to four. */
  function Merge(advice: CropAdvice, crops: seq<SmCrop>, season: string, formatLocale: Decimal -> string)
    : seq<Recommendation>
  {
    TakeFirst(AdvisedEntries(advice) + ToCards(crops, season, formatLocale), ShownLimit)
  }

  /** The insights shown: the advice's text when it is not empty, else a fixed line. */
  function InsightsOf(advice: CropAdvice): string {
    if advice.aiInsights != "" then advice.aiInsights else DefaultInsights
  }

  /** The two writes the handler makes, to the list and to the insights. */
  datatype Refresh = Refresh(recommendations: seq<Recommendation>, insights: string)

  /** What the handler writes, given how both calls settle: the merge when the text
      model answered and the endpoint's first prediction has a crop list; the fallback
      when anything threw, which includes reading the crops of a missing prediction or a
      missing list. */
  function RefreshFor(bedrock: Settled<CropAdvice>, endpoint: Settled<Option<CropPrediction>>,
                      season: string, formatLocale: Decimal -> string): Refresh
  {
    match bedrock
    case Rejected(_) => Refresh(FallbackRecommendations, FallbackInsights)
    case Fulfilled(advice) =>
      if endpoint.Fulfilled? && endpoint.value.Some? && endpoint.value.value.recommendedCrops.Some? then
        Refresh(Merge(advice, endpoint.value.value.recommendedCrops.value, season, formatLocale), InsightsOf(advice))
      else
        Refresh(FallbackRecommendations, FallbackInsights)
  }

  /** The list never holds more than four entries; it is the advice's entries followed by
      the endpoint's cards, in their own order, with no re-ranking: position i holds the
      i-th advice entry while there are any, and then the cards in turn. */
  lemma MergeOrder(advice: CropAdvice, crops: seq<SmCrop>, season: string, formatLocale: Decimal -> string)
    ensures var shown, n := Merge(advice, crops, season, formatLocale), |advice.recommendations|;
            && |shown| == Min(ShownLimit, n + |crops|)
            && (forall i :: 0 <= i < |shown| && i < n ==> shown[i] == Advised(advice.recommendations[i]))
            && (forall i :: n <= i < |shown| ==> shown[i] == ToCard(crops[i - n], season, formatLocale))
  {
    var all := AdvisedEntries(advice) + ToCards(crops, season, formatLocale);
    assert forall i :: |advice.recommendations| <= i < |all| ==>
      all[i] == ToCards(crops, season, formatLocale)[i - |advice.recommendations|];
  }

  /** A card takes the crop's name and `Math.round(score * 100)`, shows the yield in tons
      per hectare, the locale-formatted yield times 1000 as the profit per hectare, the
      selected season and the three fixed benefit tags. */
  lemma CardFields(crop: SmCrop, season: string, formatLocale: Decimal -> string)
    ensures var card := ToCard(crop, season, formatLocale);
            && card.Card? && card.name == crop.name
            && card.suitability as real - 0.5 <= ToReal(crop.suitabilityScore) * 100.0 < card.suitability as real + 0.5
            && card.expectedYield == DecimalToString(crop.expectedYield) + " tons/ha"
            && (var thousandfold := Times(crop.expectedYield, 1000);
                ToReal(thousandfold) == ToReal(crop.expectedYield) * 1000.0
                && card.profit == "$" + formatLocale(thousandfold) + "/ha")
            && card.season == season && card.benefits == EndpointBenefits && card.image == RandomStock
  {
  }

  /** The code does not clamp: a suitability lies within [0, 100] exactly when the score
      lies within [-0.005, 1.005), the scores that round into that range; a score of
      1.005 or more gives more than 100, and one below -0.005 gives less than 0. */
  lemma SuitabilityRange(crop: SmCrop, season: string, formatLocale: Decimal -> string)
    ensures var s, x := ToCard(crop, season, formatLocale).suitability, ToReal(crop.suitabilityScore);
            && (0 <= s <= 100 <==> -0.005 <= x < 1.005)
            && (s > 100 <==> x >= 1.005)
            && (s < 0 <==> x < -0.005)
  {
  }

  /** The insights are the advice's text exactly when it is not empty. */
  lemma InsightsChoice(advice: CropAdvice)
    ensures advice.aiInsights != "" ==> InsightsOf(advice) == advice.aiInsights
    ensures advice.aiInsights == "" ==> InsightsOf(advice) == DefaultInsights
    ensures InsightsOf(advice) != ""
  {
  }

  /** When the text model fails, the page shows the two fixed cards, Tomatoes at 95 and
      Bell Peppers at 85, both for summer whatever season was selected, whatever the
      endpoint would have said. */
  lemma FallbackOnBedrockFailure(e: Fault, endpoint: Settled<Option<CropPrediction>>,
                                 season: string, formatLocale: Decimal -> string)
    ensures var r := RefreshFor(Rejected(e), endpoint, season, formatLocale);
            && r.insights == FallbackInsights
            && |r.recommendations| == 2
            && r.recommendations[0].Card? && r.recommendations[0].name == "Tomatoes"
            && r.recommendations[0].suitability == 95 && r.recommendations[0].profit == "$8,500/ha"
            && r.recommendations[1].Card? && r.recommendations[1].name == "Bell Peppers"
            && r.recommendations[1].suitability == 85 && r.recommendations[1].profit == "$6,200/ha"
            && r.recommendations[0].season == "Summer" && r.recommendations[1].season == "Summer"
  {
  }

  /** An endpoint prediction without a crop list, or no prediction at all, sends the page
      to the same fallback as a failing text model. */
  lemma FallbackOnMissingCrops(advice: CropAdvice, endpoint: Settled<Option<CropPrediction>>,
                               season: string, formatLocale: Decimal -> string)
    requires endpoint.Fulfilled? ==> endpoint.value.None? || endpoint.value.value.recommendedCrops.None?
    ensures RefreshFor(Fulfilled(advice), endpoint, season, formatLocale) ==
            Refresh(FallbackRecommendations, FallbackInsights)
  {
  }

  /** The endpoint's demo crops become cards for Tomatoes at 95 and Bell Peppers at 88. */
  lemma FallbackCropCards(season: string, formatLocale: Decimal -> string)
    ensures var crops := FallbackCropPrediction.recommendedCrops.value;
            var c0, c1 := ToCard(crops[0], season, formatLocale), ToCard(crops[1], season, formatLocale);
            |crops| == 3 && c0.name == "Tomatoes" && c0.suitability == 95
            && c1.name == "Bell Peppers" && c1.suitability == 88
  {
    FallbackCropsInRange();
  }

  /** With the real text wrapper in place the page never shows an empty list, and never
      more than four entries, whatever either service does: a failure gives the two
      fallback cards, and an answer gives at least the advice's two entries. */
  lemma ShownCount(soil: SoilData, weather: WeatherData, region: string, invoke: TitanInvoker,
                   endpoint: Settled<Option<CropPrediction>>, season: string,
                   formatLocale: Decimal -> string)
    ensures var shown := RefreshFor(GenerateCropRecommendations(soil, weather, region, invoke),
                                    endpoint, season, formatLocale).recommendations;
            2 <= |shown| <= ShownLimit
  {
    match invoke(CropAdviceRequest(soil, weather, region))
    case Rejected(_) =>
    case Fulfilled(generated) =>
      AdviceShape(generated);
      if endpoint.Fulfilled? && endpoint.value.Some? && endpoint.value.value.recommendedCrops.Some? {
        MergeOrder(AdviceFromText(generated), endpoint.value.value.recommendedCrops.value, season, formatLocale);
      }
  }

  /** With the two real services in place, a text model that answers at all gives its
      two fixed entries first; when the endpoint is down, its demo crops follow, so the
      page shows Tomatoes and Bell Peppers twice, the second time at 95 and 88. */
  lemma ShownWhenEndpointDown(generated: string, e: Fault, soil: SoilData, weather: WeatherData,
                              region: string, env: EnvironmentalData, season: string,
                              formatLocale: Decimal -> string)
    ensures var advice := GenerateCropRecommendations(soil, weather, region, _ => Fulfilled(generated));
            var endpoint := Fulfilled(GetCropRecommendations(env, _ => Rejected(e)));
            var shown := RefreshFor(advice, endpoint, season, formatLocale).recommendations;
            && |shown| == 4
            && shown[0].Advised? && shown[0].advice.crop == "Tomatoes"
            && shown[1].Advised? && shown[1].advice.crop == "Bell Peppers"
            && shown[2].Card? && shown[2].name == "Tomatoes" && shown[2].suitability == 95
            && shown[3].Card? && shown[3].name == "Bell Peppers" && shown[3].suitability == 88
  {
    var advice := AdviceFromText(generated);
    AdviceShape(generated);
    var crops := FallbackCropPrediction.recommendedCrops.value;
    MergeOrder(advice, crops, season, formatLocale);
    FallbackCropCards(season, formatLocale);
    var shown := Merge(advice, crops, season, formatLocale);
    assert shown[2] == ToCard(crops[0], season, formatLocale);
    assert shown[3] == ToCard(crops[1], season, formatLocale);
  }

  /** What the handler does, in order. */
  datatype Event = LoadingSet(value: bool) | AskedTextModel | AskedEndpoint

  /** The page's state. */
  class CropAdvisor {
    var selectedSoilType: string
    var selectedSeason: string
    var selectedRegion: string
    var recommendations: seq<Recommendation>
    var isLoading: bool
    var aiInsights: string
    /** The flag writes and service calls the handler has made, oldest first. */
    ghost var events: seq<Event>

    constructor()
      ensures selectedSoilType == "loamy" && selectedSeason == "summer" && selectedRegion == "temperate"
      ensures recommendations == [] && !isLoading && aiInsights == "" && events == []
    {
      selectedSoilType := "loamy";
      selectedSeason := "summer";
      selectedRegion := "temperate";
      recommendations := [];
      isLoading := false;
      aiInsights := "";
      events := [];
    }

    /** `generateRecommendations`: the loading flag goes up before the calls and down at
        the end on every path; the list and insights become what RefreshFor says; the
        endpoint is asked only once the text model has answered. */
    method GenerateRecommendations(
      advise: (SoilData, WeatherData, string) -> Settled<CropAdvice>,
      recommend: EnvironmentalData -> Settled<Option<CropPrediction>>,
      formatLocale: Decimal -> string)
      modifies this
      ensures selectedSoilType == old(selectedSoilType) && selectedSeason == old(selectedSeason)
      ensures selectedRegion == old(selectedRegion)
      ensures var bedrock := advise(SoilFor(selectedSoilType), WeatherFor(selectedSeason), selectedRegion);
              var out := RefreshFor(bedrock, recommend(EnvironmentFor(selectedSoilType, selectedSeason)),
                                    selectedSeason, formatLocale);
              && recommendations == out.recommendations && aiInsights == out.insights
              && events == old(events) + [LoadingSet(true), AskedTextModel]
                           + (if bedrock.Fulfilled? then [AskedEndpoint] else []) + [LoadingSet(false)]
      ensures !isLoading
    {
      ghost var log := events;
      isLoading := true;
      log := log + [LoadingSet(true)];
      var soil, weather := SoilFor(selectedSoilType), WeatherFor(selectedSeason);
      var bedrockResponse := advise(soil, weather, selectedRegion);
      log := log + [AskedTextModel];
      var failed := true;
      if bedrockResponse.Fulfilled? {
        var sageMakerResponse := recommend(EnvironmentFor(selectedSoilType, selectedSeason));
        log := log + [AskedEndpoint];
        if sageMakerResponse.Fulfilled? && sageMakerResponse.value.Some?
           && sageMakerResponse.value.value.recommendedCrops.Some? {
          var crops := sageMakerResponse.value.value.recommendedCrops.value;
          recommendations := Merge(bedrockResponse.value, crops, selectedSeason, formatLocale);
          aiInsights := InsightsOf(bedrockResponse.value);
          failed := false;
        }
      }
      if failed {
        recommendations := FallbackRecommendations;
        aiInsights := FallbackInsights;
      }
      isLoading := false;
      log := log + [LoadingSet(false)];
      events := log;
    }
  }
}
