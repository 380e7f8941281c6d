/**
 * The records the views and stores exchange (src/types/analysis.ts and
 * src/types/home.ts). Numbers are modelled as mathematical integers.
 */
module SkinTypes {
  import opened Wrappers

  /** The six fixed facial zones (`FaceRegion`, and `RegionKey` in the radar chart). */
  datatype Region = Forehead | LeftEye | RightEye | LeftCheek | RightCheek | Lip

  /** The zone on the other side of the face; forehead and lip lie on the midline. */
  function Mirror(r: Region): Region
  {
    match r
    case Forehead => Forehead
    case LeftEye => RightEye
    case RightEye => LeftEye
    case LeftCheek => RightCheek
    case RightCheek => LeftCheek
    case Lip => Lip
  }

  /** `ConditionLevel`: the four levels the backend reports. */
  datatype ConditionLevel = Good | Normal | Low | Bad

  datatype RegionCondition = RegionCondition(kind: string, value: int, level: ConditionLevel)

  datatype RegionView = RegionView(region: Region, conditions: seq<RegionCondition>)

  datatype AnalysisResult = AnalysisResult(
    analysisId: int,
    skinType: string,
    summary: string,
    conditions: seq<RegionCondition>,
    regions: seq<RegionView>)

  datatype SkinStatus = SkinStatus(moisture: int, elasticity: int, pore: int, pigmentation: int)

  datatype Cosmetic = Cosmetic(name: string, brand: Option<string>, imageUrl: Option<string>, link: string)

  datatype RecommendationSection = RecommendationSection(
    category: string, title: string, guide: string, products: seq<Cosmetic>)

  datatype RecentHistory = RecentHistory(analysisId: int, date: string, skinType: string, summary: string)

  /** The home dashboard snapshot: replaced as a whole, never merged. */
  datatype HomeResponse = HomeResponse(
    skinStatus: SkinStatus,
    recommendations: seq<RecommendationSection>,
    recentHistories: seq<RecentHistory>)
}
