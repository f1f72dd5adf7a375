/** Record types of the portfolio side: assets and the three allocation views. */
module PortfolioTypes {

  datatype Option<+T> = None | Some(value: T) {
    function GetOr(default: T): T {
      match this
      case Some(v) => v
      case None => default
    }
  }

  /** The four asset kinds; `Sipp` is the self-invested personal pension wrapper. */
  datatype AssetType = Stock | Fund | Sipp | Cash

  /** The six-step risk scale, used both for an asset's risk profile and for its pot. */
  datatype RiskProfile =
    | VeryCautious
    | ModeratelyCautious
    | Balanced
    | ModeratelyAdventurous
    | Adventurous
    | VeryAdventurous

  /** The string literal the source uses for an asset type (and so as a grouping key). */
  function AssetTypeName(t: AssetType): string {
    match t
    case Stock => "stock"
    case Fund => "fund"
    case Sipp => "sipp"
    case Cash => "cash"
  }

  /** The string literal the source uses for a risk profile or pot. */
  function RiskProfileName(p: RiskProfile): string {
    match p
    case VeryCautious => "very-cautious"
    case ModeratelyCautious => "moderately-cautious"
    case Balanced => "balanced"
    case ModeratelyAdventurous => "moderately-adventurous"
    case Adventurous => "adventurous"
    case VeryAdventurous => "very-adventurous"
  }

  /** A held asset; `allocation` is the optional percentage of the portfolio it makes up. */
  datatype Asset = Asset(
    id: string,
    name: string,
    value: real,
    assetType: AssetType,
    riskProfile: RiskProfile,
    pot: RiskProfile,
    allocation: Option<real>)

  /** A portfolio snapshot. The source also stamps it with the clock; that field is not modelled. */
  datatype Portfolio = Portfolio(
    totalValue: real,
    assets: seq<Asset>,
    riskProfile: Option<RiskProfile>)

  /** One group of the by-type view; `assetType` holds the display label. */
  datatype AssetAllocation = AssetAllocation(
    assetType: string,
    value: real,
    percentage: real,
    color: string)

  /** One group of the by-risk view; `riskProfile` holds the display label. */
  datatype RiskAllocation = RiskAllocation(
    riskProfile: string,
    value: real,
    percentage: real,
    color: string)

  /** One group of the by-pot view, with the assets that belong to it. */
  datatype PotAllocation = PotAllocation(
    pot: string,
    value: real,
    percentage: real,
    color: string,
    assets: seq<Asset>)
}
