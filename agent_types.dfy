/** The catalog's records: an agent, the filter criteria and a partial
    update of them. */
module AgentTypes {
  import opened Wrappers

  datatype Status = Active | Beta | Archived

  datatype PricingModel = Subscription | PerUse | FreeTier

  /** The string an agent's status is at run time, which is what the filter
      lists (lists of strings) are compared with. */
  function StatusName(s: Status): string {
    match s
    case Active => "Active"
    case Beta => "Beta"
    case Archived => "Archived"
  }

  function PricingName(p: PricingModel): string {
    match p
    case Subscription => "Subscription"
    case PerUse => "Per-Use"
    case FreeTier => "Free Tier"
  }

  datatype Agent = Agent(
    id: string,
    name: string,
    description: string,
    status: Status,
    category: string,
    pricingModel: PricingModel)

  /** Filter criteria. `status` and `category` are lists (not sets) and
      `pricingModel` is a plain string where "" means "any". */
  datatype AgentFilters = AgentFilters(
    search: string,
    status: seq<string>,
    category: seq<string>,
    pricingModel: string)

  const DefaultFilters := AgentFilters("", [], [], "")

  /** `Partial<AgentFilters>`: a field that is `None` is absent from the object. */
  datatype FiltersPatch = FiltersPatch(
    search: Option<string>,
    status: Option<seq<string>>,
    category: Option<seq<string>>,
    pricingModel: Option<string>)
}
