/** The campaign record as the database schema declares it, with its budget. */
module CampaignModel {

  import opened Common
  import opened Text

  datatype CampaignStatus = Draft | Active | Paused | Completed | Cancelled

  datatype CampaignType = Product | Service | Brand | Event

  const StatusEnum: seq<string> := ["draft", "active", "paused", "completed", "cancelled"]

  const CampaignTypeEnum: seq<string> := ["product", "service", "brand", "event"]

  function StatusName(s: CampaignStatus): string
  {
    match s
    case Draft => "draft"
    case Active => "active"
    case Paused => "paused"
    case Completed => "completed"
    case Cancelled => "cancelled"
  }

  function ParseStatus(name: string): (r: Option<CampaignStatus>)
    ensures r.Some? <==> name in StatusEnum
    ensures r.Some? ==> StatusName(r.value) == name
  {
    if name == "draft" then Some(Draft)
    else if name == "active" then Some(Active)
    else if name == "paused" then Some(Paused)
    else if name == "completed" then Some(Completed)
    else if name == "cancelled" then Some(Cancelled)
    else None
  }

  lemma StatusRoundTrip(s: CampaignStatus)
    ensures StatusName(s) in StatusEnum && ParseStatus(StatusName(s)) == Some(s)
  {
  }

  function CampaignTypeName(t: CampaignType): string
  {
    match t
    case Product => "product"
    case Service => "service"
    case Brand => "brand"
    case Event => "event"
  }

  function ParseCampaignType(name: string): (r: Option<CampaignType>)
    ensures r.Some? <==> name in CampaignTypeEnum
    ensures r.Some? ==> CampaignTypeName(r.value) == name
  {
    if name == "product" then Some(Product)
    else if name == "service" then Some(Service)
    else if name == "brand" then Some(Brand)
    else if name == "event" then Some(Event)
    else None
  }

  /** Every campaign type has a name in the enum that reads back as that type. */
  lemma CampaignTypeRoundTrip(t: CampaignType)
    ensures CampaignTypeName(t) in CampaignTypeEnum && ParseCampaignType(CampaignTypeName(t)) == Some(t)
  {
  }

  /** The budget sub-document: exactly these three fields, no `spent`.
      `allocatedAmount` is the stored `allocated` (a keyword in Dafny). */
  datatype Budget = Budget(total: int, allocatedAmount: int, perBlogger: Option<int>)

  /** The metrics counters. */
  datatype Metrics = Metrics(totalReach: int, totalEngagement: int, totalClicks: int, roi: int)

  /** A campaign document (audience, requirements and dates are not modelled). */
  datatype Campaign = Campaign(
    advertiserId: Id,
    title: string,
    description: Option<string>,
    campaignType: CampaignType,
    budget: Budget,
    status: CampaignStatus,
    metrics: Metrics)

  /** The money a campaign can still commit to new orders. */
  function Available(b: Budget): int
  {
    b.total - b.allocatedAmount
  }

  /** The ledger's ceiling: no more allocated than the total. */
  predicate WithinBudget(b: Budget)
  {
    b.allocatedAmount <= b.total
  }

  /** What saving a campaign checks beyond its types: a required (non-empty)
      title of at most 100 characters and a description of at most 5000. */
  predicate SchemaValid(c: Campaign)
  {
    c.title != "" && |c.title| <= 100 &&
    (c.description.None? || |c.description.value| <= 5000)
  }

  /** A new campaign document: the title is stored trimmed, `allocated` starts
      at 0, the status defaults to draft and every metric to 0. */
  function NewCampaign(
    advertiserId: Id, title: string, description: Option<string>, campaignType: CampaignType,
    total: int, perBlogger: Option<int>, status: Option<CampaignStatus>): (c: Campaign)
    ensures c.budget == Budget(total, 0, perBlogger) && Available(c.budget) == total
    ensures c.status == (if status.Some? then status.value else Draft)
    ensures c.metrics == Metrics(0, 0, 0, 0)
    ensures c.advertiserId == advertiserId && c.campaignType == campaignType
    ensures c.title == Trim(title)
    ensures WithinBudget(c.budget) <==> total >= 0
  {
    Campaign(advertiserId, Trim(title), description, campaignType, Budget(total, 0, perBlogger),
             if status.Some? then status.value else Draft, Metrics(0, 0, 0, 0))
  }
}
