/** The order record as the database schema declares it. */
module OrderModel {

  import opened Common

  /** The order lifecycle states. `Accepted` is declared by the schema but no
      operation writes or requires it. */
  datatype OrderStatus = Pending | Accepted | InProgress | Review | Completed | Cancelled

  /** The kinds of content an order can commission. */
  datatype ContentType = Post | Story | Reel | Video | Collaboration

  /** The `status` enum in stored form. */
  const StatusEnum: seq<string> := ["pending", "accepted", "in_progress", "review", "completed", "cancelled"]

  /** The `contentType` enum in stored form. */
  const ContentTypeEnum: seq<string> := ["post", "story", "reel", "video", "collaboration"]

  function StatusName(s: OrderStatus): string
  {
    match s
    case Pending => "pending"
    case Accepted => "accepted"
    case InProgress => "in_progress"
    case Review => "review"
    case Completed => "completed"
    case Cancelled => "cancelled"
  }

  /** Casting a stored string to the enum; anything outside it is rejected. */
  function ParseStatus(name: string): (r: Option<OrderStatus>)
    ensures r.Some? <==> name in StatusEnum
    ensures r.Some? ==> StatusName(r.value) == name
  {
    if name == "pending" then Some(Pending)
    else if name == "accepted" then Some(Accepted)
    else if name == "in_progress" then Some(InProgress)
    else if name == "review" then Some(Review)
    else if name == "completed" then Some(Completed)
    else if name == "cancelled" then Some(Cancelled)
    else None
  }

  /** Every status has a name in the enum that reads back as that status. */
  lemma StatusRoundTrip(s: OrderStatus)
    ensures StatusName(s) in StatusEnum && ParseStatus(StatusName(s)) == Some(s)
  {
  }

  function ContentTypeName(t: ContentType): string
  {
    match t
    case Post => "post"
    case Story => "story"
    case Reel => "reel"
    case Video => "video"
    case Collaboration => "collaboration"
  }

  function ParseContentType(name: string): (r: Option<ContentType>)
    ensures r.Some? <==> name in ContentTypeEnum
    ensures r.Some? ==> ContentTypeName(r.value) == name
  {
    if name == "post" then Some(Post)
    else if name == "story" then Some(Story)
    else if name == "reel" then Some(Reel)
    else if name == "video" then Some(Video)
    else if name == "collaboration" then Some(Collaboration)
    else None
  }

  lemma ContentTypeRoundTrip(t: ContentType)
    ensures ContentTypeName(t) in ContentTypeEnum && ParseContentType(ContentTypeName(t)) == Some(t)
  {
  }

  /** An order document. The three references and `contentType` are required
      (so always present); `deadline` and `paidAt` are optional dates. */
  datatype Order = Order(
    campaignId: Id,
    bloggerId: Id,
    advertiserId: Id,
    contentType: ContentType,
    description: Option<string>,
    requirements: Option<string>,
    deadline: Option<Time>,
    price: int,
    status: OrderStatus,
    paidAt: Option<Time>,
    contentUrls: seq<string>,
    platformUrls: seq<string>)

  /** What saving an order checks beyond its types: `price` has minimum 0. */
  predicate SchemaValid(o: Order)
  {
    o.price >= 0
  }

  /** A new order document: an absent status defaults to pending, the URL lists
      start empty and `paidAt` is unset. */
  function NewOrder(
    campaignId: Id, bloggerId: Id, advertiserId: Id, contentType: ContentType,
    description: Option<string>, requirements: Option<string>, deadline: Option<Time>,
    price: int, status: Option<OrderStatus>): (o: Order)
    ensures o.status == (if status.Some? then status.value else Pending)
    ensures o.paidAt.None? && o.contentUrls == [] && o.platformUrls == []
    ensures o.campaignId == campaignId && o.bloggerId == bloggerId && o.advertiserId == advertiserId
    ensures o.price == price && o.contentType == contentType
    ensures SchemaValid(o) <==> price >= 0
  {
    Order(campaignId, bloggerId, advertiserId, contentType, description, requirements, deadline,
          price, if status.Some? then status.value else Pending, None, [], [])
  }
}
