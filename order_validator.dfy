/** The input rules of the order routes: order creation, content submission,
    rejection, and the order-list query. Each rule chain yields the error
    entries it records; an empty list lets the request reach its handler. */
module OrderValidator {

  import opened Common
  import opened Text
  import opened Validation
  import OrderModel

  /** The content kinds the creation rules accept. */
  const ContentTypes: seq<string> := ["post", "story", "reel", "video", "collaboration"]

  /** The statuses the list query accepts. */
  const Statuses: seq<string> := ["pending", "accepted", "in_progress", "review", "completed", "cancelled"]

  /** Price bounds of the creation rules. */
  const MinPrice := 100
  const MaxPrice := 1_000_000

  /** The body of an order-creation request; `None` is a field left out. */
  datatype CreateOrderBody = CreateOrderBody(
    campaignId: Option<string>,
    bloggerId: Option<string>,
    contentType: Option<string>,
    description: Option<string>,
    requirements: Option<string>,
    deadline: Option<string>,
    price: Option<int>)

  /** A required, well-formed id field. */
  predicate WellFormedId(v: Option<string>, ext: Externals)
  {
    v.Some? && v.value != "" && ext.isObjectId(v.value)
  }

  /** `notEmpty()` followed by the custom `ObjectId.isValid` check. Both run
      on an absent field, so a missing id records two entries. */
  function IdErrors(field: string, v: Option<string>, ext: Externals): (r: seq<FieldError>)
    ensures r == [] <==> WellFormedId(v, ext)
    ensures forall e :: e in r ==> e.field == field
  {
    Check(Present(v), field, Required) + Check(v.Some? && ext.isObjectId(v.value), field, MalformedId)
  }

  /** `notEmpty()` then `isIn` over the content kinds. */
  function ContentTypeErrors(v: Option<string>): (r: seq<FieldError>)
    ensures r == [] <==> v.Some? && v.value in ContentTypes
    ensures forall e :: e in r ==> e.field == "contentType"
  {
    Check(Present(v), "contentType", Required) + Check(OrEmpty(v) in ContentTypes, "contentType", NotAllowed)
  }

  /** The custom deadline check: an error only when the value denotes an
      instant before `now`; an invalid date compares false and passes it. */
  predicate DeadlineNotPast(v: Option<string>, ext: Externals, now: Time)
  {
    v.None? || ext.dateOf(v.value).None? || ext.dateOf(v.value).value >= now
  }

  /** `notEmpty()`, `isISO8601()`, then the custom not-in-the-past check. */
  function DeadlineErrors(v: Option<string>, ext: Externals, now: Time): (r: seq<FieldError>)
    ensures r == [] <==> v.Some? && v.value != "" && ext.isIso8601(v.value) && DeadlineNotPast(v, ext, now)
    ensures forall e :: e in r ==> e.field == "deadline"
  {
    Check(Present(v), "deadline", Required) +
    Check(ext.isIso8601(OrEmpty(v)), "deadline", NotIso8601) +
    Check(DeadlineNotPast(v, ext, now), "deadline", InPast)
  }

  /** `notEmpty()`, `isFloat({min: 100})`, then the custom ceiling check, which
      an absent price passes. */
  function PriceErrors(v: Option<int>): (r: seq<FieldError>)
    ensures r == [] <==> v.Some? && MinPrice <= v.value <= MaxPrice
    ensures forall e :: e in r ==> e.field == "price"
  {
    Check(v.Some?, "price", Required) +
    Check(v.Some? && v.value >= MinPrice, "price", BelowMinimum) +
    Check(v.None? || v.value <= MaxPrice, "price", AboveMaximum)
  }

  /** The admissible creation bodies, stated field by field. */
  predicate CreateOrderAdmissible(b: CreateOrderBody, ext: Externals, now: Time)
  {
    PartiesAdmissible(b, ext) && TermsAdmissible(b, ext, now)
  }

  /** Who and what the order is for: both ids and the content kind. */
  predicate PartiesAdmissible(b: CreateOrderBody, ext: Externals)
  {
    && WellFormedId(b.campaignId, ext)
    && WellFormedId(b.bloggerId, ext)
    && b.contentType.Some? && b.contentType.value in ContentTypes
  }

  /** The terms of the order: the texts, the deadline and the price. */
  predicate TermsAdmissible(b: CreateOrderBody, ext: Externals, now: Time)
  {
    TextsAdmissible(b) && ScheduleAdmissible(b, ext, now)
  }

  /** The optional texts, measured once trimmed. */
  predicate TextsAdmissible(b: CreateOrderBody)
  {
    && (b.description.None? || 10 <= DisplayLength(Trim(b.description.value)) <= 2000)
    && (b.requirements.None? || DisplayLength(Trim(b.requirements.value)) <= 1000)
  }

  /** The deadline and the price. */
  predicate ScheduleAdmissible(b: CreateOrderBody, ext: Externals, now: Time)
  {
    && b.deadline.Some? && b.deadline.value != "" && ext.isIso8601(b.deadline.value)
    && DeadlineNotPast(b.deadline, ext, now)
    && b.price.Some? && MinPrice <= b.price.value <= MaxPrice
  }

  const CreateOrderFields: seq<string> :=
    ["campaignId", "bloggerId", "contentType", "description", "requirements", "deadline", "price"]

  /** The chains for `campaignId`, `bloggerId` and `contentType`. */
  function PartyErrors(b: CreateOrderBody, ext: Externals): (r: seq<FieldError>)
    ensures r == [] <==> PartiesAdmissible(b, ext)
    ensures forall e :: e in r ==> e.field in CreateOrderFields
  {
    IdErrors("campaignId", b.campaignId, ext) +
    IdErrors("bloggerId", b.bloggerId, ext) +
    ContentTypeErrors(b.contentType)
  }

  /** The chains for `description` and `requirements`. */
  function TextErrors(b: CreateOrderBody): (r: seq<FieldError>)
    ensures r == [] <==> TextsAdmissible(b)
    ensures forall e :: e in r ==> e.field in CreateOrderFields
  {
    var description := OptionalTrimmedLength(b.description, 10, 2000);
    var requirements := OptionalTrimmedLength(b.requirements, 0, 1000);
    assert description && requirements <==> TextsAdmissible(b);
    Check(description, "description", LengthOutOfRange) +
    Check(requirements, "requirements", LengthOutOfRange)
  }

  /** The chains for `deadline` and `price`. */
  function ScheduleErrors(b: CreateOrderBody, ext: Externals, now: Time): (r: seq<FieldError>)
    ensures r == [] <==> ScheduleAdmissible(b, ext, now)
    ensures forall e :: e in r ==> e.field in CreateOrderFields
  {
    DeadlineErrors(b.deadline, ext, now) + PriceErrors(b.price)
  }

  /** `validateCreateOrder`: every check of every chain, in order. */
  function CreateOrderErrors(b: CreateOrderBody, ext: Externals, now: Time): (r: seq<FieldError>)
    ensures r == [] <==> CreateOrderAdmissible(b, ext, now)
    ensures forall e :: e in r ==> e.field in CreateOrderFields
  {
    PartyErrors(b, ext) + TextErrors(b) + ScheduleErrors(b, ext, now)
  }

  /** Changing only the price of an admissible body: the bounds are inclusive,
      and each side of them is reported by exactly one entry. */
  lemma PriceBoundaries(b: CreateOrderBody, ext: Externals, now: Time, p: int)
    requires CreateOrderAdmissible(b, ext, now)
    ensures CreateOrderErrors(b.(price := Some(p)), ext, now) ==
      if p < MinPrice then [FieldError("price", BelowMinimum)]
      else if p > MaxPrice then [FieldError("price", AboveMaximum)]
      else []
  {
    var b' := b.(price := Some(p));
    assert IdErrors("campaignId", b'.campaignId, ext) == [];
    assert IdErrors("bloggerId", b'.bloggerId, ext) == [];
  }

  /** A missing price fails both `notEmpty` and `isFloat`: one entry per failing check. */
  lemma MissingPriceReportedTwice(b: CreateOrderBody, ext: Externals, now: Time)
    requires CreateOrderAdmissible(b, ext, now)
    ensures CreateOrderErrors(b.(price := None), ext, now) ==
      [FieldError("price", Required), FieldError("price", BelowMinimum)]
  {
    var b' := b.(price := None);
    assert IdErrors("campaignId", b'.campaignId, ext) == [];
    assert IdErrors("bloggerId", b'.bloggerId, ext) == [];
  }

  /** The rules' content kinds are exactly the schema's enum, and an admitted
      body always carries a price the schema's minimum accepts. */
  lemma AdmittedBodyFitsSchema(b: CreateOrderBody, ext: Externals, now: Time)
    requires CreateOrderAdmissible(b, ext, now)
    ensures OrderModel.ParseContentType(b.contentType.value).Some?
    ensures b.price.value >= 0
  {
  }

  /** The body of a submission: the content URLs and the platform URLs, each
      an array or left out. */
  datatype SubmitOrderBody = SubmitOrderBody(contentUrls: Option<seq<string>>, platformUrls: Option<seq<string>>)

  predicate AllUrls(urls: seq<string>, isUrl: string -> bool)
  {
    forall k :: 0 <= k < |urls| ==> isUrl(urls[k])
  }

  /** A wildcard rule `field.*` with `isURL()`, from index `from` on: exactly
      one entry per element that is not a URL, under the element's path
      `field[k]`. */
  function UrlErrors(field: string, urls: seq<string>, isUrl: string -> bool, from: nat): (r: seq<FieldError>)
    requires from <= |urls|
    ensures r == [] <==> forall k :: from <= k < |urls| ==> isUrl(urls[k])
    ensures forall k :: from <= k < |urls| && !isUrl(urls[k]) ==> FieldError(ElementPath(field, k), NotAUrl) in r
    ensures forall e :: e in r ==>
              exists k :: from <= k < |urls| && !isUrl(urls[k]) && e == FieldError(ElementPath(field, k), NotAUrl)
    ensures forall i, j :: 0 <= i < j < |r| ==> r[i] != r[j]
    ensures |r| <= |urls| - from
    decreases |urls| - from
  {
    if from == |urls| then []
    else
      var rest := UrlErrors(field, urls, isUrl, from + 1);
      if isUrl(urls[from]) then rest
      else
        var head := FieldError(ElementPath(field, from), NotAUrl);
        assert head !in rest by {
          if head in rest {
            var k :| from + 1 <= k < |urls| && head == FieldError(ElementPath(field, k), NotAUrl);
            ElementPathInjective(field, from, k);
          }
        }
        [head] + rest
  }

  /** `validateSubmitOrder`: at least one content URL, every URL well-formed. */
  function SubmitOrderErrors(b: SubmitOrderBody, ext: Externals): (r: seq<FieldError>)
    ensures r == [] <==>
      b.contentUrls.Some? && |b.contentUrls.value| >= 1 && AllUrls(b.contentUrls.value, ext.isUrl) &&
      (b.platformUrls.None? || AllUrls(b.platformUrls.value, ext.isUrl))
  {
    Check(b.contentUrls.Some? && |b.contentUrls.value| >= 1, "contentUrls", NoItems) +
    UrlErrors("contentUrls", if b.contentUrls.Some? then b.contentUrls.value else [], ext.isUrl, 0) +
    (if b.platformUrls.Some? then UrlErrors("platformUrls", b.platformUrls.value, ext.isUrl, 0) else [])
  }

  /** The body of a rejection: an optional reason. */
  datatype RejectOrderBody = RejectOrderBody(reason: Option<string>)

  /** `validateRejectOrder`: a reason, if given, is at most 500 characters once trimmed. */
  function RejectOrderErrors(b: RejectOrderBody): (r: seq<FieldError>)
    ensures r == [] <==> b.reason.None? || DisplayLength(Trim(b.reason.value)) <= 500
    ensures r != [] ==> r == [FieldError("reason", LengthOutOfRange)]
  {
    Check(OptionalTrimmedLength(b.reason, 0, 500), "reason", LengthOutOfRange)
  }

  /** `validateGetOrders`: the list query accepts exactly the six schema
      statuses (the unused `accepted` among them), with default paging. */
  lemma GetOrdersStatusFilter(s: string)
    ensures ListQueryErrors(ListQuery(Some(s), None, None), Statuses) == [] <==>
            OrderModel.ParseStatus(s).Some?
  {
  }
}
