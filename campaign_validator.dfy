/** The input rules of the campaign routes: creation, update and the
    campaign-list query. */
module CampaignValidator {

  import opened Common
  import opened Text
  import opened Validation
  import CampaignModel

  /** The campaign kinds the creation rules accept. */
  const CampaignTypes: seq<string> := ["product", "service", "brand", "event"]

  /** The statuses the update rules and the list query accept. */
  const Statuses: seq<string> := ["draft", "active", "paused", "completed", "cancelled"]

  const MinBudget := 1000
  const MinAge := 13
  const MaxAge := 100

  /** The body of a campaign-creation request. `perBlogger` and `status` are
      not checked by these rules; the handler passes them on to the schema. */
  datatype CreateCampaignBody = CreateCampaignBody(
    title: Option<string>,
    description: Option<string>,
    campaignType: Option<string>,
    budgetTotal: Option<int>,
    ageMin: Option<int>,
    ageMax: Option<int>,
    perBlogger: Option<int>,
    status: Option<string>)

  /** `notEmpty()` on the raw title, then `trim()` and `isLength({min: 3, max: 100})`. */
  function TitleErrors(v: Option<string>): (r: seq<FieldError>)
    ensures r == [] <==> v.Some? && v.value != "" && LengthWithin(Trim(v.value), 3, 100)
    ensures forall e :: e in r ==> e.field == "title"
  {
    Check(Present(v), "title", Required) + Check(LengthWithin(Trim(OrEmpty(v)), 3, 100), "title", LengthOutOfRange)
  }

  /** `notEmpty()` then `isIn` over the campaign kinds. */
  function CampaignTypeErrors(v: Option<string>): (r: seq<FieldError>)
    ensures r == [] <==> v.Some? && v.value in CampaignTypes
    ensures forall e :: e in r ==> e.field == "campaignType"
  {
    Check(Present(v), "campaignType", Required) + Check(OrEmpty(v) in CampaignTypes, "campaignType", NotAllowed)
  }

  /** `notEmpty()` then `isFloat({min: 1000})`. */
  function BudgetErrors(v: Option<int>): (r: seq<FieldError>)
    ensures r == [] <==> v.Some? && v.value >= MinBudget
    ensures forall e :: e in r ==> e.field == "budget.total"
  {
    Check(v.Some?, "budget.total", Required) + Check(v.Some? && v.value >= MinBudget, "budget.total", BelowMinimum)
  }

  /** `optional().isInt({min: 13, max: 100})` on an age bound. */
  predicate AgeOk(v: Option<int>)
  {
    v.None? || MinAge <= v.value <= MaxAge
  }

  /** The admissible creation bodies, stated field by field. Nothing relates
      the two age bounds to each other. */
  predicate CreateCampaignAdmissible(b: CreateCampaignBody)
  {
    && b.title.Some? && b.title.value != "" && LengthWithin(Trim(b.title.value), 3, 100)
    && (b.description.None? || DisplayLength(Trim(b.description.value)) <= 5000)
    && b.campaignType.Some? && b.campaignType.value in CampaignTypes
    && b.budgetTotal.Some? && b.budgetTotal.value >= MinBudget
    && AgeOk(b.ageMin) && AgeOk(b.ageMax)
  }

  /** `validateCreateCampaign`: every check of every chain, in order. */
  function CreateCampaignErrors(b: CreateCampaignBody): (r: seq<FieldError>)
    ensures r == [] <==> CreateCampaignAdmissible(b)
  {
    TitleErrors(b.title) +
    Check(OptionalTrimmedLength(b.description, 0, 5000), "description", LengthOutOfRange) +
    CampaignTypeErrors(b.campaignType) +
    BudgetErrors(b.budgetTotal) +
    Check(AgeOk(b.ageMin), "targetAudience.ageRange.min", IntegerOutOfRange) +
    Check(AgeOk(b.ageMax), "targetAudience.ageRange.max", IntegerOutOfRange)
  }

  /** Any two in-range age bounds are admitted, in either order. */
  lemma AgeBoundsIndependent(b: CreateCampaignBody, lo: int, hi: int)
    requires CreateCampaignAdmissible(b)
    ensures CreateCampaignErrors(b.(ageMin := Some(lo), ageMax := Some(hi))) == [] <==>
            MinAge <= lo <= MaxAge && MinAge <= hi <= MaxAge
  {
  }

  /** A title of blanks is present, so `notEmpty` passes, and empty once
      trimmed, so only the length check reports it. */
  lemma BlankTitleFailsLengthOnly(b: CreateCampaignBody, blank: string)
    requires CreateCampaignAdmissible(b)
    requires blank != [] && forall k :: 0 <= k < |blank| ==> IsJsSpace(blank[k])
    ensures CreateCampaignErrors(b.(title := Some(blank))) == [FieldError("title", LengthOutOfRange)]
  {
    TrimEmptyIffBlank(blank);
    var b' := b.(title := Some(blank));
    assert TitleErrors(b'.title) == [FieldError("title", LengthOutOfRange)];
    assert CampaignTypeErrors(b'.campaignType) == [];
    assert BudgetErrors(b'.budgetTotal) == [];
  }

  /** An admitted body has a positive budget and a kind the schema's enum knows. */
  lemma AdmittedBodyFitsSchema(b: CreateCampaignBody)
    requires CreateCampaignAdmissible(b)
    ensures CampaignModel.ParseCampaignType(b.campaignType.value).Some?
    ensures b.budgetTotal.value > 0
  {
  }

  /** The body of an update request, as far as the rules look at it. */
  datatype UpdateCampaignBody = UpdateCampaignBody(title: Option<string>, status: Option<string>)

  /** `validateUpdateCampaign`: the title is optional here but keeps its bounds,
      and a status must be one of the five. */
  function UpdateCampaignErrors(b: UpdateCampaignBody): (r: seq<FieldError>)
    ensures r == [] <==>
      (b.title.None? || 3 <= DisplayLength(Trim(b.title.value)) <= 100) &&
      (b.status.None? || CampaignModel.ParseStatus(b.status.value).Some?)
  {
    Check(OptionalTrimmedLength(b.title, 3, 100), "title", LengthOutOfRange) +
    Check(OptionalOneOf(b.status, Statuses), "status", NotAllowed)
  }

  /** `validateGetCampaigns`: the list query accepts exactly the five campaign statuses. */
  lemma GetCampaignsStatusFilter(s: string)
    ensures ListQueryErrors(ListQuery(Some(s), None, None), Statuses) == [] <==>
            CampaignModel.ParseStatus(s).Some?
  {
  }
}
