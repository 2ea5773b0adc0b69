/** What the order and campaign input rules share: the error entries an
    express-validator chain records, the response `handleValidationErrors`
    turns them into, the `validateObjectId` guard, the list-query rules, and
    the library predicates the rules call, taken as parameters. */
module Validation {

  import opened Common
  import opened Text

  /** The kinds of message the rule chains attach to a failing check. */
  datatype Message =
    | Required             // `notEmpty()`
    | MalformedId          // custom `ObjectId.isValid` check
    | NotAllowed           // `isIn([...])`
    | LengthOutOfRange     // `isLength({min, max})` after `trim()`
    | NotIso8601           // `isISO8601()`
    | InPast               // custom deadline check
    | BelowMinimum         // `isFloat({min})`
    | AboveMaximum         // custom price ceiling
    | NoItems              // `isArray({min: 1})`
    | NotAUrl              // `isURL()`
    | IntegerOutOfRange    // `isInt({min, max})`

  /** One `{field, message}` entry of a 422 response; `field` is the value's path. */
  datatype FieldError = FieldError(field: string, message: Message)

  /** What a middleware does with a request: pass it on, or answer it. */
  datatype Gate = Next | Reply(status: nat, code: Option<string>, errors: seq<FieldError>)

  /** Library predicates the rules call and the model does not define:
      `mongoose.Types.ObjectId.isValid`, `isISO8601`, the instant `new Date(s)`
      denotes (`None` for an invalid date) and `isURL`. */
  datatype Externals = Externals(
    isObjectId: string -> bool,
    isIso8601: string -> bool,
    dateOf: string -> Option<Time>,
    isUrl: string -> bool)

  /** One check of a chain: no entry when it passes, one entry when it fails. */
  function Check(ok: bool, field: string, message: Message): (r: seq<FieldError>)
    ensures r == [] <==> ok
    ensures forall e :: e in r ==> e.field == field
    ensures !ok ==> r == [FieldError(field, message)]
  {
    if ok then [] else [FieldError(field, message)]
  }

  /** The path a wildcard rule `field.*` reports for element `k`: `field[k]`. */
  function ElementPath(field: string, k: nat): string
  {
    field + "[" + RenderNat(k) + "]"
  }

  /** Distinct elements are reported under distinct paths. */
  lemma ElementPathInjective(field: string, a: nat, b: nat)
    requires ElementPath(field, a) == ElementPath(field, b)
    ensures a == b
  {
    var p := ElementPath(field, a);
    assert RenderNat(a) == p[|field| + 1 .. |p| - 1];
    assert RenderNat(b) == p[|field| + 1 .. |p| - 1];
  }

  /** The string a standard validator sees: an absent value reads as "". */
  function OrEmpty(v: Option<string>): string
  {
    if v.Some? then v.value else ""
  }

  /** `notEmpty()`. */
  predicate Present(v: Option<string>)
  {
    v.Some? && v.value != ""
  }

  /** `optional().trim().isLength({min, max})`. */
  predicate OptionalTrimmedLength(v: Option<string>, min: nat, max: nat)
  {
    v.None? || LengthWithin(Trim(v.value), min, max)
  }

  /** `optional().isInt({min, max})` on a query-string value. */
  predicate OptionalIntParam(v: Option<string>, min: int, max: Option<int>)
  {
    v.None? ||
    (ParseIntLiteral(v.value).Some? && min <= ParseIntLiteral(v.value).value &&
     (max.None? || ParseIntLiteral(v.value).value <= max.value))
  }

  /** `optional().isIn(allowed)`. */
  predicate OptionalOneOf(v: Option<string>, allowed: seq<string>)
  {
    v.None? || v.value in allowed
  }

  /** `handleValidationErrors`: any recorded error answers 422 with every entry;
      none lets the request through to the handler. */
  function HandleValidationErrors(errors: seq<FieldError>): (g: Gate)
    ensures g.Next? <==> errors == []
    ensures g.Reply? ==> g.status == 422 && g.code.None? && g.errors == errors
  {
    if errors == [] then Next else Reply(422, None, errors)
  }

  /** `validateObjectId`: a path parameter that is present, non-empty and not a
      well-formed id answers 400 INVALID_ID; anything else passes through. */
  function ObjectIdParam(param: Option<string>, isObjectId: string -> bool): (g: Gate)
    ensures g.Next? <==> (param.None? || param.value == "" || isObjectId(param.value))
    ensures g.Reply? ==> g == Reply(400, Some("INVALID_ID"), [])
  {
    if param.Some? && param.value != "" && !isObjectId(param.value) then Reply(400, Some("INVALID_ID"), [])
    else Next
  }

  /** The query of a paginated list: `status`, `page`, `limit`, all optional strings. */
  datatype ListQuery = ListQuery(status: Option<string>, page: Option<string>, limit: Option<string>)

  /** The list-query rules, with the status names the list accepts. */
  function ListQueryErrors(q: ListQuery, statuses: seq<string>): (r: seq<FieldError>)
    ensures r == [] <==>
      OptionalOneOf(q.status, statuses) && OptionalIntParam(q.page, 1, None) &&
      OptionalIntParam(q.limit, 1, Some(100))
    ensures forall e :: e in r ==> e.field in ["status", "page", "limit"]
  {
    Check(OptionalOneOf(q.status, statuses), "status", NotAllowed) +
    Check(OptionalIntParam(q.page, 1, None), "page", IntegerOutOfRange) +
    Check(OptionalIntParam(q.limit, 1, Some(100)), "limit", IntegerOutOfRange)
  }

  /** A page or limit written in decimal is accepted exactly when it is in range. */
  lemma PaginationAcceptsRenderedNumbers(statuses: seq<string>, page: int, limit: int)
    ensures ListQueryErrors(ListQuery(None, Some(RenderInt(page)), Some(RenderInt(limit))), statuses) == []
            <==> 1 <= page && 1 <= limit <= 100
  {
    ParseRenderInt(page);
    ParseRenderInt(limit);
  }
}
