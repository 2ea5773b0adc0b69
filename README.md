# Order and budget workflow of the ads marketplace backend

This project models the part of the marketplace backend that links
advertisers' campaigns to bloggers' orders:

- **The order store.** The campaigns and orders held in the database are a
  class `OrderStore.Store` with two maps and two id counters. It has one
  method per handler: `createCampaign`, `createOrder`, `getOrder`,
  `acceptOrder`, `rejectOrder`, `submitOrder` and `approveOrder`. Every method
  except `GetOrder`, whose route has no role gate, first applies the route's
  role gate (`authorize`). The advertiser creates
  and approves; the blogger accepts, rejects and submits. Each transaction is
  one method body: on every error path the method leaves both maps as they
  were.
- **The budget ledger** (`Ledger`). `createOrder` reserves the price in
  `budget.allocated` and `rejectOrder` releases it. The store's invariant
  `Books` says four things:
  - every campaign's allocated amount equals the sum of the prices of its
    orders that are not cancelled;
  - the allocated amount never exceeds the total;
  - every order belongs to a stored campaign of the same advertiser;
  - no price is negative.
- **The order lifecycle** (`Lifecycle`). Each handler's query filter has
  three parts: the order id, the order's party equal to the caller, and a
  required status. The filter yields a transition table:
  `pending → in_progress → review → completed`, plus `pending → cancelled`.
  A wrong status or a wrong party is answered NOT_FOUND. The schema declares
  the status `accepted`, but no handler writes or requires it.
- **The schemas** (`OrderModel`, `CampaignModel`). These cover the enums,
  the defaults, and the checks a save performs. The save checks are the
  minimum price of 0, the required title, and the maximum title and
  description lengths.
- **The input rules** (`Validation`, `OrderValidator`, `CampaignValidator`).
  They are modelled as functions from a request body to the list of
  `{field, message}` entries the rule chains record:
  - every failing check records one entry;
  - `handleValidationErrors` answers 422 with all entries;
  - `validateObjectId` answers 400 INVALID_ID.

  The string semantics are written out in `Text`:
  - `trim()` removes JavaScript whitespace;
  - `isLength` does not count the variation selectors U+FE0E and U+FE0F;
  - `isInt` accepts the decimal literal syntax.

Library predicates have no definition here. These are
`mongoose.Types.ObjectId.isValid`, `isISO8601`, date parsing and `isURL`;
they are passed in as the fields of an `Externals` record. The clock is a
parameter (`now`).

Several properties are proved:

- **Budget check.** `createOrder` passes its check exactly when
  `price <= total - allocated`, so a price equal to the remainder is
  accepted.
- **Re-check after the increment.** This check never fails: the method's
  contract excludes BUDGET_EXCEEDED. `Ledger.ReserveRespectsCeiling`, called
  just before the re-check, is the arithmetic behind it.
- **Reserve and release.** A release after a reserve restores the budget
  exactly. `CreateThenReject` proves this through the store's methods: the
  campaigns end as they were, and a later accept of the rejected order is
  NOT_FOUND.
- **Release bound.** The unguarded release in `rejectOrder` never takes
  `allocated` below zero while the books hold.
- **Approval.** Approval happens at most once on any path, and a second
  approve is NOT_FOUND (`ApproveTwice`). Approval sets `paidAt` and changes
  no budget.
- **Completion and cancellation.** The only way to completion is accept,
  then submit, then approve. The only way to cancellation is a single
  reject.

## Model

| member | source | states |
|---|---|---|
| Text.Trim | src/validators/order.validator.js:33 | the sanitized string is a middle slice of the input, reached by removing a prefix and a suffix that are all whitespace; it neither starts nor ends with whitespace |
| Text.TrimIdempotent | src/models/Campaign.model.js:12 | trimming a value the rules already trimmed changes nothing, so the schema's own `trim` keeps the validated title |
| Text.TrimEmptyIffBlank | src/validators/campaign.validator.js:5-10 | a value trims to empty exactly when every character is whitespace |
| Text.DisplayLength | src/validators/order.validator.js:34 | the length `isLength` compares is the character count less the number of U+FE0E and U+FE0F selectors, so it equals the character count when none occurs |
| Text.RenderNat | src/validators/order.validator.js:73-75 | the decimal spelling used in element paths such as `contentUrls[3]` is all digits, reads back as the number and has no leading zero |
| Text.ParseRenderInt | src/validators/order.validator.js:102-110 | every integer written in decimal is accepted by the integer literal syntax and reads back as itself |
| Validation.Check | src/validators/order.validator.js:126-133 | a check records no entry when it passes and exactly the one entry `{field, message}` when it fails |
| Validation.ElementPathInjective | src/validators/order.validator.js:73-75 | distinct elements of a wildcard rule are reported under distinct paths `field[k]` |
| Validation.HandleValidationErrors | src/validators/order.validator.js:126-143 | the request reaches the handler exactly when no entry was recorded; otherwise the answer is 422 carrying every entry unchanged |
| Validation.ObjectIdParam | src/validators/order.validator.js:113-124 | an absent or empty parameter and a well-formed id pass; any other value is answered 400 INVALID_ID |
| Validation.ListQueryErrors | src/validators/order.validator.js:96-111 | a list query is admitted exactly when its status is one of the allowed names, its page is an integer of at least 1 and its limit an integer from 1 to 100; every entry names one of those three fields |
| Validation.PaginationAcceptsRenderedNumbers | src/validators/order.validator.js:102-110 | a page and a limit written as decimal numbers are admitted exactly when page >= 1 and 1 <= limit <= 100 |
| OrderValidator.IdErrors | src/validators/order.validator.js:5-23 | an id field records nothing exactly when it is present, non-empty and well-formed; every entry is under that field |
| OrderValidator.ContentTypeErrors | src/validators/order.validator.js:25-29 | the content type records nothing exactly when it is one of post, story, reel, video, collaboration |
| OrderValidator.DeadlineErrors | src/validators/order.validator.js:43-53 | the deadline records nothing exactly when it is present, ISO 8601 and not before `now` (a date that does not parse passes the custom check) |
| OrderValidator.PriceErrors | src/validators/order.validator.js:55-65 | the price records nothing exactly when it is present and 100 <= price <= 1000000 |
| OrderValidator.CreateOrderErrors | src/validators/order.validator.js:4-66 | a creation body records no entry exactly when every field rule holds: both ids, content type, the trimmed lengths of description (10 to 2000) and requirements (at most 1000), deadline and price; every entry names a body field |
| OrderValidator.PriceBoundaries | src/validators/order.validator.js:55-65 | varying only the price of an admitted body: 100 and 1000000 are admitted, anything below gives exactly one "below minimum" entry, and anything above exactly one "above maximum" entry |
| OrderValidator.MissingPriceReportedTwice | src/validators/order.validator.js:55-59 | a missing price records two entries, one per failing check of its chain |
| OrderValidator.AdmittedBodyFitsSchema | src/validators/order.validator.js:25-65 | an admitted body's content type is in the schema's enum and its price satisfies the schema's minimum of 0 |
| OrderValidator.UrlErrors | src/validators/order.validator.js:73-85 | a wildcard URL rule records exactly one "not a URL" entry per element that is not a URL, under that element's path `field[k]`, and no other entry; so nothing exactly when every element is a URL |
| OrderValidator.SubmitOrderErrors | src/validators/order.validator.js:68-86 | a submission is admitted exactly when contentUrls is an array of at least one URL and platformUrls, if given, holds only URLs |
| OrderValidator.RejectOrderErrors | src/validators/order.validator.js:88-94 | a rejection is admitted exactly when the reason is absent or at most 500 characters once trimmed; otherwise it records the single length entry for `reason` |
| OrderValidator.GetOrdersStatusFilter | src/validators/order.validator.js:96-100 | the order list accepts as status exactly the names of the schema's six statuses |
| CampaignValidator.TitleErrors | src/validators/campaign.validator.js:5-10 | the title records nothing exactly when it is present, non-empty and 3 to 100 characters once trimmed |
| CampaignValidator.CampaignTypeErrors | src/validators/campaign.validator.js:18-22 | the campaign type records nothing exactly when it is one of product, service, brand, event |
| CampaignValidator.BudgetErrors | src/validators/campaign.validator.js:24-28 | the budget total records nothing exactly when it is present and at least 1000 |
| CampaignValidator.CreateCampaignErrors | src/validators/campaign.validator.js:4-39 | a creation body records no entry exactly when title, description, campaign type, budget total and both age bounds satisfy their rules |
| CampaignValidator.AgeBoundsIndependent | src/validators/campaign.validator.js:30-38 | any two age bounds within 13 to 100 are admitted, whichever is larger; nothing relates min to max |
| CampaignValidator.BlankTitleFailsLengthOnly | src/validators/campaign.validator.js:5-10 | a title of whitespace passes `notEmpty` and fails only the length check, with a single entry |
| CampaignValidator.AdmittedBodyFitsSchema | src/validators/campaign.validator.js:18-28 | an admitted body's campaign type is in the schema's enum and its budget total is positive |
| CampaignValidator.UpdateCampaignErrors | src/validators/campaign.validator.js:41-52 | an update is admitted exactly when a given title is 3 to 100 characters once trimmed and a given status is one of the five campaign statuses |
| CampaignValidator.GetCampaignsStatusFilter | src/validators/campaign.validator.js:54-58 | the campaign list accepts as status exactly the names of the schema's five statuses |
| OrderModel.ParseStatus | src/models/Order.model.js:33-37 | a stored status is accepted exactly when it is in the six-name enum, and reads back to the same name |
| OrderModel.StatusRoundTrip | src/models/Order.model.js:33-37 | every order status has an enum name that parses back to it |
| OrderModel.ParseContentType | src/models/Order.model.js:19-23 | a content type is accepted exactly when it is in the five-name enum, and reads back to the same name |
| OrderModel.ContentTypeRoundTrip | src/models/Order.model.js:19-23 | every content type has an enum name that parses back to it |
| OrderModel.SchemaValid | src/models/Order.model.js:28-32 | defines what saving an order checks beyond its types: the price is at least 0 |
| OrderModel.NewOrder | src/models/Order.model.js:3-51 | a new order keeps the given references, price and content type, defaults its status to pending, has no `paidAt` and empty URL lists, and passes the schema exactly when price >= 0 |
| CampaignModel.ParseStatus | src/models/Campaign.model.js:48-52 | a campaign status is accepted exactly when it is in the five-name enum, and reads back to the same name |
| CampaignModel.StatusRoundTrip | src/models/Campaign.model.js:48-52 | every campaign status has an enum name that parses back to it |
| CampaignModel.ParseCampaignType | src/models/Campaign.model.js:19-23 | a campaign type is accepted exactly when it is in the four-name enum, and reads back to the same name |
| CampaignModel.CampaignTypeRoundTrip | src/models/Campaign.model.js:19-23 | every campaign type has an enum name that parses back to it |
| CampaignModel.SchemaValid | src/models/Campaign.model.js:9-18 | defines what saving a campaign checks beyond its types: a non-empty title of at most 100 characters and a description of at most 5000 |
| CampaignModel.NewCampaign | src/models/Campaign.model.js:3-61 | a new campaign has `allocated` 0 (all of its total available), status draft unless given, every metric 0, the trimmed title, and is within budget exactly when its total is not negative |
| Ledger.Reserve | src/controllers/order.controller.js:46-50 | the `$inc` of `budget.allocated` by the price: the total and per-blogger cap stay, and the money still available drops by exactly the price |
| Ledger.Release | src/controllers/order.controller.js:241-245 | the `$inc` of `budget.allocated` by minus the price: the total and per-blogger cap stay, and the money available grows by exactly the price |
| Ledger.ReserveRespectsCeiling | src/controllers/order.controller.js:24-59 | after adding the price to `allocated`, `allocated <= total` holds exactly when the price was at most `total - allocated`; a price equal to the remainder fills the budget exactly (the arithmetic behind CreateOrder's exclusion of BUDGET_EXCEEDED) |
| Ledger.ReleaseUndoesReserve | src/controllers/order.controller.js:241-245 | releasing the price just reserved restores the budget exactly (the arithmetic step of CreateThenReject) |
| Ledger.Books | src/controllers/order.controller.js:24-59 | defines the invariant every store method keeps: each order is valid, has an id below the counter and belongs to a stored campaign of the same advertiser, and each campaign's `allocated` equals the sum of the prices of its orders that are not cancelled and stays within its total |
| Ledger.BooksAddCampaign | src/models/Campaign.model.js:43-47 | a new campaign with `allocated` 0 and a non-negative total keeps the books |
| Ledger.BooksPlaceOrder | src/controllers/order.controller.js:33-50 | storing a new live order under the next id and adding its price to its campaign's `allocated` keeps the books, when the price fits the remainder |
| Ledger.BooksAdvance | src/controllers/order.controller.js:203-204 | a status change that keeps the order live, its campaign and its price keeps the books with no budget change |
| Ledger.BooksCancel | src/controllers/order.controller.js:237-245 | cancelling a live order and subtracting its price from its campaign's `allocated` keeps the books |
| Ledger.ReleaseStaysNonNegative | src/controllers/order.controller.js:241-245 | the unguarded release of a live order's price never takes `allocated` below zero while the books hold |
| Lifecycle.ActionRole | src/routes/order.routes.js:22-29 | the role `authorize` demands on each lifecycle route: never admin alone, advertiser exactly for approve, blogger for accept, reject and submit |
| Lifecycle.Step | src/controllers/order.controller.js:188-313 | defines the transition table from the handlers' query filters and status writes: accept and reject require pending and write in_progress and cancelled, submit requires in_progress and writes review, approve requires review and writes completed; anything else is not found |
| Lifecycle.StepAdvances | src/controllers/order.controller.js:190-203 | every transition moves an order forward, never into or out of `accepted`, and never out of completed or cancelled |
| Lifecycle.RunIsShort | src/controllers/order.controller.js:188-323 | no sequence of handler calls applies more than three transitions to one order |
| Lifecycle.RunAvoidsAccepted | src/models/Order.model.js:35 | an order not created as `accepted` never reaches `accepted` |
| Lifecycle.ApproveAtMostOnce | src/controllers/order.controller.js:298-313 | in any applicable sequence, approval occurs at most once, and never from a final status |
| Lifecycle.TerminalIsFinal | src/controllers/order.controller.js:188-323 | from completed or cancelled no handler's transition applies |
| Lifecycle.ReviewToCompleted | src/controllers/order.controller.js:296-313 | the only way from review to completed is one approval |
| Lifecycle.InProgressToCompleted | src/controllers/order.controller.js:263-313 | the only way from in progress to completed is submit, then approve |
| Lifecycle.OnlyPaths | src/controllers/order.controller.js:188-323 | from pending, completion is reached exactly by accept, submit, approve, and cancellation exactly by a single reject |
| Lifecycle.RunAvoidsCancelled | src/controllers/order.controller.js:223-237 | once an order has left pending it can never be cancelled |
| OrderStore.MayView | src/controllers/order.controller.js:165-171 | defines getOrder's access check: the caller is the order's blogger or advertiser, or an administrator |
| OrderStore.CampaignDoc | src/controllers/campaign.controller.js:6-7 | the stored campaign has the caller as advertiser, the trimmed title, the given total and nothing allocated, so it is within budget |
| OrderStore.CampaignOutcome | src/controllers/campaign.controller.js:4-17 | a campaign it produces passes the schema, is within budget, belongs to the caller and has nothing allocated |
| OrderStore.CampaignOutcomeCases | src/routes/campaign.routes.js:18 | createCampaign is forbidden exactly for non-advertisers, answers the validator's 422 exactly for an inadmissible body, stores a campaign exactly when the schema accepts the document, and otherwise fails the save |
| OrderStore.HttpStatus | src/validators/order.validator.js:126-143 | a failure of the input rules is answered exactly as `handleValidationErrors` answers it (422 with the entries); FORBIDDEN is 403 and the not-found failures 404 |
| OrderStore.Store.CreateCampaign | src/controllers/campaign.controller.js:4-17 | keeps the books; on error changes nothing; on success stores the decided campaign under the next id and advances the counter |
| OrderStore.Store.SaveCampaign | src/controllers/campaign.controller.js:7 | `Campaign.create` of a document with nothing allocated and within budget keeps the books, stores it under the next unused id and changes nothing else |
| OrderStore.Store.CreateOrder | src/controllers/order.controller.js:6-75 | each outcome is stated as an if-and-only-if: forbidden for non-advertisers; CAMPAIGN_NOT_FOUND when the campaign is absent or another advertiser's; INSUFFICIENT_BUDGET exactly when price > total - allocated; a save failure for a negative price; never BUDGET_EXCEEDED. On error nothing changes. On success exactly one new pending order with the caller as advertiser is stored, only that campaign's `allocated` grows by the price, and the books hold |
| OrderStore.Store.GetOrder | src/controllers/order.controller.js:150-185 | an absent order is NOT_FOUND; a present one is returned exactly to its blogger, its advertiser or an administrator, and is otherwise FORBIDDEN |
| OrderStore.Store.AcceptOrder | src/controllers/order.controller.js:188-214 | only a blogger's call on their own pending order succeeds, setting in_progress and nothing else; any other call is FORBIDDEN or NOT_FOUND and changes nothing |
| OrderStore.Store.RejectOrder | src/controllers/order.controller.js:217-260 | only a blogger's admissible call on their own pending order succeeds, cancelling it and subtracting its price from its campaign's `allocated` in the same step; a rule failure is answered 422 with exactly the rules' entries; an admissible call on an order that is absent, another blogger's or not pending is NOT_FOUND; on every error nothing changes |
| OrderStore.Store.SubmitOrder | src/controllers/order.controller.js:263-293 | only a blogger's admissible call on their own order in progress succeeds, setting review and storing the URL lists as given; a rule failure is answered 422 with exactly the rules' entries; an admissible call on an order that is absent, another blogger's or not in progress is NOT_FOUND; on every error nothing changes |
| OrderStore.Store.ApproveOrder | src/controllers/order.controller.js:296-323 | only an advertiser's call on their own order under review succeeds, setting completed and `paidAt` to the given time with no budget change; otherwise nothing changes |
| OrderStore.CreateThenReject | src/controllers/order.controller.js:223-247 | creating an order and rejecting it leaves every campaign as before, the order cancelled, and a later accept of it NOT_FOUND |
| OrderStore.AcceptThenReject | src/controllers/order.controller.js:223-235 | once the blogger has accepted an order, rejecting it is NOT_FOUND and the campaigns keep the reserved price |
| OrderStore.ApproveTwice | src/controllers/order.controller.js:298-313 | the first approval completes the order with `paidAt` set to its time; the second is NOT_FOUND and `paidAt` keeps the first time |

## Left out

- Concurrency and database sessions. Each transaction is one atomic method body, where an abort changes nothing. Interleavings of requests are not modelled.
- Authentication. The caller's id and role are method parameters, and `authenticate` is not modelled.
- Library predicates. Id format, ISO 8601, date parsing and URL syntax are parameters of the rules (`Externals`). The clock is the parameter `now`.
- Entry counts for empty values. The libraries reject `""` as an id and as an ISO 8601 date, and parse it to an invalid date; `Externals` leaves these open. So the number of entries recorded for an empty id or a missing or empty deadline is not fixed, though whether the body is admitted is.
- The listing handlers `getBloggerOrders` and `getAdvertiserOrders`. Their population, sorting and pagination are database queries. Only their query rules are modelled.
- Amounts. They are integers. The rules' `isFloat` also admits fractional prices and budgets, which the model does not represent.
- JSON values that are not strings, such as numbers, arrays in scalar fields and objects. The bodies have typed optional fields, and `None` stands for an absent field.
- OrderStore.Store.CreateOrder takes an already typed request: ids as numbers and the deadline as an instant. Two things are not modelled:
  - the conversion from the validated body, including how `validateCreateOrder` admits it;
  - a string price compared by JavaScript coercion.
- The `validateObjectId` guards. They are modelled on strings (`Validation.ObjectIdParam`) and are not connected to the numeric ids of the store.
- OrderStore.Store.CreateCampaign leaves out two things:
  - the spread of the whole request body, which lets a client set `budget.allocated` or other fields at creation;
  - `updateCampaign` and `deleteCampaign`, which can edit a campaign's budget directly.

  The store's books therefore assume that campaigns change only through the order handlers.
- The campaign fields `targetAudience`, `requirements`, `startDate` and `endDate`. The only part modelled is the age-range rule. The order fields `deliverable` and `reviews` are not modelled either.
- The rejection `reason`. It is validated and then dropped, as the handler does.
- OrderStore.Store.SubmitOrder stores an absent `platformUrls` as an empty list, which is what assigning `undefined` to an array path does.
- OrderValidator.SubmitOrderErrors: when `contentUrls` is absent or not an array, the wildcard rule is taken to find no element. Only the `isArray` entry is reported.
- CampaignModel.SchemaValid counts characters for `maxlength`, whereas the database counts UTF-16 code units. Characters outside the Basic Multilingual Plane are therefore counted once instead of twice.
- Identifier generation. Database ids are modelled as consecutive natural numbers handed out by the store.
- Error-handler responses. A failure to save (`SchemaViolation`) stands for the generic 500 answer, and no message text is modelled.
