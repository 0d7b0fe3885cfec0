/**
 * The Shopify discount builder (`ShopifyService`): the face-to-percentage
 * table, the generated code, the price-rule and discount-code payloads, and
 * how each operation turns a failed request into its own result.
 *
 * `makeRequest` is the abstract HTTP call `api`: a total function from the
 * request it is given to the response it resolves to, or to the rejection it
 * throws. The service's fields (store URL, token, API version) are fixed at
 * construction; only the store URL reaches a result, so `Config` holds that.
 */
module ShopifyService {
  import opened Wrappers
  import opened Text

  datatype HttpMethod = GET | POST | DELETE

  /** The `price_rule` object sent to `/price_rules.json`. Dates are
      milliseconds (their ISO rendering is not modelled). */
  datatype PriceRulePayload = PriceRulePayload(
    title: string,
    targetType: string,
    targetSelection: string,
    allocationMethod: string,
    valueType: string,
    value: string,
    customerSelection: string,
    startsAt: int,
    endsAt: Option<int>,
    usageLimit: int)

  datatype Payload = PriceRuleData(rule: PriceRulePayload) | DiscountCodeData(code: string)

  datatype Request = Request(endpoint: string, verb: HttpMethod, data: Option<Payload>)

  /** The part of a response body the service reads. */
  datatype Body =
    | PriceRuleBody(priceRuleId: string)
    | DiscountCodeBody(discountCodeId: string, code: string, usageCount: int)
    | OtherBody

  /** What `makeRequest` does: resolve with a body, or reject; a rejection
      carries the HTTP status when the server answered. */
  datatype Response = Ok(body: Body) | Rejected(status: Option<int>)

  datatype Config = Config(storeUrl: string)

  /** A discount created in Shopify, as the service returns it. */
  datatype Discount = Discount(
    code: string,
    percentage: Option<nat>,
    priceRuleId: string,
    discountCodeId: string,
    shopifyUrl: string,
    expiresAt: Option<int>)

  const CreateFailedMessage := "Failed to create discount code in Shopify"

  /** The service's face-to-percentage table; any other face has no entry. */
  function DiscountPercentage(diceResult: int): Option<nat> {
    if diceResult == 1 then Some(10)
    else if diceResult == 2 then Some(15)
    else if diceResult == 3 then Some(20)
    else if diceResult == 4 then Some(25)
    else if diceResult == 5 then Some(30)
    else if diceResult == 6 then Some(50)
    else None
  }

  /** The table covers exactly the faces 1 to 6, and a higher face never
      earns a smaller percentage. */
  lemma PercentageTableShape(a: int, b: int)
    ensures DiscountPercentage(a).Some? <==> 1 <= a <= 6
    ensures 1 <= a < b <= 6 ==> DiscountPercentage(a).value < DiscountPercentage(b).value
    ensures DiscountPercentage(6) == Some(50)
  {
  }

  /** A percentage as a template literal renders it (`undefined` when absent). */
  function PercentText(p: Option<nat>): string {
    match p
    case Some(n) => NatToString(n)
    case None => "undefined"
  }

  /** `DICE${percentage}_${timestamp}`. */
  function GeneratedCode(p: Option<nat>, timestamp: nat): string {
    "DICE" + PercentText(p) + "_" + NatToString(timestamp)
  }

  /** The generated code carries the percentage right after "DICE": parsing it
      back (as `parseInt` does) yields the percentage, and the code ends with
      the timestamp. */
  lemma GeneratedCodeEncodesPercentage(diceResult: int, timestamp: nat)
    requires 1 <= diceResult <= 6
    ensures var code := GeneratedCode(DiscountPercentage(diceResult), timestamp);
      && StartsWith(code, "DICE")
      && ParseInt(code[4..]) == DiscountPercentage(diceResult)
      && code[|code| - |NatToString(timestamp)|..] == NatToString(timestamp)
  {
    var p := DiscountPercentage(diceResult);
    CodeEncodes(p.value, timestamp);
    assert p == Some(p.value);
  }

  lemma CodeEncodes(p: nat, timestamp: nat)
    ensures var code := GeneratedCode(Some(p), timestamp);
      && StartsWith(code, "DICE")
      && ParseInt(code[4..]) == Some(p)
      && code[|code| - |NatToString(timestamp)|..] == NatToString(timestamp)
  {
    CodePercentage(p, timestamp);
    var code := GeneratedCode(Some(p), timestamp);
    assert code == ("DICE" + NatToString(p) + "_") + NatToString(timestamp);
    EndsWithSuffix("DICE" + NatToString(p) + "_", NatToString(timestamp));
  }

  lemma CodePercentage(p: nat, timestamp: nat)
    ensures var code := GeneratedCode(Some(p), timestamp);
      StartsWith(code, "DICE") && ParseInt(code[4..]) == Some(p)
  {
    var digits := NatToString(p);
    var rest := "_" + NatToString(timestamp);
    var code := "DICE" + (digits + rest);
    assert GeneratedCode(Some(p), timestamp) == code;
    assert code[4..] == digits + rest;
    ParseIntOfRendering(p, rest);
  }

  lemma EndsWithSuffix(a: string, b: string)
    ensures (a + b)[|a + b| - |b|..] == b
  {
  }

  /** `createPriceRule(percentage, code)`: the request it sends at time `now`. */
  function PriceRuleRequest(p: Option<nat>, code: string, now: int): Request {
    Request("/price_rules.json", POST, Some(PriceRuleData(PriceRulePayload(
      "Dice Roll Discount " + PercentText(p) + "% - " + code,
      "line_item", "all", "across", "percentage", "-" + PercentText(p), "all",
      now, None, 1))))
  }

  /** `createDiscountCode(priceRuleId, code)`: the request it sends. */
  function DiscountCodeRequest(priceRuleId: string, code: string): Request {
    Request("/price_rules/" + priceRuleId + "/discount_codes.json", POST, Some(DiscountCodeData(code)))
  }

  /** The price rule takes off exactly the percentage it is given, at most
      once, on all line items: its value parses back as minus the percentage. */
  lemma PriceRuleIsSingleUsePercentage(p: nat, code: string, now: int)
    ensures var rule := PriceRuleRequest(Some(p), code, now).data.value.rule;
      && rule.valueType == "percentage"
      && rule.targetSelection == "all"
      && rule.usageLimit == 1
      && ParseInt(rule.value) == Some(-(p as int))
  {
    assert PriceRuleRequest(Some(p), code, now).data.value.rule.value == "-" + NatToString(p);
    ParseIntOfNegatedRendering(p);
  }

  /** `createDiceRollDiscount(diceResult, userName, userMobile)` at time `now`:
      create the price rule, then its discount code, both under the generated
      code; any failure on the way becomes the one error message. */
  function CreateDiceRollDiscount(cfg: Config, diceResult: int, now: nat, api: Request -> Response)
    : (r: Result<Discount, string>)
    ensures var p := DiscountPercentage(diceResult);
      var code := GeneratedCode(p, now);
      var ruleReply := api(PriceRuleRequest(p, code, now));
      && (r.Success? <==>
           && ruleReply.Ok? && ruleReply.body.PriceRuleBody?
           && var codeReply := api(DiscountCodeRequest(ruleReply.body.priceRuleId, code));
              codeReply.Ok? && codeReply.body.DiscountCodeBody?)
      && (r.Success? ==>
           var codeReply := api(DiscountCodeRequest(ruleReply.body.priceRuleId, code));
           && r.value.code == codeReply.body.code
           && r.value.percentage == p
           && r.value.priceRuleId == ruleReply.body.priceRuleId
           && r.value.discountCodeId == codeReply.body.discountCodeId
           && r.value.shopifyUrl == "https://" + cfg.storeUrl + "/discount/" + code
           && r.value.expiresAt == None)
      && (r.Failure? ==> r.error == CreateFailedMessage)
  {
    var p := DiscountPercentage(diceResult);
    var code := GeneratedCode(p, now);
    match api(PriceRuleRequest(p, code, now))
    case Ok(PriceRuleBody(ruleId)) =>
      (match api(DiscountCodeRequest(ruleId, code))
       case Ok(DiscountCodeBody(codeId, returned, _)) =>
         Success(Discount(returned, p, ruleId, codeId, "https://" + cfg.storeUrl + "/discount/" + code, None))
       case _ => Failure(CreateFailedMessage))
    case _ => Failure(CreateFailedMessage)
  }

  /** `checkDiscountCode(code)`: the looked-up code; `None` when Shopify answers
      404 (or the body has no discount code); any other rejection is rethrown
      with its status. */
  function CheckDiscountCode(code: string, api: Request -> Response)
    : (r: Result<Option<Body>, Option<int>>)
    ensures var reply := api(Request("/discount_codes/lookup.json?code=" + code, GET, None));
      && (r.Failure? <==> reply.Rejected? && reply.status != Some(404))
      && (r.Failure? ==> r.error == reply.status)
      && (r == Success(None) <==> reply == Rejected(Some(404)) || (reply.Ok? && !reply.body.DiscountCodeBody?))
      && (r.Success? && r.value.Some? ==> reply == Ok(r.value.value) && r.value.value.DiscountCodeBody?)
  {
    match api(Request("/discount_codes/lookup.json?code=" + code, GET, None))
    case Ok(body) => if body.DiscountCodeBody? then Success(Some(body)) else Success(None)
    case Rejected(status) => if status == Some(404) then Success(None) else Failure(status)
  }

  /** `deleteDiscount(priceRuleId)`: true exactly when the DELETE succeeded;
      it never throws. */
  function DeleteDiscount(priceRuleId: string, api: Request -> Response): (deleted: bool)
    ensures deleted <==> api(Request("/price_rules/" + priceRuleId + ".json", DELETE, None)).Ok?
  {
    match api(Request("/price_rules/" + priceRuleId + ".json", DELETE, None))
    case Ok(_) => true
    case Rejected(_) => false
  }

  /** The price rule `createDiscountWithExpiry` sends: titled with the
      player's name and ending at `expiresAt`. */
  function ExpiringPriceRuleRequest(p: Option<nat>, userName: string, now: int, expiresAt: int): Request {
    Request("/price_rules.json", POST, Some(PriceRuleData(PriceRulePayload(
      "Dice Roll " + PercentText(p) + "% - " + userName,
      "line_item", "all", "across", "percentage", "-" + PercentText(p), "all",
      now, Some(expiresAt), 1))))
  }

  /** `createDiscountWithExpiry(diceResult, userName, userMobile, expiryDays)`:
      `expiresAt` is the date `expiryDays` days after `now` (calendar arithmetic
      is not modelled). Same two steps, same single error. */
  function CreateDiscountWithExpiry(cfg: Config, diceResult: int, userName: string, now: nat, expiresAt: int,
                                    api: Request -> Response)
    : (r: Result<Discount, string>)
    ensures var p := DiscountPercentage(diceResult);
      var code := GeneratedCode(p, now);
      var ruleReply := api(ExpiringPriceRuleRequest(p, userName, now, expiresAt));
      && (r.Success? <==>
           && ruleReply.Ok? && ruleReply.body.PriceRuleBody?
           && var codeReply := api(DiscountCodeRequest(ruleReply.body.priceRuleId, code));
              codeReply.Ok? && codeReply.body.DiscountCodeBody?)
      && (r.Success? ==>
           var codeReply := api(DiscountCodeRequest(ruleReply.body.priceRuleId, code));
           && r.value.code == codeReply.body.code
           && r.value.percentage == p
           && r.value.priceRuleId == ruleReply.body.priceRuleId
           && r.value.discountCodeId == codeReply.body.discountCodeId
           && r.value.shopifyUrl == "https://" + cfg.storeUrl + "/discount/" + code
           && r.value.expiresAt == Some(expiresAt))
      && (r.Failure? ==> r.error == CreateFailedMessage)
  {
    var p := DiscountPercentage(diceResult);
    var code := GeneratedCode(p, now);
    match api(ExpiringPriceRuleRequest(p, userName, now, expiresAt))
    case Ok(PriceRuleBody(ruleId)) =>
      (match api(DiscountCodeRequest(ruleId, code))
       case Ok(DiscountCodeBody(codeId, returned, _)) =>
         Success(Discount(returned, p, ruleId, codeId, "https://" + cfg.storeUrl + "/discount/" + code, Some(expiresAt)))
       case _ => Failure(CreateFailedMessage))
    case _ => Failure(CreateFailedMessage)
  }
}
