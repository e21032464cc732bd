/** The order request schemas: `orderSchema`, which validates the body of an
    order request, and `orderStatusSchema`, which validates a status update.
    Both follow the validator library's defaults: a string must be a
    non-empty string, and keys the schema does not name are refused. The
    phone-number, email and date rules come from the library and are
    abstract here. */
module OrderValidation {
  import opened Common

  /** The library's own rules: `.phoneNumber()`, `.email()` and `Joi.date()`. */
  datatype Rules = Rules(isPhoneNumber: string -> bool, isEmail: string -> bool, isDate: Json -> bool)

  /** The keys `orderSchema` names. */
  const OrderKeys: set<string> := {
    "fullName", "phoneNumber", "country", "streetAddress", "town", "email",
    "deliveryDate", "paymentMethod", "mobileMoneyNumber", "orderNumber"
  }

  /** The payment methods accepted. */
  const PaymentMethods: set<string> := {"creditCard", "mobileMoney"}

  /** `Joi.string()`: a string, and not the empty one. */
  predicate IsText(v: Json)
  {
    v.JStr? && v.s != ""
  }

  /** `Joi.string().required()` on `key`, with an extra rule on the text. */
  predicate RequiredText(body: map<string, Json>, key: string, rule: string -> bool)
  {
    key in body && IsText(body[key]) && rule(body[key].s)
  }

  predicate IsDigit(c: char)
  {
    '0' <= c <= '9'
  }

  /** `/^[0-9]{10,15}$/`: ten to fifteen digits and nothing else. */
  predicate MobileMoneyPattern(s: string)
  {
    10 <= |s| <= 15 && forall i :: 0 <= i < |s| ==> IsDigit(s[i])
  }

  /** `mobileMoneyNumber`: required and matching the pattern when the payment
      method is `mobileMoney`, forbidden otherwise. */
  predicate MobileMoneyRule(body: map<string, Json>)
  {
    if "paymentMethod" in body && body["paymentMethod"] == JStr("mobileMoney") then
      "mobileMoneyNumber" in body && body["mobileMoneyNumber"].JStr? &&
      MobileMoneyPattern(body["mobileMoneyNumber"].s)
    else
      "mobileMoneyNumber" !in body
  }

  /** Whether `orderSchema` accepts the body. */
  predicate OrderSchemaAccepts(body: map<string, Json>, rules: Rules)
  {
    && body.Keys <= OrderKeys
    && RequiredText(body, "fullName", _ => true)
    && RequiredText(body, "phoneNumber", rules.isPhoneNumber)
    && RequiredText(body, "country", _ => true)
    && RequiredText(body, "streetAddress", _ => true)
    && RequiredText(body, "town", _ => true)
    && RequiredText(body, "email", rules.isEmail)
    && "deliveryDate" in body && rules.isDate(body["deliveryDate"])
    && "paymentMethod" in body && body["paymentMethod"].JStr? && body["paymentMethod"].s in PaymentMethods
    && MobileMoneyRule(body)
    && ("orderNumber" in body ==> IsText(body["orderNumber"]))
  }

  /** The eight required fields: a body lacking any of them is refused. */
  lemma RequiredFields(body: map<string, Json>, rules: Rules, key: string)
    requires key in {"fullName", "phoneNumber", "country", "streetAddress", "town", "email", "deliveryDate", "paymentMethod"}
    requires key !in body
    ensures !OrderSchemaAccepts(body, rules)
  {
  }

  /** An accepted body names a known payment method and carries a mobile-money
      number exactly when that method is `mobileMoney`, the number being ten
      to fifteen digits. */
  lemma AcceptedPayment(body: map<string, Json>, rules: Rules)
    requires OrderSchemaAccepts(body, rules)
    ensures body["paymentMethod"] == JStr("creditCard") || body["paymentMethod"] == JStr("mobileMoney")
    ensures "mobileMoneyNumber" in body <==> body["paymentMethod"] == JStr("mobileMoney")
    ensures "mobileMoneyNumber" in body ==>
      var n := body["mobileMoneyNumber"];
      n.JStr? && 10 <= |n.s| <= 15 && forall i :: 0 <= i < |n.s| ==> '0' <= n.s[i] <= '9'
  {
  }

  /** Any other payment method is refused. */
  lemma UnknownPaymentMethod(body: map<string, Json>, rules: Rules, choice: string)
    requires "paymentMethod" in body && body["paymentMethod"] == JStr(choice)
    requires choice != "creditCard" && choice != "mobileMoney"
    ensures !OrderSchemaAccepts(body, rules)
  {
  }

  /** Paying by mobile money with a number too short, too long or with a
      non-digit is refused. */
  lemma BadMobileMoneyNumber(body: map<string, Json>, rules: Rules, number: string)
    requires "paymentMethod" in body && body["paymentMethod"] == JStr("mobileMoney")
    requires "mobileMoneyNumber" in body && body["mobileMoneyNumber"] == JStr(number)
    requires |number| < 10 || |number| > 15 || exists i :: 0 <= i < |number| && !IsDigit(number[i])
    ensures !OrderSchemaAccepts(body, rules)
  {
  }

  /** A body that does not pay by mobile money and carries a mobile-money
      number is refused, whatever the number. */
  lemma MobileMoneyNumberForbidden(body: map<string, Json>, rules: Rules)
    requires "mobileMoneyNumber" in body
    requires "paymentMethod" !in body || body["paymentMethod"] != JStr("mobileMoney")
    ensures !OrderSchemaAccepts(body, rules)
  {
  }

  /** `orderNumber` is optional: removing it keeps an accepted body accepted,
      and adding a non-empty one to an accepted body keeps it accepted. */
  lemma OrderNumberOptional(body: map<string, Json>, rules: Rules, number: string)
    requires OrderSchemaAccepts(body, rules)
    ensures OrderSchemaAccepts(body - {"orderNumber"}, rules)
    ensures number != "" ==> OrderSchemaAccepts(body["orderNumber" := JStr(number)], rules)
  {
    var without := body - {"orderNumber"};
    assert MobileMoneyRule(without) by {
      assert "paymentMethod" in without && without["paymentMethod"] == body["paymentMethod"];
    }
    if number != "" {
      var added := body["orderNumber" := JStr(number)];
      assert MobileMoneyRule(added) by {
        assert "paymentMethod" in added && added["paymentMethod"] == body["paymentMethod"];
      }
    }
  }

  /** A complete mobile-money order is accepted when the library's rules
      accept its phone number, email and date. */
  lemma MobileMoneyOrderAccepted(body: map<string, Json>, rules: Rules)
    requires body == map[
      "fullName" := JStr("A Buyer"), "phoneNumber" := JStr("+250788123456"),
      "country" := JStr("Rwanda"), "streetAddress" := JStr("KN 1 St"), "town" := JStr("Kigali"),
      "email" := JStr("buyer@example.com"), "deliveryDate" := JStr("2024-07-01"),
      "paymentMethod" := JStr("mobileMoney"), "mobileMoneyNumber" := JStr("0788123456")]
    requires rules.isPhoneNumber("+250788123456") && rules.isEmail("buyer@example.com")
    requires rules.isDate(JStr("2024-07-01"))
    ensures OrderSchemaAccepts(body, rules)
  {
    var n := "0788123456";
    assert body["mobileMoneyNumber"] == JStr(n);
    assert forall i :: 0 <= i < |n| ==> IsDigit(n[i]);
  }

  /** The order statuses of the order model. */
  datatype OrderStatus = Pending | Completed | Canceled | Initiated | Failed

  /** Each status's stored value. */
  function StatusValue(st: OrderStatus): string
  {
    match st
    case Pending => "Pending"
    case Completed => "Completed"
    case Canceled => "Canceled"
    case Initiated => "Initiated"
    case Failed => "Failed"
  }

  /** The values `orderStatusSchema` accepts for `status`. */
  const StatusValues: set<string> := {"Pending", "Canceled", "Initiated", "Failed", "Completed"}

  /** Whether `orderStatusSchema` accepts the body. */
  predicate StatusSchemaAccepts(body: map<string, Json>)
  {
    body.Keys == {"status"} && body["status"].JStr? && body["status"].s in StatusValues
  }

  /** Reads a stored value back as a status. */
  function ParseStatus(s: string): (st: Option<OrderStatus>)
    ensures st.Some? <==> s in StatusValues
    ensures st.Some? ==> StatusValue(st.value) == s
  {
    if s == "Pending" then Some(Pending)
    else if s == "Completed" then Some(Completed)
    else if s == "Canceled" then Some(Canceled)
    else if s == "Initiated" then Some(Initiated)
    else if s == "Failed" then Some(Failed)
    else None
  }

  /** Values and statuses are in one-to-one correspondence. */
  lemma StatusRoundTrip(st: OrderStatus)
    ensures ParseStatus(StatusValue(st)) == Some(st)
  {
  }

  /** The status schema accepts exactly the bodies `{ status }` whose value
      is one of the order model's statuses. */
  lemma StatusSchemaMatchesModel(body: map<string, Json>)
    ensures StatusSchemaAccepts(body) <==>
      body.Keys == {"status"} && body["status"].JStr? && ParseStatus(body["status"].s).Some?
    ensures forall st: OrderStatus :: StatusSchemaAccepts(map["status" := JStr(StatusValue(st))])
  {
    forall st: OrderStatus ensures StatusSchemaAccepts(map["status" := JStr(StatusValue(st))]) {
      StatusRoundTrip(st);
    }
  }
}
