// The view mixins of modules/billing/mixins.py: `UserHasSubscriptionMixin`,
// which lets a request through only for the plans a view names, and
// `CreditActionMixin`, which charges credits for a request made with the
// HTTP method a view names.
module BillingMixins {
  import opened Wrappers
  import opened Text
  import opened BillingModels
  import opened Accounts
  import opened Store
  import opened CreditLedger
  import opened AccountBilling
  import opened Responses

  const REQUIRED_NOT_SET: string :=
    "required_subscription is not set. Please set the required_subscription attribute or override the get_required_subscription method."
  const REQUIRED_BAD_TYPE: string := "required_subscription must be a string or a list of strings."
  const AMOUNT_NOT_SET: string :=
    "amount_of_credits is not set. Please set the amount_of_credits attribute or override the get_amount_of_credits method."
  const ACTION_NOT_SET: string :=
    "action is not set. Please set the action attribute or override the get_action method."
  const CONSUME_ON_NOT_SET: string :=
    "consume_credits_on is not set. Please set the consume_credits_on attribute or override the get_consume_credits_on method."
  const CONSUME_ON_BAD: string := "consume_credits_on must be either 'GET' or 'POST'."
  const FAILED_URL_MISSING: string := "Please implement the get_failed_url method."

  /** The `required_subscription` attribute: unset (`None`), a string, a list, or any other value. */
  datatype RequiredSubscription = Unset | RequiredKey(key: string) | RequiredKeys(keys: seq<string>) | OtherValue

  /** `get_required_subscription`: a string becomes a one-element list, a list is kept, anything else raises. */
  function GetRequiredSubscription(req: RequiredSubscription): (r: Result<seq<string>, Raised>)
    ensures r.Ok? <==> req.RequiredKey? || req.RequiredKeys?
    ensures req.RequiredKey? ==> r == Ok([req.key])
    ensures req.RequiredKeys? ==> r == Ok(req.keys)
    ensures req.Unset? ==> r == Err(ValueError(REQUIRED_NOT_SET))
    ensures req.OtherValue? ==> r == Err(ValueError(REQUIRED_BAD_TYPE))
  {
    match req
    case Unset => Err(ValueError(REQUIRED_NOT_SET))
    case RequiredKey(k) => Ok([k])
    case RequiredKeys(ks) => Ok(ks)
    case OtherValue => Err(ValueError(REQUIRED_BAD_TYPE))
  }

  /**
   * `UserHasSubscriptionMixin.dispatch`: not signed in goes to log in; no
   * subscription row, or a stored plan key outside the required list, is
   * refused; the required list is only read once both earlier tests pass.
   */
  function SubscriptionGate(req: RequiredSubscription, signedIn: bool, sub: Option<SubscriptionState>): (r: Response)
    ensures !signedIn ==> r == RedirectToLogin
    ensures signedIn && sub.None? ==> r == Failed(PermissionDenied(""))
    ensures signedIn && sub.Some? && GetRequiredSubscription(req).Err? ==> r == Failed(GetRequiredSubscription(req).error)
    ensures r == Proceed <==>
      signedIn && sub.Some? && GetRequiredSubscription(req).Ok? && sub.value.key in GetRequiredSubscription(req).value
    ensures r.Failed? ==> r.Status() == 403 || r.Status() == 500
  {
    if !signedIn then RedirectToLogin
    else if sub.None? then Failed(PermissionDenied(""))
    else
      match GetRequiredSubscription(req)
      case Err(e) => Failed(e)
      case Ok(keys) => if sub.value.key in keys then Proceed else Failed(PermissionDenied(""))
  }

  /** The gate run on a request's user (`null` when not signed in). */
  function SubscriptionGateFor(req: RequiredSubscription, user: User?): (r: Response)
    reads user, if user != null then {user.subscription} else {}
    ensures user == null ==> r == RedirectToLogin
    ensures user != null && user.subscription == null ==> r == Failed(PermissionDenied(""))
    ensures user != null && user.subscription != null ==> r == SubscriptionGate(req, true, Some(user.subscription.State()))
  {
    if user == null then RedirectToLogin
    else if user.subscription == null then SubscriptionGate(req, true, None)
    else SubscriptionGate(req, true, Some(user.subscription.State()))
  }

  /**
   * The gate reads the stored plan key, not `is_active`: a subscription whose
   * period has ended is still let through on its old plan, although
   * `get_subscription` already reports it as the free tier.
   */
  lemma {:induction false} ExpiredSubscriptionAdmitted(s: SubscriptionState, keys: seq<string>, now: int)
    requires !s.IsActive(now) && s.key in keys
    ensures SubscriptionGate(RequiredKeys(keys), true, Some(s)) == Proceed
    ensures EffectiveKey(s, now) == DEFAULT_KEY
  {
  }

  /** Only the plan key matters: two subscriptions on the same plan get the same answer. */
  lemma {:induction false} GateSeesOnlyKey(req: RequiredSubscription, s: SubscriptionState, t: SubscriptionState)
    requires s.key == t.key
    ensures SubscriptionGate(req, true, Some(s)) == SubscriptionGate(req, true, Some(t))
  {
  }

  /** What `CreditActionMixin.dispatch` answers, and the charge it makes, if any: `(amount, action)`. */
  datatype CreditDecision = CreditDecision(response: Response, charge: Option<(int, string)>)

  /**
   * A view using `CreditActionMixin`. Its attributes are class constants;
   * `failedUrl` is what the view's `get_failed_url` returns, `None` when the
   * view keeps the mixin's own, which raises.
   */
  class CreditActionView {
    const amountOfCredits: Option<int>
    const action: Option<string>
    const consumeCreditsOn: Option<string>
    const failedUrl: Option<string>

    constructor (amountOfCredits: Option<int>, action: Option<string>, consumeCreditsOn: Option<string>, failedUrl: Option<string>)
      ensures this.amountOfCredits == amountOfCredits && this.action == action
      ensures this.consumeCreditsOn == consumeCreditsOn && this.failedUrl == failedUrl
    {
      this.amountOfCredits := amountOfCredits;
      this.action := action;
      this.consumeCreditsOn := consumeCreditsOn;
      this.failedUrl := failedUrl;
    }

    /** `get_amount_of_credits`. */
    function GetAmountOfCredits(): (r: Result<int, Raised>)
      ensures r.Ok? <==> amountOfCredits.Some?
      ensures r.Ok? ==> r.value == amountOfCredits.value
      ensures r.Err? ==> r.error == ValueError(AMOUNT_NOT_SET)
    {
      if amountOfCredits.None? then Err(ValueError(AMOUNT_NOT_SET)) else Ok(amountOfCredits.value)
    }

    /** `get_action`. */
    function GetAction(): (r: Result<string, Raised>)
      ensures r.Ok? <==> action.Some?
      ensures r.Ok? ==> r.value == action.value
      ensures r.Err? ==> r.error == ValueError(ACTION_NOT_SET)
    {
      if action.None? then Err(ValueError(ACTION_NOT_SET)) else Ok(action.value)
    }

    /** `get_consume_credits_on`: `GET` or `POST` in any letter case, answered in lower case. */
    function GetConsumeCreditsOn(): (r: Result<string, Raised>)
      ensures r.Ok? <==> consumeCreditsOn.Some? && Lower(consumeCreditsOn.value) in ["get", "post"]
      ensures r.Ok? ==> r.value == Lower(consumeCreditsOn.value) && (r.value == "get" || r.value == "post")
      ensures consumeCreditsOn.None? ==> r == Err(ValueError(CONSUME_ON_NOT_SET))
      ensures consumeCreditsOn.Some? && r.Err? ==> r == Err(ValueError(CONSUME_ON_BAD))
    {
      if consumeCreditsOn.None? then Err(ValueError(CONSUME_ON_NOT_SET))
      else if Lower(consumeCreditsOn.value) !in ["get", "post"] then Err(ValueError(CONSUME_ON_BAD))
      else Ok(Lower(consumeCreditsOn.value))
    }

    /** `get_failed_url`. */
    function GetFailedUrl(): (r: Result<string, Raised>)
      ensures r.Ok? <==> failedUrl.Some?
      ensures r.Ok? ==> r.value == failedUrl.value
    {
      if failedUrl.None? then Err(NotImplemented(FAILED_URL_MISSING)) else Ok(failedUrl.value)
    }

    /**
     * The decision `dispatch` makes for a request with HTTP method
     * `requestMethod`, by a visitor with the given balance: credits are
     * charged only when the request's method is the configured one and the
     * balance covers the amount; a short balance goes to the failed URL.
     */
    function Decide(signedIn: bool, balance: int, requestMethod: string): (d: CreditDecision)
      ensures !signedIn ==> d == CreditDecision(RedirectToLogin, None)
      ensures d.charge.Some? <==>
        signedIn && GetConsumeCreditsOn() == Ok(Lower(requestMethod)) &&
        GetAmountOfCredits().Ok? && balance >= GetAmountOfCredits().value && GetAction().Ok?
      ensures d.charge.Some? ==>
        d.response == Proceed && d.charge.value == (GetAmountOfCredits().value, GetAction().value)
      ensures signedIn && GetConsumeCreditsOn().Ok? && GetConsumeCreditsOn().value != Lower(requestMethod) ==>
        d == CreditDecision(Proceed, None)
      ensures signedIn && GetConsumeCreditsOn() == Ok(Lower(requestMethod)) &&
              GetAmountOfCredits().Ok? && balance < GetAmountOfCredits().value ==>
        d.charge.None? &&
        d.response == (if failedUrl.Some? then Redirect(failedUrl.value, None) else Failed(NotImplemented(FAILED_URL_MISSING)))
      ensures signedIn && GetConsumeCreditsOn().Err? ==> d == CreditDecision(Failed(GetConsumeCreditsOn().error), None)
    {
      if !signedIn then CreditDecision(RedirectToLogin, None)
      else
        match GetConsumeCreditsOn()
        case Err(e) => CreditDecision(Failed(e), None)
        case Ok(on) =>
          if on != Lower(requestMethod) then CreditDecision(Proceed, None)
          else
            match GetAmountOfCredits()
            case Err(e) => CreditDecision(Failed(e), None)
            case Ok(amount) =>
              if balance < amount then
                match GetFailedUrl()
                case Err(e) => CreditDecision(Failed(e), None)
                case Ok(url) => CreditDecision(Redirect(url, None), None)
              else
                match GetAction()
                case Err(e) => CreditDecision(Failed(e), None)
                case Ok(a) => CreditDecision(Proceed, Some((amount, a)))
    }

    /**
     * `dispatch(request)` with `user` the request's user (`null` when not
     * signed in): the response and the charge are those `Decide` gives; a
     * charge is one `consume_credits` call, which always succeeds because the
     * balance was checked just before.
     */
    method Dispatch(db: Database, user: User?, requestMethod: string) returns (r: Response)
      modifies user, db`creditActions
      ensures user != null ==> r == Decide(true, old(user.creditsBalance), requestMethod).response
      ensures user == null ==> r == RedirectToLogin && db.creditActions == old(db.creditActions)
      ensures user != null && Decide(true, old(user.creditsBalance), requestMethod).charge.None? ==>
        user.creditsBalance == old(user.creditsBalance) && db.creditActions == old(db.creditActions)
      ensures user != null && Decide(true, old(user.creditsBalance), requestMethod).charge.Some? ==>
        var c := Decide(true, old(user.creditsBalance), requestMethod).charge.value;
        user.creditsBalance == old(user.creditsBalance) - c.0 &&
        db.creditActions == old(db.creditActions) + [CreditAction(user.id, c.0, c.1, old(user.creditsBalance), user.creditsBalance)]
      ensures user != null ==> user.subscription == old(user.subscription) && user.stripeCustomerId == old(user.stripeCustomerId)
    {
      if user == null {
        return RedirectToLogin;
      }
      var on := GetConsumeCreditsOn();
      if on.Err? {
        return Failed(on.error);
      }
      if on.value == Lower(requestMethod) {
        var amount := GetAmountOfCredits();
        if amount.Err? {
          return Failed(amount.error);
        }
        if user.creditsBalance < amount.value {
          var url := GetFailedUrl();
          if url.Err? {
            return Failed(url.error);
          }
          return Redirect(url.value, None);
        }
        var a := GetAction();
        if a.Err? {
          return Failed(a.error);
        }
        var ok := ConsumeCredits(db, user, amount.value, a.value);
        assert ok;
      }
      return Proceed;
    }
  }

  /** A view charging on `POST` never charges a `GET` request, whatever the balance. */
  lemma {:induction false} GetRequestsAreFree(v: CreditActionView, balance: int)
    requires v.consumeCreditsOn == Some("POST")
    ensures v.Decide(true, balance, "GET") == CreditDecision(Proceed, None)
  {
    assert Lower("POST") == "post";
    assert Lower("GET") == "get";
  }

  /**
   * Whenever a request is charged, the balance it leaves is the old one less
   * the amount, and it is not negative when the amount is not.
   */
  lemma {:induction false} ChargeNeverOverdraws(v: CreditActionView, balance: int, requestMethod: string)
    requires v.Decide(true, balance, requestMethod).charge.Some?
    requires v.amountOfCredits.Some? && v.amountOfCredits.value >= 0
    ensures balance - v.Decide(true, balance, requestMethod).charge.value.0 >= 0
    ensures v.Decide(true, balance, requestMethod).charge.value.0 == v.amountOfCredits.value
  {
  }
}
