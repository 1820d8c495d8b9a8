// The billing catalogue of CONFIG/billing.py: the billing model in use, the
// subscription plans and the credit packages. Every key of the Python
// dictionaries is an `Option` field here, because the code that reads them
// (`.get(...)`, `'key' in plan`, the configuration self-test) distinguishes
// a missing key from a present one.
module Catalog {
  import opened Wrappers

  /** `price`: `value` is the number as Python prints it (`299.0`), kept as text. */
  datatype Price = Price(value: Option<string>, currencySymbol: Option<string>)

  datatype Plan = Plan(
    key: Option<string>,
    name: Option<string>,
    icon: Option<string>,
    description: Option<string>,
    price: Option<Price>,
    stripePriceId: Option<string>,
    show: Option<bool>,
    lifetime: Option<bool>,
    included: Option<seq<string>>,
    notIncluded: Option<seq<string>>)
  {
    /** A dictionary with no key at all, the only falsy plan in Python. */
    predicate IsEmpty()
    {
      key.None? && name.None? && icon.None? && description.None? && price.None? &&
      stripePriceId.None? && show.None? && lifetime.None? && included.None? && notIncluded.None?
    }

    /** `plan.get('lifetime', False)`. */
    predicate IsLifetime()
    {
      lifetime == Some(true)
    }
  }

  datatype CreditPackage = CreditPackage(
    key: Option<string>,
    name: Option<string>,
    description: Option<string>,
    icon: Option<string>,
    price: Option<Price>,
    stripePriceId: Option<string>,
    show: Option<bool>,
    credits: Option<int>)
  {
    predicate IsEmpty()
    {
      key.None? && name.None? && description.None? && icon.None? && price.None? &&
      stripePriceId.None? && show.None? && credits.None?
    }
  }

  const BILLING_MODEL: string := "subscriptions"

  const EURO: string := "€"

  function Eur(value: string): Option<Price>
  {
    Some(Price(Some(value), Some(EURO)))
  }

  const GOOD_THINGS: seq<string> := ["One good thing", "One other good thing", "And one more good thing"]
  const BAD_THINGS: seq<string> := ["One bad thing", "One other bad thing", "And one more bad thing"]

  const SUBSCRIPTIONS: seq<Plan> := [
    Plan(Some("default"), Some("Free tier"), Some("smile"),
         Some("For those who want to try out the service before committing"),
         Eur("0.0"), None, Some(false), None, None, None),
    Plan(Some("lifetime"), Some("Lifetime license"), Some("thumbs-up"),
         Some("Enjoy all the features of the service forever"),
         Eur("299.0"), Some("price_1PKewlRq8MH1iNLlqTtsRHrL"), Some(true), Some(true),
         Some(GOOD_THINGS), Some(BAD_THINGS)),
    Plan(Some("monthly"), Some("Monthly subscription"), Some("calendar"),
         Some("Enjoy all the features of the service for a month"),
         Eur("20.0"), Some("price_1PKexCRq8MH1iNLl6Bub67Op"), Some(true), Some(false),
         Some(GOOD_THINGS), Some(BAD_THINGS))
  ]

  const CREDIT_PACKAGES: seq<CreditPackage> := [
    CreditPackage(Some("ten_credits"), Some("10 credits"), Some("Get 10 credits to use on the service"),
                  Some("thumbs-up"), Eur("10.0"), Some("price_1PNE60Rq8MH1iNLlO6gf9B55"), Some(true), Some(10)),
    CreditPackage(Some("twenty_five_credits"), Some("25 credits"), Some("Get 25 credits to use on the service"),
                  Some("heart"), Eur("22.5"), Some("price_1PNE6KRq8MH1iNLl1708k33a"), Some(true), Some(25)),
    CreditPackage(Some("fifty_credits"), Some("50 credits"), Some("Get 50 credits to use on the service"),
                  Some("star"), Eur("43.0"), Some("price_1PNEFTRq8MH1iNLlTH6ivdZN"), Some(true), Some(50))
  ]

  /** The first plan is the only one keyed `default`, and it has no Stripe price. */
  lemma ShippedDefaultPlan()
    ensures forall i :: 0 <= i < |SUBSCRIPTIONS| ==> (SUBSCRIPTIONS[i].key == Some("default") <==> i == 0)
    ensures SUBSCRIPTIONS[0].stripePriceId.None? && !SUBSCRIPTIONS[0].IsLifetime()
  {
  }

  /** No two plans, and no two packages, share a key; every entry has one. */
  lemma ShippedKeysDistinct()
    ensures forall i :: 0 <= i < |SUBSCRIPTIONS| ==> SUBSCRIPTIONS[i].key.Some?
    ensures forall i, j :: 0 <= i < j < |SUBSCRIPTIONS| ==> SUBSCRIPTIONS[i].key != SUBSCRIPTIONS[j].key
    ensures forall i :: 0 <= i < |CREDIT_PACKAGES| ==> CREDIT_PACKAGES[i].key.Some?
    ensures forall i, j :: 0 <= i < j < |CREDIT_PACKAGES| ==> CREDIT_PACKAGES[i].key != CREDIT_PACKAGES[j].key
  {
  }

  /** Every Stripe price id in the catalogue names exactly one plan or package. */
  lemma ShippedPriceIdsDistinct()
    ensures forall i, j :: 0 <= i < j < |SUBSCRIPTIONS| ==> SUBSCRIPTIONS[i].stripePriceId != SUBSCRIPTIONS[j].stripePriceId
    ensures forall i, j :: 0 <= i < j < |CREDIT_PACKAGES| ==> CREDIT_PACKAGES[i].stripePriceId != CREDIT_PACKAGES[j].stripePriceId
    ensures forall i, j :: 0 <= i < |SUBSCRIPTIONS| && 0 <= j < |CREDIT_PACKAGES| ==>
      SUBSCRIPTIONS[i].stripePriceId != CREDIT_PACKAGES[j].stripePriceId
    ensures forall j :: 0 <= j < |CREDIT_PACKAGES| ==> CREDIT_PACKAGES[j].stripePriceId.Some?
  {
  }

  /** Only the `lifetime` plan is sold as a one-time lifetime purchase; every package adds credits. */
  lemma ShippedLifetimeAndCredits()
    ensures forall i :: 0 <= i < |SUBSCRIPTIONS| ==> (SUBSCRIPTIONS[i].IsLifetime() <==> SUBSCRIPTIONS[i].key == Some("lifetime"))
    ensures forall j :: 0 <= j < |CREDIT_PACKAGES| ==> CREDIT_PACKAGES[j].credits.Some? && CREDIT_PACKAGES[j].credits.value > 0
    ensures forall i :: 0 <= i < |SUBSCRIPTIONS| ==> !SUBSCRIPTIONS[i].IsEmpty()
    ensures forall j :: 0 <= j < |CREDIT_PACKAGES| ==> !CREDIT_PACKAGES[j].IsEmpty()
  {
  }
}
