// The power-on self test of modules/post.py: when the URL configuration is
// imported it checks the billing catalogue, the e-mail provider and the
// secrets-manager settings, records each check as passed or failed, and
// raises one exception listing every error when any check failed.
module SelfTest {
  import opened Wrappers
  import opened Text
  import opened Catalog
  import opened Responses

  /** The values `BILLING_MODEL` may take; any other one is reported. */
  datatype ModelChoice = SubscriptionsModel | CreditsModel | BothModel | NoBilling | UnknownModel
  {
    /** The plans are checked under `subscriptions` and `both`. */
    predicate SellsPlans()
    {
      SubscriptionsModel? || BothModel?
    }

    /** The packages are checked under `credits` and `both`. */
    predicate SellsCredits()
    {
      CreditsModel? || BothModel?
    }
  }

  function ModelChoiceOf(model: string): (c: ModelChoice)
    ensures c.SubscriptionsModel? <==> model == "subscriptions"
    ensures c.CreditsModel? <==> model == "credits"
    ensures c.BothModel? <==> model == "both"
    ensures c.NoBilling? <==> model == "none"
  {
    if model == "subscriptions" then SubscriptionsModel
    else if model == "credits" then CreditsModel
    else if model == "both" then BothModel
    else if model == "none" then NoBilling
    else UnknownModel
  }

  const PLAN_REQUIRED: seq<Field> := [KeyField, NameField, DescriptionField, IconField, PriceField, ShowField]
  const PACKAGE_REQUIRED: seq<Field> := [KeyField, NameField, DescriptionField, PriceField]

  /** The values `SECRETS_MANAGER` may take; any other one is reported. */
  datatype ManagerChoice = Infisical | Aws | Azure | EnvFile | UnknownManager

  function ManagerChoiceOf(manager: string): (c: ManagerChoice)
    ensures c.Infisical? <==> manager == "infisical"
    ensures c.Aws? <==> manager == "aws"
    ensures c.Azure? <==> manager == "azure"
    ensures c.EnvFile? <==> manager == "env"
  {
    if manager == "infisical" then Infisical
    else if manager == "aws" then Aws
    else if manager == "azure" then Azure
    else if manager == "env" then EnvFile
    else UnknownManager
  }

  const INFISICAL_SETTINGS: seq<string> :=
    ["INFISICAL_PROJECT_ID", "INFISICAL_CLIENT_ID", "INFISICAL_CLIENT_SECRET", "INFISICAL_ENVIRONMENT"]
  const AWS_SETTINGS: seq<string> := ["AWS_SECRET_NAME", "AWS_ACCESS_KEY_ID", "AWS_SECRET_ACCESS_KEY", "AWS_REGION"]
  const AZURE_SETTINGS: seq<string> :=
    ["AZURE_CLIENT_ID", "AZURE_TENANT_ID", "AZURE_CLIENT_SECRET", "AZURE_KEY_VAULT_NAME"]

  /** Which catalogue list an entry comes from; it only changes the wording of its errors. */
  datatype EntryKind = SubscriptionEntry | PackageEntry
  {
    function Noun(): string
    {
      if SubscriptionEntry? then "Subscription" else "Credit package"
    }
  }

  /** The dictionary keys the self test asks for. */
  datatype Field = KeyField | NameField | DescriptionField | IconField | PriceField | ShowField
  {
    function Name(): string
    {
      match this
      case KeyField => "key"
      case NameField => "name"
      case DescriptionField => "description"
      case IconField => "icon"
      case PriceField => "price"
      case ShowField => "show"
    }
  }

  /** The keys of a `price` dictionary the self test asks for. */
  datatype PriceKey = ValueKey | CurrencySymbolKey
  {
    function Name(): string
    {
      if ValueKey? then "value" else "currency_symbol"
    }
  }

  /**
   * One error a check reports. The self test keeps the rendered text; here it
   * is kept as this datatype and `Message` renders it.
   */
  datatype Problem =
    | InvalidBillingModel(model: string)
    | NoPlans
    | MissingKey(kind: EntryKind, entry: string, missing: Field)
    | MissingPriceKey(kind: EntryKind, entry: string, priceKey: PriceKey)
    | NoDefaultPlan
    | NoPackages
    | SendgridKeyUnset
    | InvalidEmailProvider(provider: string)
    | InvalidSecretsManager(manager: string)
    | SettingUnset(name: string)
  {
    function Message(): string
    {
      match this
      case InvalidBillingModel(m) =>
        "Invalid value for BILLING_MODEL: " + m + ". The value of BILLING_MODEL should be \"subscriptions\", \"credits\" or \"both\"."
      case NoPlans =>
        "No subscription plans found. Please add at least one subscription plan to the SUBSCRIPTIONS list in CONFIG/subscriptions.py."
      case MissingKey(kind, e, k) => kind.Noun() + " with key \"" + e + "\" is missing the key \"" + k.Name() + "\"."
      case MissingPriceKey(kind, e, k) =>
        kind.Noun() + " with key \"" + e + "\" is missing the key \"" + k.Name() + "\" in the price dictionary."
      case NoDefaultPlan =>
        "No subscription with key \"default\" found. Please add a subscription with the key \"default\" to the SUBSCRIPTIONS list in CONFIG/subscriptions.py."
      case NoPackages =>
        "No credit packages found. Please add at least one credit package to the CREDIT_PACKAGES list in CONFIG/subscriptions.py."
      case SendgridKeyUnset =>
        "You're using SendGrid as the email provider but SENDGRID_API_KEY is not set. Please set the SENDGRID_API_KEY in the CONFIG/emails.py file."
      case InvalidEmailProvider(p) =>
        "Invalid value for EMAIL_PROVIDER: " + p + ". The value of EMAIL_PROVIDER should be \"smtp\" or \"sendgrid\"."
      case InvalidSecretsManager(m) =>
        "Invalid value for SECRETS_MANAGER: " + m + ". The value of SECRETS_MANAGER should be \"infisical\", \"aws\", \"azure\" or \"env\"."
      case SettingUnset(n) => n + " is not set. Please set the " + n + " in the CONFIG/secrets.py file."
    }
  }

  /** A plan or a credit package, seen as the dictionary the self test inspects. */
  datatype Entry = PlanEntry(plan: Plan) | PackageOf(package: CreditPackage)
  {
    function Kind(): EntryKind
    {
      if PlanEntry? then SubscriptionEntry else PackageEntry
    }

    /** `k in entry`. */
    predicate Has(k: Field)
    {
      match k
      case KeyField => Key().Some?
      case NameField => if PlanEntry? then plan.name.Some? else package.name.Some?
      case DescriptionField => if PlanEntry? then plan.description.Some? else package.description.Some?
      case IconField => if PlanEntry? then plan.icon.Some? else package.icon.Some?
      case PriceField => PriceOf().Some?
      case ShowField => if PlanEntry? then plan.show.Some? else package.show.Some?
    }

    function Key(): Option<string>
    {
      if PlanEntry? then plan.key else package.key
    }

    function PriceOf(): Option<Price>
    {
      if PlanEntry? then plan.price else package.price
    }
  }

  /** How an entry's key appears in its errors: `str(entry.get('key'))`, so a missing key shows as `None`. */
  function Shown(key: Option<string>): (r: string)
    ensures key.Some? ==> r == key.value
  {
    if key.Some? then key.value else "None"
  }

  /** The missing-key errors of one entry, in the order of `required`. */
  function MissingProblems(e: Entry, required: seq<Field>): (r: seq<Problem>)
    ensures |r| <= |required|
  {
    if |required| == 0 then []
    else
      var k := required[|required| - 1];
      MissingProblems(e, required[..|required| - 1]) +
        (if e.Has(k) then [] else [MissingKey(e.Kind(), Shown(e.Key()), k)])
  }

  lemma MissingStep(e: Entry, required: seq<Field>, j: nat)
    requires j < |required|
    ensures MissingProblems(e, required[..j + 1]) ==
      MissingProblems(e, required[..j]) + (if e.Has(required[j]) then [] else [MissingKey(e.Kind(), Shown(e.Key()), required[j])])
  {
    assert required[..j + 1][..j] == required[..j];
  }

  /** The errors about a present `price` dictionary lacking `value` or `currency_symbol`. */
  function PriceProblems(e: Entry): (r: seq<Problem>)
    ensures |r| <= 2
  {
    match e.PriceOf()
    case None => []
    case Some(price) =>
      (if price.value.None? then [MissingPriceKey(e.Kind(), Shown(e.Key()), ValueKey)] else []) +
      (if price.currencySymbol.None? then [MissingPriceKey(e.Kind(), Shown(e.Key()), CurrencySymbolKey)] else [])
  }

  /** A present price dictionary is reported for each of its two keys it lacks, and only for those. */
  lemma PriceKeysReported(e: Entry)
    ensures MissingPriceKey(e.Kind(), Shown(e.Key()), ValueKey) in PriceProblems(e) <==>
      e.PriceOf().Some? && e.PriceOf().value.value.None?
    ensures MissingPriceKey(e.Kind(), Shown(e.Key()), CurrencySymbolKey) in PriceProblems(e) <==>
      e.PriceOf().Some? && e.PriceOf().value.currencySymbol.None?
  {
  }

  function EntryProblems(e: Entry, required: seq<Field>): seq<Problem>
  {
    MissingProblems(e, required) + PriceProblems(e)
  }

  function PlanEntries(plans: seq<Plan>): (r: seq<Entry>)
    ensures |r| == |plans| && forall i :: 0 <= i < |plans| ==> r[i] == PlanEntry(plans[i])
  {
    seq(|plans|, i requires 0 <= i < |plans| => PlanEntry(plans[i]))
  }

  function PackageEntries(packages: seq<CreditPackage>): (r: seq<Entry>)
    ensures |r| == |packages| && forall i :: 0 <= i < |packages| ==> r[i] == PackageOf(packages[i])
  {
    seq(|packages|, i requires 0 <= i < |packages| => PackageOf(packages[i]))
  }

  /** The errors of every entry, entry after entry. */
  function EachEntry(entries: seq<Entry>, required: seq<Field>): seq<Problem>
  {
    if |entries| == 0 then []
    else EachEntry(entries[..|entries| - 1], required) + EntryProblems(entries[|entries| - 1], required)
  }

  lemma EachEntryStep(entries: seq<Entry>, required: seq<Field>, i: nat)
    requires i < |entries|
    ensures EachEntry(entries[..i + 1], required) == EachEntry(entries[..i], required) + EntryProblems(entries[i], required)
  {
    assert entries[..i + 1][..i] == entries[..i];
  }

  predicate HasDefault(plans: seq<Plan>)
  {
    exists j :: 0 <= j < |plans| && plans[j].key == Some("default")
  }

  lemma HasDefaultStep(plans: seq<Plan>, i: nat)
    requires i < |plans|
    ensures HasDefault(plans[..i + 1]) <==> HasDefault(plans[..i]) || plans[i].key == Some("default")
  {
    if HasDefault(plans[..i + 1]) {
      var j :| 0 <= j < i + 1 && plans[..i + 1][j].key == Some("default");
      if j < i {
        assert plans[..i][j] == plans[j];
      }
    }
    if HasDefault(plans[..i]) {
      var j :| 0 <= j < i && plans[..i][j].key == Some("default");
      assert plans[..i + 1][j] == plans[j];
    }
    if plans[i].key == Some("default") {
      assert plans[..i + 1][i] == plans[i];
    }
  }

  /** The checks of the subscription plans. */
  function PlanProblems(plans: seq<Plan>, required: seq<Field>): seq<Problem>
  {
    (if |plans| == 0 then [NoPlans] else []) +
    EachEntry(PlanEntries(plans), required) +
    (if HasDefault(plans) then [] else [NoDefaultPlan])
  }

  /** The checks of the credit packages. */
  function PackageProblems(packages: seq<CreditPackage>, required: seq<Field>): seq<Problem>
  {
    (if |packages| == 0 then [NoPackages] else []) + EachEntry(PackageEntries(packages), required)
  }

  /**
   * `test_billing`'s errors: the billing model must be a known one; the plans
   * are checked under `subscriptions` and `both`, the packages under
   * `credits` and `both`.
   */
  function BillingProblems(model: string, plans: seq<Plan>, packages: seq<CreditPackage>): seq<Problem>
  {
    var c := ModelChoiceOf(model);
    (if c.UnknownModel? then [InvalidBillingModel(model)] else []) +
    (if c.SellsPlans() then PlanProblems(plans, PLAN_REQUIRED) else []) +
    (if c.SellsCredits() then PackageProblems(packages, PACKAGE_REQUIRED) else [])
  }

  /**
   * An unknown billing model is reported; "no plans", "no default plan" and
   * "no packages" are reported exactly when the model sells what they are
   * about and the catalogue lacks it; the model `none` checks nothing.
   */
  lemma BillingChecksFollowModel(model: string, plans: seq<Plan>, packages: seq<CreditPackage>)
    ensures InvalidBillingModel(model) in BillingProblems(model, plans, packages) <==>
      model !in ["subscriptions", "credits", "both", "none"]
    ensures NoDefaultPlan in BillingProblems(model, plans, packages) <==>
      (model == "subscriptions" || model == "both") && !HasDefault(plans)
    ensures NoPlans in BillingProblems(model, plans, packages) <==>
      (model == "subscriptions" || model == "both") && |plans| == 0
    ensures NoPackages in BillingProblems(model, plans, packages) <==>
      (model == "credits" || model == "both") && |packages| == 0
    ensures model == "none" ==> BillingProblems(model, plans, packages) == []
  {
    CatalogCheckFacts(plans, packages, PLAN_REQUIRED, PACKAGE_REQUIRED);
  }

  /** The list-level errors are reported exactly when the list lacks what they are about. */
  lemma CatalogCheckFacts(plans: seq<Plan>, packages: seq<CreditPackage>, planKeys: seq<Field>, packageKeys: seq<Field>)
    ensures NoDefaultPlan in PlanProblems(plans, planKeys) <==> !HasDefault(plans)
    ensures NoPlans in PlanProblems(plans, planKeys) <==> |plans| == 0
    ensures NoPackages !in PlanProblems(plans, planKeys)
    ensures NoPackages in PackageProblems(packages, packageKeys) <==> |packages| == 0
    ensures NoPlans !in PackageProblems(packages, packageKeys) && NoDefaultPlan !in PackageProblems(packages, packageKeys)
    ensures forall m :: InvalidBillingModel(m) !in PlanProblems(plans, planKeys) + PackageProblems(packages, packageKeys)
  {
    EntryErrorsAreKeyErrors(PlanEntries(plans), planKeys);
    EntryErrorsAreKeyErrors(PackageEntries(packages), packageKeys);
  }

  /** Entry errors are all about a missing key. */
  lemma {:induction false} EntryErrorsAreKeyErrors(entries: seq<Entry>, required: seq<Field>)
    ensures forall p :: p in EachEntry(entries, required) ==> p.MissingKey? || p.MissingPriceKey?
  {
    if |entries| > 0 {
      EntryErrorsAreKeyErrors(entries[..|entries| - 1], required);
      MissingKinds(entries[|entries| - 1], required);
    }
  }

  lemma {:induction false} MissingKinds(e: Entry, required: seq<Field>)
    ensures forall p :: p in MissingProblems(e, required) ==> p.MissingKey?
  {
    if |required| > 0 {
      MissingKinds(e, required[..|required| - 1]);
    }
  }

  /**
   * Every missing required key of an entry is reported exactly once, and a
   * present one never.
   */
  lemma {:induction false} EachMissingKeyOnce(e: Entry, required: seq<Field>, k: Field)
    requires forall i, j :: 0 <= i < j < |required| ==> required[i] != required[j]
    ensures multiset(EntryProblems(e, required))[MissingKey(e.Kind(), Shown(e.Key()), k)] ==
      (if k in required && !e.Has(k) then 1 else 0)
  {
    var p := MissingKey(e.Kind(), Shown(e.Key()), k);
    MissingOnce(e, required, k);
    assert multiset(PriceProblems(e))[p] == 0;
    assert multiset(EntryProblems(e, required)) == multiset(MissingProblems(e, required)) + multiset(PriceProblems(e));
  }

  lemma {:induction false} MissingOnce(e: Entry, required: seq<Field>, k: Field)
    requires forall i, j :: 0 <= i < j < |required| ==> required[i] != required[j]
    ensures multiset(MissingProblems(e, required))[MissingKey(e.Kind(), Shown(e.Key()), k)] ==
      (if k in required && !e.Has(k) then 1 else 0)
  {
    if |required| > 0 {
      var init := required[..|required| - 1];
      var last := required[|required| - 1];
      var p := MissingKey(e.Kind(), Shown(e.Key()), k);
      var tail := if e.Has(last) then [] else [MissingKey(e.Kind(), Shown(e.Key()), last)];
      MissingOnce(e, init, k);
      assert MissingProblems(e, required) == MissingProblems(e, init) + tail;
      assert multiset(MissingProblems(e, required)) == multiset(MissingProblems(e, init)) + multiset(tail);
      assert multiset(tail)[p] == if k == last && !e.Has(k) then 1 else 0;
      assert required == init + [last];
      assert k in required <==> k in init || k == last;
      assert last !in init;
    }
  }

  /**
   * The plan checks depend only on the plans and run only under a model that
   * sells subscriptions; the package checks likewise.
   */
  lemma CatalogChecksFollowModel(model: string, plans: seq<Plan>, plans': seq<Plan>,
                                 packages: seq<CreditPackage>, packages': seq<CreditPackage>)
    ensures !ModelChoiceOf(model).SellsPlans() ==>
      BillingProblems(model, plans, packages) == BillingProblems(model, plans', packages)
    ensures !ModelChoiceOf(model).SellsCredits() ==>
      BillingProblems(model, plans, packages) == BillingProblems(model, plans, packages')
  {
  }

  /** No shipped plan has an entry error. */
  lemma ShippedPlanEntriesPass()
    ensures EachEntry(PlanEntries(SUBSCRIPTIONS), PLAN_REQUIRED) == []
  {
    var es := PlanEntries(SUBSCRIPTIONS);
    assert EntryProblems(es[0], PLAN_REQUIRED) == [] by { CompletePlan(SUBSCRIPTIONS[0]); }
    assert EntryProblems(es[1], PLAN_REQUIRED) == [] by { CompletePlan(SUBSCRIPTIONS[1]); }
    assert EntryProblems(es[2], PLAN_REQUIRED) == [] by { CompletePlan(SUBSCRIPTIONS[2]); }
    assert es[..0] == [];
    EachEntryStep(es, PLAN_REQUIRED, 0);
    EachEntryStep(es, PLAN_REQUIRED, 1);
    EachEntryStep(es, PLAN_REQUIRED, 2);
    assert es[..3] == es;
  }

  /** The catalogue the project ships passes the billing check. */
  lemma ShippedCatalogPasses()
    ensures BillingProblems(BILLING_MODEL, SUBSCRIPTIONS, CREDIT_PACKAGES) == []
  {
    assert ModelChoiceOf(BILLING_MODEL) == SubscriptionsModel;
    assert HasDefault(SUBSCRIPTIONS) by {
      assert SUBSCRIPTIONS[0].key == Some("default");
    }
    ShippedPlanEntriesPass();
  }

  /** A plan with every field and a full price has no entry error. */
  lemma CompletePlan(p: Plan)
    requires p.key.Some? && p.name.Some? && p.description.Some? && p.icon.Some? && p.show.Some?
    requires p.price.Some? && p.price.value.value.Some? && p.price.value.currencySymbol.Some?
    ensures EntryProblems(PlanEntry(p), PLAN_REQUIRED) == []
  {
    var e := PlanEntry(p);
    var r := PLAN_REQUIRED;
    assert r[..5][..4][..3][..2][..1][..0] == [];
    assert MissingProblems(e, r[..5][..4][..3][..2][..1]) == [];
    assert MissingProblems(e, r[..5][..4][..3][..2]) == [];
    assert MissingProblems(e, r[..5][..4][..3]) == [];
    assert MissingProblems(e, r[..5][..4]) == [];
    assert MissingProblems(e, r[..5]) == [];
  }

  /**
   * `test_billing` as written: the error text reads `subscription["key"]`,
   * so an entry without a `key` raises `KeyError` in the middle of the check
   * instead of being reported; the first such entry of a checked list ends
   * the self test.
   */
  function BillingOutcomeAsWritten(model: string, plans: seq<Plan>, packages: seq<CreditPackage>): (r: Result<seq<Problem>, Raised>)
    ensures r.Ok? ==> r.value == BillingProblems(model, plans, packages)
  {
    var c := ModelChoiceOf(model);
    if c.SellsPlans() && exists i :: 0 <= i < |plans| && plans[i].key.None? then
      Err(KeyError("key"))
    else if c.SellsCredits() && exists i :: 0 <= i < |packages| && packages[i].key.None? then
      Err(KeyError("key"))
    else
      Ok(BillingProblems(model, plans, packages))
  }

  /** A plan with everything but its `key`: the check meant to report that crashes instead. */
  lemma KeylessPlanCrashesCheck()
    ensures var p := Plan(None, Some("Pro"), Some("star"), Some("Everything"), Eur("9.0"), Some("price_x"),
                          Some(true), None, None, None);
      BillingOutcomeAsWritten("subscriptions", [SUBSCRIPTIONS[0], p], []) == Err(KeyError("key")) &&
      MissingKey(SubscriptionEntry, "None", KeyField) in BillingProblems("subscriptions", [SUBSCRIPTIONS[0], p], [])
  {
    var p := Plan(None, Some("Pro"), Some("star"), Some("Everything"), Eur("9.0"), Some("price_x"),
                  Some(true), None, None, None);
    var plans := [SUBSCRIPTIONS[0], p];
    var es := PlanEntries(plans);
    assert plans[1].key.None?;
    var r := PLAN_REQUIRED;
    assert MissingKey(SubscriptionEntry, "None", KeyField) in EntryProblems(es[1], r) by {
      MissingKeyReported(es[1], r, 0);
    }
    EachEntryStep(es, r, 1);
    assert es[..2] == es;
    assert MissingKey(SubscriptionEntry, "None", KeyField) in EachEntry(es, r);
  }

  /** A required key an entry lacks is among its errors. */
  lemma {:induction false} MissingKeyReported(e: Entry, required: seq<Field>, i: nat)
    requires i < |required| && !e.Has(required[i])
    ensures MissingKey(e.Kind(), Shown(e.Key()), required[i]) in EntryProblems(e, required)
  {
    MissingKeyListed(e, required, i);
  }

  lemma {:induction false} MissingKeyListed(e: Entry, required: seq<Field>, i: nat)
    requires i < |required| && !e.Has(required[i])
    ensures MissingKey(e.Kind(), Shown(e.Key()), required[i]) in MissingProblems(e, required)
    decreases |required|
  {
    if i < |required| - 1 {
      var init := required[..|required| - 1];
      assert init[i] == required[i];
      MissingKeyListed(e, init, i);
    }
  }

  /** Where every entry of a checked list has a key, the check behaves as the corrected one. */
  lemma KeyedCatalogAgrees(model: string, plans: seq<Plan>, packages: seq<CreditPackage>)
    requires forall i :: 0 <= i < |plans| ==> plans[i].key.Some?
    requires forall i :: 0 <= i < |packages| ==> packages[i].key.Some?
    ensures BillingOutcomeAsWritten(model, plans, packages) == Ok(BillingProblems(model, plans, packages))
  {
  }

  /** `SENDGRID_API_KEY is None or SENDGRID_API_KEY == ''`, and the same test on the secrets settings. */
  predicate Unset(v: Option<string>)
  {
    v.None? || v.value == ""
  }

  /** `test_emails`'s errors. */
  function EmailProblems(provider: string, sendgridKey: Option<string>): (r: seq<Problem>)
    ensures provider == "smtp" ==> r == []
    ensures provider == "sendgrid" ==> (r == [] <==> !Unset(sendgridKey)) && (r != [] ==> r == [SendgridKeyUnset])
    ensures provider != "smtp" && provider != "sendgrid" ==> r == [InvalidEmailProvider(provider)]
  {
    if provider == "sendgrid" then (if Unset(sendgridKey) then [SendgridKeyUnset] else [])
    else if provider != "smtp" then [InvalidEmailProvider(provider)]
    else []
  }

  /** The settings a secrets manager needs. */
  function RequiredSettings(manager: ManagerChoice): seq<string>
  {
    match manager
    case Infisical => INFISICAL_SETTINGS
    case Aws => AWS_SETTINGS
    case Azure => AZURE_SETTINGS
    case _ => []
  }

  /**
   * A module-level setting of the secrets configuration. The code imports
   * every name explicitly, so a name the configuration does not define makes
   * that import raise `ImportError`; the model reads such a name as `None`,
   * that is, as a setting left unset.
   */
  function Setting(settings: map<string, Option<string>>, name: string): Option<string>
  {
    if name in settings then settings[name] else None
  }

  function UnsetProblems(names: seq<string>, settings: map<string, Option<string>>): (r: seq<Problem>)
    ensures forall n :: SettingUnset(n) in r <==> n in names && Unset(Setting(settings, n))
    ensures forall p :: p in r ==> p.SettingUnset?
  {
    if |names| == 0 then []
    else
      var n := names[|names| - 1];
      UnsetProblems(names[..|names| - 1], settings) + (if Unset(Setting(settings, n)) then [SettingUnset(n)] else [])
  }

  lemma UnsetStep(names: seq<string>, settings: map<string, Option<string>>, i: nat)
    requires i < |names|
    ensures UnsetProblems(names[..i + 1], settings) ==
      UnsetProblems(names[..i], settings) + (if Unset(Setting(settings, names[i])) then [SettingUnset(names[i])] else [])
  {
    assert names[..i + 1][..i] == names[..i];
  }

  /** `test_secrets`'s errors: exactly the unset settings of the selected manager, after any complaint about the manager. */
  function SecretsProblems(manager: string, settings: map<string, Option<string>>): (r: seq<Problem>)
    ensures forall n :: SettingUnset(n) in r <==> n in RequiredSettings(ManagerChoiceOf(manager)) && Unset(Setting(settings, n))
    ensures InvalidSecretsManager(manager) in r <==> ManagerChoiceOf(manager).UnknownManager?
    ensures ManagerChoiceOf(manager).EnvFile? ==> r == []
  {
    var c := ManagerChoiceOf(manager);
    (if c.UnknownManager? then [InvalidSecretsManager(manager)] else []) +
    UnsetProblems(RequiredSettings(c), settings)
  }

  /** The configuration the self test reads. */
  datatype Settings = Settings(
    billingModel: string,
    plans: seq<Plan>,
    packages: seq<CreditPackage>,
    emailProvider: string,
    sendgridKey: Option<string>,
    secretsManager: string,
    secrets: map<string, Option<string>>)

  /** The three checks of the self test, by the names it records them under. */
  datatype Check = BillingCheck | EmailsCheck | SecretsCheck
  {
    function Name(): string
    {
      match this
      case BillingCheck => "test_billing"
      case EmailsCheck => "test_emails"
      case SecretsCheck => "test_secrets"
    }
  }

  /** `failed_tests[name] = errors` on a dictionary kept in insertion order. */
  function DictSet(d: seq<(Check, seq<Problem>)>, name: Check, errors: seq<Problem>): (r: seq<(Check, seq<Problem>)>)
    ensures (exists i :: 0 <= i < |d| && d[i].0 == name) ==> |r| == |d|
    ensures (forall i :: 0 <= i < |d| ==> d[i].0 != name) ==> r == d + [(name, errors)]
    ensures (exists i :: 0 <= i < |d| && d[i].0 == name) ==> (name, errors) in r
    ensures forall i :: 0 <= i < |r| && r[i].0 != name ==> r[i] == d[i]
  {
    if |d| == 0 then [(name, errors)]
    else if d[0].0 == name then [(name, errors)] + d[1..]
    else [d[0]] + DictSet(d[1..], name, errors)
  }

  function Names(d: seq<(Check, seq<Problem>)>): (r: seq<Check>)
    ensures |r| == |d| && forall i :: 0 <= i < |d| ==> r[i] == d[i].0
  {
    seq(|d|, i requires 0 <= i < |d| => d[i].0)
  }

  /** `list(self.failed_tests.keys())`, as the text the report joins. */
  function NameTexts(d: seq<(Check, seq<Problem>)>): (r: seq<string>)
    ensures |r| == |d| && forall i :: 0 <= i < |d| ==> r[i] == d[i].0.Name()
  {
    seq(|d|, i requires 0 <= i < |d| => d[i].0.Name())
  }

  /** The error lines of one failed test. */
  function ErrorLine(p: Problem): string
  {
    "- ERROR: " + p.Message() + "\n"
  }

  function ErrorLines(errors: seq<Problem>): string
  {
    if |errors| == 0 then ""
    else ErrorLines(errors[..|errors| - 1]) + ErrorLine(errors[|errors| - 1])
  }

  lemma ErrorLinesStep(errors: seq<Problem>, j: nat)
    requires j < |errors|
    ensures ErrorLines(errors[..j + 1]) == ErrorLines(errors[..j]) + ErrorLine(errors[j])
  {
    assert errors[..j + 1][..j] == errors[..j];
  }

  function SectionHead(name: Check): string
  {
    name.Name() + " failed with the following errors:\n"
  }

  function Section(name: Check, errors: seq<Problem>): string
  {
    SectionHead(name) + ErrorLines(errors) + "\n\n"
  }

  function Sections(d: seq<(Check, seq<Problem>)>): string
  {
    if |d| == 0 then ""
    else Sections(d[..|d| - 1]) + Section(d[|d| - 1].0, d[|d| - 1].1)
  }

  lemma SectionsStep(d: seq<(Check, seq<Problem>)>, i: nat)
    requires i < |d|
    ensures Sections(d[..i + 1]) == Sections(d[..i]) + Section(d[i].0, d[i].1)
  {
    assert d[..i + 1][..i] == d[..i];
  }

  const REPORT_HEAD: string := "Power on self test failed.\nFailed tests: "
  const REPORT_TAIL: string := "Please fix the errors and restart the server."

  /** The text of the exception raised when some check failed. */
  function Report(d: seq<(Check, seq<Problem>)>): (r: string)
    ensures StartsWith(r, REPORT_HEAD) && EndsWith(r, REPORT_TAIL)
  {
    var r := REPORT_HEAD + Join(NameTexts(d), ", ") + "\n\n" + Sections(d) + REPORT_TAIL;
    assert r[..|REPORT_HEAD|] == REPORT_HEAD;
    assert r[|r| - |REPORT_TAIL|..] == REPORT_TAIL;
    r
  }

  /** The plan loop of `test_billing`, with the checks around it. */
  method CheckPlans(plans: seq<Plan>, required: seq<Field>) returns (errors: seq<Problem>)
    ensures errors == PlanProblems(plans, required)
  {
    var entries := PlanEntries(plans);
    var entryErrors: seq<Problem> := [];
    var foundDefault := false;
    var i := 0;
    while i < |plans|
      invariant 0 <= i <= |plans|
      invariant entryErrors == EachEntry(entries[..i], required)
      invariant foundDefault == HasDefault(plans[..i])
    {
      var errs := CheckEntry(entries[i], required);
      EachEntryStep(entries, required, i);
      HasDefaultStep(plans, i);
      entryErrors := entryErrors + errs;
      if plans[i].key == Some("default") {
        foundDefault := true;
      }
      i := i + 1;
    }
    assert entries[..|plans|] == entries && plans[..|plans|] == plans;
    errors := (if |plans| == 0 then [NoPlans] else []) + entryErrors + (if foundDefault then [] else [NoDefaultPlan]);
  }

  /** The package loop of `test_billing`. */
  method CheckPackages(packages: seq<CreditPackage>, required: seq<Field>) returns (errors: seq<Problem>)
    ensures errors == PackageProblems(packages, required)
  {
    var entries := PackageEntries(packages);
    var entryErrors: seq<Problem> := [];
    var i := 0;
    while i < |packages|
      invariant 0 <= i <= |packages|
      invariant entryErrors == EachEntry(entries[..i], required)
    {
      var errs := CheckEntry(entries[i], required);
      EachEntryStep(entries, required, i);
      entryErrors := entryErrors + errs;
      i := i + 1;
    }
    assert entries[..|packages|] == entries;
    errors := (if |packages| == 0 then [NoPackages] else []) + entryErrors;
  }

  /** The body of the loop over one entry: its missing keys, then its price dictionary. */
  method CheckEntry(e: Entry, required: seq<Field>) returns (errors: seq<Problem>)
    ensures errors == EntryProblems(e, required)
  {
    errors := [];
    var j := 0;
    while j < |required|
      invariant 0 <= j <= |required|
      invariant errors == MissingProblems(e, required[..j])
    {
      MissingStep(e, required, j);
      if !e.Has(required[j]) {
        errors := errors + [MissingKey(e.Kind(), Shown(e.Key()), required[j])];
      }
      j := j + 1;
    }
    assert required[..|required|] == required;
    var price := e.PriceOf();
    if price.Some? {
      if price.value.value.None? {
        errors := errors + [MissingPriceKey(e.Kind(), Shown(e.Key()), ValueKey)];
      }
      if price.value.currencySymbol.None? {
        errors := errors + [MissingPriceKey(e.Kind(), Shown(e.Key()), CurrencySymbolKey)];
      }
    }
  }

  /** The checks of `test_secrets` on the settings a manager needs, in order. */
  method CheckSettings(names: seq<string>, settings: map<string, Option<string>>) returns (unset: seq<Problem>)
    ensures unset == UnsetProblems(names, settings)
  {
    unset := [];
    var i := 0;
    while i < |names|
      invariant 0 <= i <= |names|
      invariant unset == UnsetProblems(names[..i], settings)
    {
      UnsetStep(names, settings, i);
      var v := Setting(settings, names[i]);
      if v.None? || v.value == "" {
        unset := unset + [SettingUnset(names[i])];
      }
      i := i + 1;
    }
    assert names[..|names|] == names;
  }

  /** The failed tests of a run, in the order they ran, each with its errors. */
  function SelfTestFailures(s: Settings): (r: seq<(Check, seq<Problem>)>)
    ensures forall i :: 0 <= i < |r| ==> r[i].1 != []
    ensures |r| <= 3
  {
    Failures(BillingProblems(s.billingModel, s.plans, s.packages),
             EmailProblems(s.emailProvider, s.sendgridKey),
             SecretsProblems(s.secretsManager, s.secrets))
  }

  function Failures(billing: seq<Problem>, emails: seq<Problem>, secrets: seq<Problem>): (r: seq<(Check, seq<Problem>)>)
    ensures forall i :: 0 <= i < |r| ==> r[i].1 != []
    ensures |r| <= 3
  {
    (if billing != [] then [(BillingCheck, billing)] else []) +
    (if emails != [] then [(EmailsCheck, emails)] else []) +
    (if secrets != [] then [(SecretsCheck, secrets)] else [])
  }

  /** What the self test has recorded: `ran_tests`, `failed_tests` (in insertion order) and `passed_tests`. */
  datatype Log = Log(ran: seq<Check>, failed: seq<(Check, seq<Problem>)>, passed: seq<Check>)

  /** The tail of each `test_…`: the test is recorded as run, then as failed with its errors, or as passed. */
  function RecordIn(log: Log, name: Check, errors: seq<Problem>): Log
  {
    if |errors| > 0 then Log(log.ran + [name], DictSet(log.failed, name, errors), log.passed)
    else Log(log.ran + [name], log.failed, log.passed + [name])
  }

  /** The log of a run from a fresh self test, given each check's errors. */
  function RunLog(billing: seq<Problem>, emails: seq<Problem>, secrets: seq<Problem>): Log
  {
    RecordIn(RecordIn(RecordIn(Log([], [], []), BillingCheck, billing), EmailsCheck, emails), SecretsCheck, secrets)
  }

  /** The checks with no errors, in the order they ran. */
  function Passes(billing: seq<Problem>, emails: seq<Problem>, secrets: seq<Problem>): seq<Check>
  {
    (if billing == [] then [BillingCheck] else []) + (if emails == [] then [EmailsCheck] else []) +
    (if secrets == [] then [SecretsCheck] else [])
  }

  /** Recording a check the failed tests do not hold yet appends it to one of the two lists. */
  lemma RecordNew(log: Log, name: Check, errors: seq<Problem>)
    requires forall i :: 0 <= i < |log.failed| ==> log.failed[i].0 != name
    ensures RecordIn(log, name, errors) ==
      Log(log.ran + [name], log.failed + (if errors != [] then [(name, errors)] else []),
          log.passed + (if errors == [] then [name] else []))
  {
  }

  /** The failed-test entry a check adds, if any. */
  function FailedPart(name: Check, errors: seq<Problem>): seq<(Check, seq<Problem>)>
  {
    if errors != [] then [(name, errors)] else []
  }

  /** The passed-test entry a check adds, if any. */
  function PassedPart(name: Check, errors: seq<Problem>): seq<Check>
  {
    if errors == [] then [name] else []
  }

  lemma RecordFirst(billing: seq<Problem>)
    ensures RecordIn(Log([], [], []), BillingCheck, billing) ==
      Log([BillingCheck], FailedPart(BillingCheck, billing), PassedPart(BillingCheck, billing))
  {
    RecordNew(Log([], [], []), BillingCheck, billing);
  }

  lemma RecordSecond(billing: seq<Problem>, emails: seq<Problem>)
    ensures RecordIn(Log([BillingCheck], FailedPart(BillingCheck, billing), PassedPart(BillingCheck, billing)), EmailsCheck, emails) ==
      Log([BillingCheck, EmailsCheck], FailedPart(BillingCheck, billing) + FailedPart(EmailsCheck, emails),
          PassedPart(BillingCheck, billing) + PassedPart(EmailsCheck, emails))
  {
    RecordNew(Log([BillingCheck], FailedPart(BillingCheck, billing), PassedPart(BillingCheck, billing)), EmailsCheck, emails);
  }

  lemma RecordThird(billing: seq<Problem>, emails: seq<Problem>, secrets: seq<Problem>)
    ensures var fs := FailedPart(BillingCheck, billing) + FailedPart(EmailsCheck, emails);
      var ps := PassedPart(BillingCheck, billing) + PassedPart(EmailsCheck, emails);
      RecordIn(Log([BillingCheck, EmailsCheck], fs, ps), SecretsCheck, secrets) ==
        Log([BillingCheck, EmailsCheck, SecretsCheck], fs + FailedPart(SecretsCheck, secrets), ps + PassedPart(SecretsCheck, secrets))
  {
    var fb: seq<(Check, seq<Problem>)> := FailedPart(BillingCheck, billing);
    var fe: seq<(Check, seq<Problem>)> := FailedPart(EmailsCheck, emails);
    forall i | 0 <= i < |fb + fe|
      ensures (fb + fe)[i].0 != SecretsCheck
    {
      if i < |fb| {
        assert (fb + fe)[i] == fb[i];
      } else {
        assert (fb + fe)[i] == fe[i - |fb|];
      }
    }
    RecordNew(Log([BillingCheck, EmailsCheck], fb + fe, PassedPart(BillingCheck, billing) + PassedPart(EmailsCheck, emails)), SecretsCheck, secrets);
  }

  /**
   * A run records the three checks once each, in order: a check with errors
   * goes to the failed tests with those errors, one without to the passed.
   */
  lemma RunRecordsEachCheckOnce(billing: seq<Problem>, emails: seq<Problem>, secrets: seq<Problem>)
    ensures RunLog(billing, emails, secrets) ==
      Log([BillingCheck, EmailsCheck, SecretsCheck], Failures(billing, emails, secrets), Passes(billing, emails, secrets))
  {
    RecordFirst(billing);
    RecordSecond(billing, emails);
    RecordThird(billing, emails, secrets);
  }

  /** No check is both passed and failed, and every check that ran is one of the two. */
  lemma PassedXorFailed(billing: seq<Problem>, emails: seq<Problem>, secrets: seq<Problem>)
    ensures forall t: Check :: t in Passes(billing, emails, secrets) <==> t !in Names(Failures(billing, emails, secrets))
  {
    var f := Failures(billing, emails, secrets);
    var names := (if billing != [] then [BillingCheck] else []) + (if emails != [] then [EmailsCheck] else []) +
                 (if secrets != [] then [SecretsCheck] else []);
    assert Names(f) == names;
    var passes := Passes(billing, emails, secrets);
    forall t: Check
      ensures t in passes <==> t !in names
    {
      match t
      case BillingCheck =>
        assert t in passes <==> billing == [];
        assert t in names <==> billing != [];
      case EmailsCheck =>
        assert t in passes <==> emails == [];
        assert t in names <==> emails != [];
      case SecretsCheck =>
        assert t in passes <==> secrets == [];
        assert t in names <==> secrets != [];
    }
  }

  class PowerOnSelfTest {
    var ranTests: seq<Check>
    var failedTests: seq<(Check, seq<Problem>)>
    var passedTests: seq<Check>
    var skippedTests: seq<string>

    function Recorded(): Log
      reads this
    {
      Log(ranTests, failedTests, passedTests)
    }

    /** `__init__` up to `self.run()`, which `Run` models. */
    constructor ()
      ensures Recorded() == Log([], [], []) && skippedTests == []
    {
      ranTests, failedTests, passedTests, skippedTests := [], [], [], [];
    }

    method Record(name: Check, errors: seq<Problem>)
      modifies this
      ensures Recorded() == RecordIn(old(Recorded()), name, errors) && skippedTests == old(skippedTests)
    {
      ranTests := ranTests + [name];
      if |errors| > 0 {
        failedTests := DictSet(failedTests, name, errors);
      } else {
        passedTests := passedTests + [name];
      }
    }

    /**
     * `test_billing`, corrected: a plan without 'key' is reported like any
     * other missing key, where the code as written raises `KeyError` while
     * building that report (see `KeylessPlanCrashesCheck`).
     */
    method TestBilling(model: string, plans: seq<Plan>, packages: seq<CreditPackage>)
      modifies this
      ensures Recorded() == RecordIn(old(Recorded()), BillingCheck, BillingProblems(model, plans, packages))
      ensures skippedTests == old(skippedTests)
    {
      var c := ModelChoiceOf(model);
      var modelErrors: seq<Problem> := if c.UnknownModel? then [InvalidBillingModel(model)] else [];
      var planErrors: seq<Problem> := [];
      if c.SellsPlans() {
        planErrors := CheckPlans(plans, PLAN_REQUIRED);
      }
      var packageErrors: seq<Problem> := [];
      if c.SellsCredits() {
        packageErrors := CheckPackages(packages, PACKAGE_REQUIRED);
      }
      var errors := modelErrors + planErrors + packageErrors;
      Record(BillingCheck, errors);
    }

    /** `test_emails`. */
    method TestEmails(provider: string, sendgridKey: Option<string>)
      modifies this
      ensures Recorded() == RecordIn(old(Recorded()), EmailsCheck, EmailProblems(provider, sendgridKey))
      ensures skippedTests == old(skippedTests)
    {
      var errors: seq<Problem> := [];
      if provider == "sendgrid" {
        if sendgridKey.None? || sendgridKey.value == "" {
          errors := errors + [SendgridKeyUnset];
        }
      } else if provider != "smtp" {
        errors := errors + [InvalidEmailProvider(provider)];
      }
      assert errors == EmailProblems(provider, sendgridKey);
      Record(EmailsCheck, errors);
    }

    /** `test_secrets`. */
    method TestSecrets(manager: string, settings: map<string, Option<string>>)
      modifies this
      ensures Recorded() == RecordIn(old(Recorded()), SecretsCheck, SecretsProblems(manager, settings))
      ensures skippedTests == old(skippedTests)
    {
      var c := ManagerChoiceOf(manager);
      var unset := CheckSettings(RequiredSettings(c), settings);
      var errors := (if c.UnknownManager? then [InvalidSecretsManager(manager)] else []) + unset;
      Record(SecretsCheck, errors);
    }

    /**
     * `raise_fail_or_pass`: the text of the exception raised when any test
     * failed, `None` when all passed (the message printed then is left out).
     */
    method RaiseFailOrPass() returns (raised: Option<string>)
      ensures raised.Some? <==> |failedTests| > 0
      ensures raised.Some? ==> raised.value == Report(failedTests)
    {
      if |failedTests| == 0 {
        return None;
      }
      var sections := "";
      var i := 0;
      while i < |failedTests|
        invariant 0 <= i <= |failedTests|
        invariant sections == Sections(failedTests[..i])
      {
        var (test, errors) := failedTests[i];
        var lines := "";
        var j := 0;
        while j < |errors|
          invariant 0 <= j <= |errors|
          invariant lines == ErrorLines(errors[..j])
        {
          ErrorLinesStep(errors, j);
          lines := lines + ErrorLine(errors[j]);
          j := j + 1;
        }
        assert errors[..|errors|] == errors;
        SectionsStep(failedTests, i);
        sections := sections + (SectionHead(test) + lines + "\n\n");
        i := i + 1;
      }
      assert failedTests[..|failedTests|] == failedTests;
      var output := REPORT_HEAD + Join(NameTexts(failedTests), ", ") + "\n\n" + sections + REPORT_TAIL;
      return Some(output);
    }

    /**
     * `run`, as called from `__init__` on a fresh self test: the three checks
     * in order, then the exception if any of them failed. The billing check
     * is the corrected one of `TestBilling`, so a keyless plan is reported
     * rather than raising `KeyError`.
     */
    method Run(s: Settings) returns (raised: Option<string>)
      requires Recorded() == Log([], [], [])
      modifies this
      ensures Recorded() == RunLog(BillingProblems(s.billingModel, s.plans, s.packages),
                                   EmailProblems(s.emailProvider, s.sendgridKey),
                                   SecretsProblems(s.secretsManager, s.secrets))
      ensures raised.Some? <==> SelfTestFailures(s) != []
      ensures raised.Some? ==> raised.value == Report(SelfTestFailures(s))
    {
      ghost var billing := BillingProblems(s.billingModel, s.plans, s.packages);
      ghost var emails := EmailProblems(s.emailProvider, s.sendgridKey);
      ghost var secrets := SecretsProblems(s.secretsManager, s.secrets);
      TestBilling(s.billingModel, s.plans, s.packages);
      TestEmails(s.emailProvider, s.sendgridKey);
      TestSecrets(s.secretsManager, s.secrets);
      RunRecordsEachCheckOnce(billing, emails, secrets);
      raised := RaiseFailOrPass();
    }
  }

  /** The shipped settings (catalogue, SMTP, secrets from the environment) raise nothing. */
  lemma ShippedSettingsPass(sendgridKey: Option<string>, secrets: map<string, Option<string>>)
    ensures SelfTestFailures(Settings(BILLING_MODEL, SUBSCRIPTIONS, CREDIT_PACKAGES, "smtp", sendgridKey, "env", secrets)) == []
  {
    ShippedCatalogPasses();
  }
}
