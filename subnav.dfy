// The sub-navigation filter of modules/utils/subnav.py: of the configured
// sections and items, a visitor sees the active ones whose superuser, staff
// and subscription requirements they meet, and only sections left with at
// least one item.
module Subnav {
  import opened Wrappers
  import opened Responses

  /** `item.get('required_subscription')`: absent or `None`, a plan key, a list of plan keys, or anything else. */
  datatype RequiredSubs = NoRequirement | OneKey(key: string) | AnyOf(keys: seq<string>) | OtherValue

  datatype Item = Item(
    key: string,
    name: string,
    urlName: string,
    icon: string,
    isActive: Option<bool>,
    superuserRequired: Option<bool>,
    staffRequired: Option<bool>,
    requiredSubscription: RequiredSubs)

  datatype Section = Section(key: string, name: string, showTitle: Option<bool>, isActive: Option<bool>, items: seq<Item>)

  /**
   * The request's user as the filter reads it; `subscriptionKey` is the
   * stored `subscription_key` of the user's subscription row, `None` when
   * there is none (an anonymous visitor, or a user without a row).
   */
  datatype Visitor = Visitor(isSuperuser: bool, isStaff: bool, subscriptionKey: Option<string>)

  /** `d.get(flag, True)`: a missing `is_active` counts as active. */
  predicate ActiveFlag(flag: Option<bool>)
  {
    flag != Some(false)
  }

  /** `d.get(flag, False)`: a missing requirement is not required. */
  predicate RequiredFlag(flag: Option<bool>)
  {
    flag == Some(true)
  }

  /**
   * Whether one active item is shown: the superuser and staff requirements
   * are tested first; the subscription requirement reads the visitor's
   * subscription only for a string or a list, and raises when there is none.
   */
  function ItemShown(item: Item, v: Visitor): (r: Result<bool, Raised>)
    ensures r.Ok? ==>
      (r.value <==>
        (RequiredFlag(item.superuserRequired) ==> v.isSuperuser) && (RequiredFlag(item.staffRequired) ==> v.isStaff) &&
        match item.requiredSubscription
        case NoRequirement => true
        case OneKey(k) => v.subscriptionKey == Some(k)
        case AnyOf(ks) => v.subscriptionKey.Some? && v.subscriptionKey.value in ks
        case OtherValue => false)
    ensures r.Err? <==>
      !(RequiredFlag(item.superuserRequired) && !v.isSuperuser) && !(RequiredFlag(item.staffRequired) && !v.isStaff) &&
      (item.requiredSubscription.OneKey? || item.requiredSubscription.AnyOf?) && v.subscriptionKey.None?
  {
    if RequiredFlag(item.superuserRequired) && !v.isSuperuser then Ok(false)
    else if RequiredFlag(item.staffRequired) && !v.isStaff then Ok(false)
    else
      match item.requiredSubscription
      case NoRequirement => Ok(true)
      case OtherValue => Ok(false)
      case OneKey(k) =>
        if v.subscriptionKey.None? then Err(AttributeError("subscription")) else Ok(k == v.subscriptionKey.value)
      case AnyOf(ks) =>
        if v.subscriptionKey.None? then Err(AttributeError("subscription")) else Ok(v.subscriptionKey.value in ks)
  }

  /** An item is listed when it is active and shown. */
  function Listed(item: Item, v: Visitor): Result<bool, Raised>
  {
    if !ActiveFlag(item.isActive) then Ok(false) else ItemShown(item, v)
  }

  /** The items of one section a visitor sees, in order; the first item that raises ends the filter. */
  function VisibleItems(items: seq<Item>, v: Visitor): (r: Result<seq<Item>, Raised>)
    ensures r.Ok? ==> |r.value| <= |items|
  {
    if |items| == 0 then Ok([])
    else
      match VisibleItems(items[..|items| - 1], v)
      case Err(e) => Err(e)
      case Ok(kept) =>
        match Listed(items[|items| - 1], v)
        case Err(e) => Err(e)
        case Ok(b) => Ok(if b then kept + [items[|items| - 1]] else kept)
  }

  /** `get_visible_subnav_for_user`: each active section with at least one visible item, with just those items. */
  function VisibleSubnav(sections: seq<Section>, v: Visitor): (r: Result<seq<Section>, Raised>)
    ensures r.Ok? ==> |r.value| <= |sections|
  {
    if |sections| == 0 then Ok([])
    else
      var s := sections[|sections| - 1];
      match VisibleSubnav(sections[..|sections| - 1], v)
      case Err(e) => Err(e)
      case Ok(kept) =>
        if !ActiveFlag(s.isActive) then Ok(kept)
        else
          match VisibleItems(s.items, v)
          case Err(e) => Err(e)
          case Ok(items) => Ok(if |items| > 0 then kept + [s.(items := items)] else kept)
  }

  /**
   * `out` is drawn from `inp` in order: each output element stands for a
   * distinct input element, later outputs for later inputs, and `corr`
   * relates every output element to the input element it stands for.
   */
  predicate Embeds<T>(out: seq<T>, inp: seq<T>, corr: (T, T) -> bool)
    decreases |inp|
  {
    if |out| == 0 then true
    else if |inp| == 0 then false
    else
      (corr(out[|out| - 1], inp[|inp| - 1]) && Embeds(out[..|out| - 1], inp[..|inp| - 1], corr)) ||
      Embeds(out, inp[..|inp| - 1], corr)
  }

  lemma {:induction false} EmbedsAppend<T>(out: seq<T>, inp: seq<T>, corr: (T, T) -> bool, x: T, y: T)
    requires Embeds(out, inp, corr)
    ensures Embeds(out, inp + [x], corr)
    ensures corr(y, x) ==> Embeds(out + [y], inp + [x], corr)
  {
    assert (inp + [x])[..|inp|] == inp;
    assert (out + [y])[..|out|] == out;
  }

  /** Filtering one more item: the definition read from the front. */
  lemma VisibleItemsSnoc(items: seq<Item>, x: Item, v: Visitor)
    ensures VisibleItems(items + [x], v) ==
      match VisibleItems(items, v)
      case Err(e) => Err(e)
      case Ok(kept) => (match Listed(x, v) case Err(e) => Err(e) case Ok(b) => Ok(if b then kept + [x] else kept))
  {
    assert (items + [x])[..|items|] == items;
  }

  /** Filtering one more section: the definition read from the front. */
  lemma SubnavSnoc(sections: seq<Section>, s: Section, v: Visitor)
    ensures VisibleSubnav(sections + [s], v) ==
      match VisibleSubnav(sections, v)
      case Err(e) => Err(e)
      case Ok(kept) =>
        if !ActiveFlag(s.isActive) then Ok(kept)
        else (match VisibleItems(s.items, v) case Err(e) => Err(e) case Ok(items) => Ok(if |items| > 0 then kept + [s.(items := items)] else kept))
  {
    assert (sections + [s])[..|sections|] == sections;
  }

  /** The output items are input items, in input order, each active and shown. */
  lemma {:induction false} VisibleItemsAreShownInOrder(items: seq<Item>, v: Visitor)
    requires VisibleItems(items, v).Ok?
    ensures Embeds(VisibleItems(items, v).value, items, (o: Item, i: Item) => o == i && Listed(i, v) == Ok(true))
  {
    var keep := (o: Item, i: Item) => o == i && Listed(i, v) == Ok(true);
    if |items| > 0 {
      var init := items[..|items| - 1];
      var last := items[|items| - 1];
      assert init + [last] == items;
      VisibleItemsSnoc(init, last, v);
      assert VisibleItems(init, v).Ok? && Listed(last, v).Ok?;
      var kept := VisibleItems(init, v).value;
      VisibleItemsAreShownInOrder(init, v);
      EmbedsAppend(kept, init, keep, last, last);
      if Listed(last, v) == Ok(true) {
        assert VisibleItems(items, v).value == kept + [last];
      } else {
        assert VisibleItems(items, v).value == kept;
      }
    }
  }

  /** Every input item that is active and shown is in the output: the filter drops nothing else. */
  lemma {:induction false} VisibleItemsComplete(items: seq<Item>, v: Visitor, i: nat)
    requires VisibleItems(items, v).Ok? && i < |items| && Listed(items[i], v) == Ok(true)
    ensures items[i] in VisibleItems(items, v).value
  {
    var init := items[..|items| - 1];
    if i < |items| - 1 {
      assert init[i] == items[i];
      VisibleItemsComplete(init, v, i);
    }
  }

  /** A listed item is active and meets the superuser and staff requirements. */
  lemma ListedItemsMeetFlags(item: Item, v: Visitor)
    requires Listed(item, v) == Ok(true)
    ensures ActiveFlag(item.isActive)
    ensures RequiredFlag(item.superuserRequired) ==> v.isSuperuser
    ensures RequiredFlag(item.staffRequired) ==> v.isStaff
  {
  }

  /** `section` is `s` with its items filtered: every other field is copied. */
  predicate CopiedSection(section: Section, s: Section, v: Visitor)
  {
    ActiveFlag(s.isActive) && VisibleItems(s.items, v) == Ok(section.items) && |section.items| > 0 &&
    section == s.(items := section.items)
  }

  /** The output sections stand, in order, for distinct input sections they copy. */
  lemma {:induction false} SectionsEmbedded(sections: seq<Section>, v: Visitor)
    requires VisibleSubnav(sections, v).Ok?
    ensures Embeds(VisibleSubnav(sections, v).value, sections, (o: Section, s: Section) => CopiedSection(o, s, v))
  {
    if |sections| > 0 {
      var init := sections[..|sections| - 1];
      var last := sections[|sections| - 1];
      assert init + [last] == sections;
      SubnavSnoc(init, last, v);
      SectionsEmbedded(init, v);
      var kept := VisibleSubnav(init, v).value;
      var corr := (o: Section, s: Section) => CopiedSection(o, s, v);
      if ActiveFlag(last.isActive) && |VisibleItems(last.items, v).value| > 0 {
        EmbedsAppend(kept, init, corr, last, last.(items := VisibleItems(last.items, v).value));
      } else {
        EmbedsAppend(kept, init, corr, last, last);
      }
    }
  }

  /**
   * Each output section comes from an active input section, has at least one
   * item and keeps its other fields (the order is `SectionsEmbedded`).
   */
  lemma {:induction false} SectionsAreCopies(sections: seq<Section>, v: Visitor)
    requires VisibleSubnav(sections, v).Ok?
    ensures forall k :: 0 <= k < |VisibleSubnav(sections, v).value| ==>
      exists j :: 0 <= j < |sections| && CopiedSection(VisibleSubnav(sections, v).value[k], sections[j], v)
    ensures forall k :: 0 <= k < |VisibleSubnav(sections, v).value| ==> |VisibleSubnav(sections, v).value[k].items| > 0
  {
    if |sections| > 0 {
      var init := sections[..|sections| - 1];
      SectionsAreCopies(init, v);
      var out := VisibleSubnav(sections, v).value;
      var kept := VisibleSubnav(init, v).value;
      forall k | 0 <= k < |out|
        ensures exists j :: 0 <= j < |sections| && CopiedSection(out[k], sections[j], v)
      {
        if k < |kept| {
          assert out[k] == kept[k];
          var j :| 0 <= j < |init| && CopiedSection(kept[k], init[j], v);
          assert sections[j] == init[j];
        } else {
          assert CopiedSection(out[k], sections[|sections| - 1], v);
        }
      }
    }
  }

  /** An active section with at least one visible item is in the output, whatever else is configured. */
  lemma {:induction false} SectionWithItemsListed(sections: seq<Section>, v: Visitor, j: nat)
    requires VisibleSubnav(sections, v).Ok? && j < |sections| && ActiveFlag(sections[j].isActive)
    requires VisibleItems(sections[j].items, v).Ok? && |VisibleItems(sections[j].items, v).value| > 0
    ensures sections[j].(items := VisibleItems(sections[j].items, v).value) in VisibleSubnav(sections, v).value
  {
    var init := sections[..|sections| - 1];
    if j < |sections| - 1 {
      assert init[j] == sections[j];
      SectionWithItemsListed(init, v, j);
    }
  }

  /** The filter does not read the visitor's subscription when no listed item asks for one. */
  lemma {:induction false} NoRequirementsNoError(items: seq<Item>, v: Visitor)
    requires forall i :: 0 <= i < |items| ==> !items[i].requiredSubscription.OneKey? && !items[i].requiredSubscription.AnyOf?
    ensures VisibleItems(items, v).Ok?
  {
    if |items| > 0 {
      NoRequirementsNoError(items[..|items| - 1], v);
    }
  }

  /** `get_visible_subnav_for_user`, with the two nested loops of the source. */
  method GetVisibleSubnavForUser(subnav: seq<Section>, v: Visitor) returns (r: Result<seq<Section>, Raised>)
    ensures r == VisibleSubnav(subnav, v)
  {
    var accessibleSections: seq<Section> := [];
    var i := 0;
    while i < |subnav|
      invariant 0 <= i <= |subnav|
      invariant VisibleSubnav(subnav[..i], v) == Ok(accessibleSections)
    {
      assert subnav[..i + 1][..i] == subnav[..i];
      var section := subnav[i];
      if ActiveFlag(section.isActive) {
        var items := FilterItems(section.items, v);
        if items.Err? {
          SubnavErrorStays(subnav, i + 1, v);
          return Err(items.error);
        }
        if |items.value| > 0 {
          accessibleSections := accessibleSections + [section.(items := items.value)];
        }
      }
      i := i + 1;
    }
    assert subnav[..|subnav|] == subnav;
    return Ok(accessibleSections);
  }

  /** The inner loop: the visible items of one section. */
  method FilterItems(items: seq<Item>, v: Visitor) returns (r: Result<seq<Item>, Raised>)
    ensures r == VisibleItems(items, v)
  {
    var accessibleItems: seq<Item> := [];
    var j := 0;
    while j < |items|
      invariant 0 <= j <= |items|
      invariant VisibleItems(items[..j], v) == Ok(accessibleItems)
    {
      assert items[..j + 1][..j] == items[..j];
      var item := items[j];
      if ActiveFlag(item.isActive) {
        var shown: bool;
        if RequiredFlag(item.superuserRequired) && !v.isSuperuser {
          shown := false;
        } else if RequiredFlag(item.staffRequired) && !v.isStaff {
          shown := false;
        } else {
          match item.requiredSubscription
          case NoRequirement =>
            shown := true;
          case OtherValue =>
            shown := false;
          case OneKey(k) =>
            if v.subscriptionKey.None? {
              ItemErrorStays(items, j + 1, v);
              return Err(AttributeError("subscription"));
            }
            shown := k == v.subscriptionKey.value;
          case AnyOf(ks) =>
            if v.subscriptionKey.None? {
              ItemErrorStays(items, j + 1, v);
              return Err(AttributeError("subscription"));
            }
            shown := v.subscriptionKey.value in ks;
        }
        if shown {
          accessibleItems := accessibleItems + [item];
        }
      }
      j := j + 1;
    }
    assert items[..|items|] == items;
    return Ok(accessibleItems);
  }

  /** Once a prefix of the items raises, so does every longer prefix. */
  lemma {:induction false} ItemErrorStays(items: seq<Item>, n: nat, v: Visitor)
    requires n <= |items| && VisibleItems(items[..n], v).Err?
    ensures VisibleItems(items, v) == VisibleItems(items[..n], v)
    decreases |items| - n
  {
    if n < |items| {
      assert items[..n + 1][..n] == items[..n];
      ItemErrorStays(items, n + 1, v);
    } else {
      assert items[..n] == items;
    }
  }

  lemma {:induction false} SubnavErrorStays(sections: seq<Section>, n: nat, v: Visitor)
    requires n <= |sections| && VisibleSubnav(sections[..n], v).Err?
    ensures VisibleSubnav(sections, v) == VisibleSubnav(sections[..n], v)
    decreases |sections| - n
  {
    if n < |sections| {
      assert sections[..n + 1][..n] == sections[..n];
      SubnavErrorStays(sections, n + 1, v);
    } else {
      assert sections[..n] == sections;
    }
  }

  const DASHBOARD: Item := Item("dashboard", "Dashboard", "main:dashboard", "circle", Some(true), None, None, NoRequirement)
  const ADMIN_PANEL: Item := Item("adminpanel", "Adminpanel", "admin:index", "hexagon", Some(true), Some(true), None, NoRequirement)
  const BILLING_ITEM: Item := Item("billing", "Billing", "billing:manage_billing", "credit-card", Some(true), None, None, NoRequirement)
  const SETTINGS_ITEM: Item := Item("settings", "Settings", "authentication:user_settings", "settings", Some(true), None, None, NoRequirement)
  const LOGOUT_ITEM: Item := Item("logout", "Logout", "authentication:logout", "log-out", Some(true), None, None, NoRequirement)

  /** The configured `GLOBAL_SUBNAV`, without the examples section added when that app is installed. */
  const GLOBAL_SUBNAV: seq<Section> := [
    Section("default", "Default", Some(false), Some(true), [DASHBOARD, ADMIN_PANEL]),
    Section("account_settings", "Account settings", Some(true), Some(true), [BILLING_ITEM, SETTINGS_ITEM, LOGOUT_ITEM])
  ]

  /** A visitor who is not a superuser sees everything but the admin panel, with or without a subscription. */
  lemma ShippedSubnavHidesAdminPanel(v: Visitor)
    requires !v.isSuperuser
    ensures VisibleSubnav(GLOBAL_SUBNAV, v) ==
      Ok([GLOBAL_SUBNAV[0].(items := [DASHBOARD]), GLOBAL_SUBNAV[1]])
  {
    assert Listed(DASHBOARD, v) == Ok(true) && Listed(ADMIN_PANEL, v) == Ok(false);
    assert Listed(BILLING_ITEM, v) == Ok(true) && Listed(SETTINGS_ITEM, v) == Ok(true) && Listed(LOGOUT_ITEM, v) == Ok(true);
    assert [] + [DASHBOARD] == [DASHBOARD] && [] + [BILLING_ITEM] == [BILLING_ITEM];
    assert [DASHBOARD] + [ADMIN_PANEL] == GLOBAL_SUBNAV[0].items;
    assert [BILLING_ITEM] + [SETTINGS_ITEM] == [BILLING_ITEM, SETTINGS_ITEM];
    assert [BILLING_ITEM, SETTINGS_ITEM] + [LOGOUT_ITEM] == GLOBAL_SUBNAV[1].items;
    VisibleItemsSnoc([], DASHBOARD, v);
    VisibleItemsSnoc([DASHBOARD], ADMIN_PANEL, v);
    assert VisibleItems(GLOBAL_SUBNAV[0].items, v) == Ok([DASHBOARD]);
    VisibleItemsSnoc([], BILLING_ITEM, v);
    VisibleItemsSnoc([BILLING_ITEM], SETTINGS_ITEM, v);
    VisibleItemsSnoc([BILLING_ITEM, SETTINGS_ITEM], LOGOUT_ITEM, v);
    assert VisibleItems(GLOBAL_SUBNAV[1].items, v) == Ok(GLOBAL_SUBNAV[1].items);
    var first := GLOBAL_SUBNAV[0].(items := [DASHBOARD]);
    assert [] + [GLOBAL_SUBNAV[0]] == [GLOBAL_SUBNAV[0]] && [] + [first] == [first];
    assert [GLOBAL_SUBNAV[0]] + [GLOBAL_SUBNAV[1]] == GLOBAL_SUBNAV;
    SubnavSnoc([], GLOBAL_SUBNAV[0], v);
    assert VisibleSubnav([], v) == Ok([]);
    assert VisibleSubnav([GLOBAL_SUBNAV[0]], v) == Ok([first]);
    SubnavSnoc([GLOBAL_SUBNAV[0]], GLOBAL_SUBNAV[1], v);
    assert [first] + [GLOBAL_SUBNAV[1]] == [first, GLOBAL_SUBNAV[1]];
    assert GLOBAL_SUBNAV[1].(items := GLOBAL_SUBNAV[1].items) == GLOBAL_SUBNAV[1];
  }
}
