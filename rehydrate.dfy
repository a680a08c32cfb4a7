/**
 * Start-up rehydration (`loadSavedData`, `loadFromLocalStorage`,
 * `loadCheckboxState`): the page's controls take back what the store holds.
 * A control keeps its value when the stored value is null or the control is
 * not on the page; the platform budgets are restored only when the saved
 * total budget is truthy, each only when its own saved value is truthy.
 */
module Rehydrate {

  import opened Optional
  import opened Storage
  import opened Budget
  import opened Feedback

  /** The text controls restored at start-up; each is stored under its own element id. */
  const TEXT_FIELDS: seq<string> := [
    "campaignObjective", "targetAudience", "contentStrategy", "postSchedule", "complianceStatus",
    "promoOffer", "primaryCta", "landingPageUrl", "utmParams"
  ]

  /** The checkboxes restored at start-up, as (storage key, element id). */
  const CHECKBOXES: seq<(string, string)> := [("gaEnabled", "ga"), ("pixelEnabled", "pixel"), ("gtmEnabled", "gtm")]

  /** `loadFromLocalStorage`: the control takes the saved value if there is one and the control exists. */
  function RestoreField(fields: map<string, Value>, saved: Value, elementId: string): map<string, Value> {
    if saved != Null && elementId in fields then fields[elementId := saved] else fields
  }

  /** `loadCheckboxState`: as `RestoreField`; assigning to `checked` takes the value's truthiness. */
  function RestoreCheck(checks: map<string, bool>, saved: Value, elementId: string): map<string, bool> {
    if saved != Null && elementId in checks then checks[elementId := Truthy(saved)] else checks
  }

  /** The text controls after restoring `keys` in order. */
  function RestoreFields(fields: map<string, Value>, items: map<string, Value>, failing: bool, keys: seq<string>): map<string, Value> {
    if keys == [] then fields
    else
      var n := |keys| - 1;
      RestoreField(RestoreFields(fields, items, failing, keys[..n]), Read(items, failing, keys[n]), keys[n])
  }

  /** The checkboxes after restoring `boxes` in order. */
  function RestoreChecks(checks: map<string, bool>, items: map<string, Value>, failing: bool, boxes: seq<(string, string)>): map<string, bool> {
    if boxes == [] then checks
    else
      var n := |boxes| - 1;
      RestoreCheck(RestoreChecks(checks, items, failing, boxes[..n]), Read(items, failing, boxes[n].0), boxes[n].1)
  }

  /** A card's budget text after reload: the saved value if it is truthy. */
  function RestoredBudget(shown: Value, saved: Value): Value {
    if Truthy(saved) then saved else shown
  }

  /** Every card's budget text after reload. */
  function RestoreCardBudgets(shown: seq<Value>, platforms: seq<string>, items: map<string, Value>, failing: bool): seq<Value>
    requires |shown| == |platforms|
  {
    seq(|shown|, i requires 0 <= i < |shown| => RestoredBudget(shown[i], Read(items, failing, BudgetKey(platforms[i]))))
  }

  /** The activation button after reload: shown active if `campaignActive` is truthy and the button exists. */
  function RestoreButton(button: Option<Button>, saved: Value): Option<Button> {
    if Truthy(saved) && button.Some? then Some(MarkActive(button.value)) else button
  }

  /** The budget elements `loadSavedData` writes: slider value, total label, card budgets. */
  datatype BudgetView = BudgetView(slider: Option<Value>, totalLabel: Option<Value>, cards: seq<Value>)

  /**
   * The budget part of `loadSavedData`: the budget elements afterwards, and
   * whether it ran to the end. A missing slider or label makes the source
   * throw at the first write to it.
   */
  function LoadedBudgets(view: BudgetView, platforms: seq<string>, items: map<string, Value>, failing: bool): (BudgetView, bool)
    requires |view.cards| == |platforms|
  {
    var total := Read(items, failing, "totalBudget");
    if !Truthy(total) then (view, true)
    else if view.slider.None? then (view, false)
    else if view.totalLabel.None? then (view.(slider := Some(total)), false)
    else (BudgetView(Some(total), Some(total), RestoreCardBudgets(view.cards, platforms, items, failing)), true)
  }

  // ---------------------------------------------------------------------------
  // What rehydration restores

  /**
   * A text control is restored exactly when its key is among `keys` and the
   * stored value is not null; a control that is not on the page stays absent.
   */
  lemma {:induction false} RestoreFieldsAt(fields: map<string, Value>, items: map<string, Value>, failing: bool, keys: seq<string>, id: string)
    ensures id in RestoreFields(fields, items, failing, keys) <==> id in fields
    ensures id in fields ==>
              RestoreFields(fields, items, failing, keys)[id] ==
              (if id in keys && Read(items, failing, id) != Null then Read(items, failing, id) else fields[id])
  {
    if keys != [] {
      var n := |keys| - 1;
      var prev := RestoreFields(fields, items, failing, keys[..n]);
      RestoreFieldsAt(fields, items, failing, keys[..n], id);
      assert RestoreFields(fields, items, failing, keys) == RestoreField(prev, Read(items, failing, keys[n]), keys[n]);
      assert id in keys <==> id in keys[..n] || id == keys[n] by {
        assert keys == keys[..n] + [keys[n]];
      }
    }
  }

  /** A checkbox not named in `boxes` is left as it was. */
  lemma {:induction false} RestoreChecksElsewhere(checks: map<string, bool>, items: map<string, Value>, failing: bool, boxes: seq<(string, string)>, id: string)
    requires forall j :: 0 <= j < |boxes| ==> boxes[j].1 != id
    ensures id in RestoreChecks(checks, items, failing, boxes) <==> id in checks
    ensures id in checks ==> RestoreChecks(checks, items, failing, boxes)[id] == checks[id]
  {
    if boxes != [] {
      RestoreChecksElsewhere(checks, items, failing, boxes[..|boxes| - 1], id);
    }
  }

  /** A present checkbox takes the truthiness of its stored value, unless that value is null. */
  lemma {:induction false} RestoreChecksAt(checks: map<string, bool>, items: map<string, Value>, failing: bool, boxes: seq<(string, string)>, j: nat)
    requires j < |boxes|
    requires forall a, b :: 0 <= a < b < |boxes| ==> boxes[a].1 != boxes[b].1
    ensures var id, saved := boxes[j].1, Read(items, failing, boxes[j].0);
            (id in RestoreChecks(checks, items, failing, boxes) <==> id in checks) &&
            (id in checks ==> RestoreChecks(checks, items, failing, boxes)[id] == if saved != Null then Truthy(saved) else checks[id])
  {
    var n := |boxes| - 1;
    if j == n {
      RestoreChecksElsewhere(checks, items, failing, boxes[..n], boxes[j].1);
    } else {
      RestoreChecksAt(checks, items, failing, boxes[..n], j);
    }
  }

  /** A text control saved with a non-null value on working storage gets that value back on reload. */
  lemma FieldRoundTrip(fields: map<string, Value>, items: map<string, Value>, key: string, v: Value)
    requires key in TEXT_FIELDS && key in fields && v != Null
    ensures var restored := RestoreFields(fields, Write(items, false, key, v), false, TEXT_FIELDS);
            key in restored && restored[key] == v
  {
    RestoreFieldsAt(fields, Write(items, false, key, v), false, TEXT_FIELDS, key);
    ReadAfterWrite(items, key, v);
  }

  /** A checkbox state saved on working storage is restored on reload. */
  lemma CheckboxRoundTrip(checks: map<string, bool>, items: map<string, Value>, j: nat, checked: bool)
    requires j < |CHECKBOXES| && CHECKBOXES[j].1 in checks
    ensures var restored := RestoreChecks(checks, Write(items, false, CHECKBOXES[j].0, Bool(checked)), false, CHECKBOXES);
            CHECKBOXES[j].1 in restored && restored[CHECKBOXES[j].1] == checked
  {
    RestoreChecksAt(checks, Write(items, false, CHECKBOXES[j].0, Bool(checked)), false, CHECKBOXES, j);
    ReadAfterWrite(items, CHECKBOXES[j].0, Bool(checked));
  }

  /**
   * Reloading after the allocator ran on working storage gives every card its
   * new budget back, except a card whose new budget is 0: 0 is not truthy, so
   * that card keeps the budget the page shows.
   */
  lemma ReloadAfterAllocation(items: map<string, Value>, total: nat, platforms: seq<string>, b: seq<nat>, shown: seq<Value>, i: nat)
    requires |platforms| == |b| == |shown| && i < |b| && Sum(b) > 0
    requires forall j, k :: 0 <= j < k < |platforms| ==> platforms[j] != platforms[k]
    ensures var saved := SaveBudgets(items, false, platforms, Allocate(total, b));
            RestoreCardBudgets(shown, platforms, saved, false)[i] ==
              if Allocate(total, b)[i] != 0 then Num(Allocate(total, b)[i]) else shown[i]
  {
    SaveBudgetsReads(items, platforms, Allocate(total, b), i);
  }

  /**
   * A slider move on working storage saves the allocator's budgets and then
   * `totalBudget`. Reloading a page that has the slider and the label then
   * runs to the end, shows the saved total on both, and gives every card its
   * new budget back, except a new budget of 0. The platform is not named
   * `total`, whose budget key would be `totalBudget` itself.
   */
  lemma ReloadAfterSlider(items: map<string, Value>, total: nat, b: seq<nat>, platforms: seq<string>, totalValue: Value, view: BudgetView, i: nat)
    requires |platforms| == |b| == |view.cards| && i < |b| && Sum(b) > 0
    requires forall j, k :: 0 <= j < k < |platforms| ==> platforms[j] != platforms[k]
    requires Truthy(totalValue) && view.slider.Some? && view.totalLabel.Some?
    requires platforms[i] != "total"
    ensures var saved := Write(SaveBudgets(items, false, platforms, Allocate(total, b)), false, "totalBudget", totalValue);
            var (after, completed) := LoadedBudgets(view, platforms, saved, false);
            && completed && after.slider == Some(totalValue) && after.totalLabel == Some(totalValue)
            && |after.cards| == |b|
            && after.cards[i] == if Allocate(total, b)[i] != 0 then Num(Allocate(total, b)[i]) else view.cards[i]
  {
    var budgetsSaved := SaveBudgets(items, false, platforms, Allocate(total, b));
    ReadAfterWrite(budgetsSaved, "totalBudget", totalValue);
    BudgetKeyInjective(platforms[i], "total");
    assert BudgetKey("total") == "totalBudget";
    ReadOtherAfterWrite(budgetsSaved, false, "totalBudget", BudgetKey(platforms[i]), totalValue);
    SaveBudgetsReads(items, platforms, Allocate(total, b), i);
  }

  /** Reloading after a completed launch on working storage shows the button active. */
  lemma ReloadAfterActivation(items: map<string, Value>, launchTime: string, button: Button)
    ensures RestoreButton(Some(button), Read(Launched(items, false, launchTime), false, "campaignActive"))
            == Some(MarkActive(button))
  {
    LaunchIsSaved(items, launchTime);
  }

  /**
   * Platform budgets are restored only when the saved total is truthy and the
   * slider and label exist, and each card only when its own saved value is
   * truthy; otherwise the card keeps what it shows.
   */
  lemma CardBudgetRestore(view: BudgetView, platforms: seq<string>, items: map<string, Value>, failing: bool, i: nat)
    requires |view.cards| == |platforms| && i < |platforms|
    ensures var (after, completed) := LoadedBudgets(view, platforms, items, failing);
            var total, saved := Read(items, failing, "totalBudget"), Read(items, failing, BudgetKey(platforms[i]));
            && |after.cards| == |platforms|
            && (completed <==> !Truthy(total) || (view.slider.Some? && view.totalLabel.Some?))
            && after.cards[i] == (if Truthy(total) && completed && Truthy(saved) then saved else view.cards[i])
  {
  }

  /** The page elements rehydration reads and writes. */
  class Page {
    /** The `value` of each text control on the page, by element id. */
    var fields: map<string, Value>
    /** The `checked` state of each checkbox on the page, by element id. */
    var checks: map<string, bool>
    /** `#budgetSlider`'s value, or None when the element is missing. */
    var slider: Option<Value>
    /** The amount `#budgetValue` displays, or None when the element is missing. */
    var budgetLabel: Option<Value>
    /** The `data-platform` of each `.platform-card`, in document order. */
    var platforms: seq<string>
    /** The text of each card's `.platform-budget`. */
    var cardBudgets: seq<Value>
    /** `#activateBtn`, or None when it is missing. */
    var button: Option<Button>

    ghost predicate Valid()
      reads this
    {
      |platforms| == |cardBudgets|
    }

    constructor (fields0: map<string, Value>, checks0: map<string, bool>, slider0: Option<Value>,
                 label0: Option<Value>, platforms0: seq<string>, budgets0: seq<Value>, button0: Option<Button>)
      requires |platforms0| == |budgets0|
      ensures Valid()
      ensures fields == fields0 && checks == checks0 && slider == slider0 && budgetLabel == label0
      ensures platforms == platforms0 && cardBudgets == budgets0 && button == button0
    {
      fields, checks, slider, budgetLabel := fields0, checks0, slider0, label0;
      platforms, cardBudgets, button := platforms0, budgets0, button0;
    }

    /** `loadFromLocalStorage(storageKey, elementId)`. */
    method LoadField(store: Store, storageKey: string, elementId: string)
      modifies this`fields
      ensures fields == RestoreField(old(fields), Read(store.items, store.failing, storageKey), elementId)
    {
      var saved := store.Get(storageKey);
      if saved != Null {
        if elementId in fields {
          fields := fields[elementId := saved];
        }
      }
    }

    /** `loadCheckboxState(storageKey, elementId)`. */
    method LoadCheckbox(store: Store, storageKey: string, elementId: string)
      modifies this`checks
      ensures checks == RestoreCheck(old(checks), Read(store.items, store.failing, storageKey), elementId)
    {
      var saved := store.Get(storageKey);
      if saved != Null {
        if elementId in checks {
          checks := checks[elementId := Truthy(saved)];
        }
      }
    }

    /** The budget part of `loadSavedData` (see `LoadedBudgets`). */
    method LoadBudgets(store: Store) returns (completed: bool)
      requires Valid()
      modifies this`slider, this`budgetLabel, this`cardBudgets
      ensures Valid()
      ensures (BudgetView(slider, budgetLabel, cardBudgets), completed)
              == LoadedBudgets(BudgetView(old(slider), old(budgetLabel), old(cardBudgets)), platforms, store.items, store.failing)
    {
      var savedBudget := store.Get("totalBudget");
      if !Truthy(savedBudget) {
        return true;
      }
      if slider.None? {
        return false;
      }
      slider := Some(savedBudget);
      if budgetLabel.None? {
        return false;
      }
      budgetLabel := Some(savedBudget);
      var i := 0;
      while i < |platforms|
        invariant 0 <= i <= |platforms| && |cardBudgets| == |platforms|
        invariant slider == Some(savedBudget) && budgetLabel == Some(savedBudget)
        invariant forall j :: 0 <= j < i ==>
                    cardBudgets[j] == RestoredBudget(old(cardBudgets)[j], Read(store.items, store.failing, BudgetKey(platforms[j])))
        invariant forall j :: i <= j < |platforms| ==> cardBudgets[j] == old(cardBudgets)[j]
      {
        var savedPlatformBudget := store.Get(BudgetKey(platforms[i]));
        if Truthy(savedPlatformBudget) {
          cardBudgets := cardBudgets[i := savedPlatformBudget];
        }
        i := i + 1;
      }
      assert cardBudgets == RestoreCardBudgets(old(cardBudgets), platforms, store.items, store.failing);
      return true;
    }

    /** The campaign part of `loadSavedData`: an active campaign shows on the button, if present. */
    method LoadCampaignState(store: Store)
      modifies this`button
      ensures button == RestoreButton(old(button), Read(store.items, store.failing, "campaignActive"))
    {
      var campaignActive := store.Get("campaignActive");
      if Truthy(campaignActive) {
        if button.Some? {
          button := Some(MarkActive(button.value));
        }
      }
    }

    /** The nine `loadFromLocalStorage` calls of `loadSavedData`, in order. */
    method LoadTextFields(store: Store)
      modifies this`fields
      ensures fields == RestoreFields(old(fields), store.items, store.failing, TEXT_FIELDS)
    {
      for i := 0 to |TEXT_FIELDS|
        invariant fields == RestoreFields(old(fields), store.items, store.failing, TEXT_FIELDS[..i])
      {
        LoadField(store, TEXT_FIELDS[i], TEXT_FIELDS[i]);
        assert TEXT_FIELDS[..i + 1][..i] == TEXT_FIELDS[..i];
      }
      assert TEXT_FIELDS[..|TEXT_FIELDS|] == TEXT_FIELDS;
    }

    /** The three `loadCheckboxState` calls of `loadSavedData`, in order. */
    method LoadCheckboxes(store: Store)
      modifies this`checks
      ensures checks == RestoreChecks(old(checks), store.items, store.failing, CHECKBOXES)
    {
      for i := 0 to |CHECKBOXES|
        invariant checks == RestoreChecks(old(checks), store.items, store.failing, CHECKBOXES[..i])
      {
        LoadCheckbox(store, CHECKBOXES[i].0, CHECKBOXES[i].1);
        assert CHECKBOXES[..i + 1][..i] == CHECKBOXES[..i];
      }
      assert CHECKBOXES[..|CHECKBOXES|] == CHECKBOXES;
    }

    /** `loadSavedData`: text controls, checkboxes, budgets, then the campaign state. */
    method LoadSavedData(store: Store) returns (completed: bool)
      requires Valid()
      modifies this`fields, this`checks, this`slider, this`budgetLabel, this`cardBudgets, this`button
      ensures Valid()
      ensures fields == RestoreFields(old(fields), store.items, store.failing, TEXT_FIELDS)
      ensures checks == RestoreChecks(old(checks), store.items, store.failing, CHECKBOXES)
      ensures (BudgetView(slider, budgetLabel, cardBudgets), completed)
              == LoadedBudgets(BudgetView(old(slider), old(budgetLabel), old(cardBudgets)), platforms, store.items, store.failing)
      ensures button == if completed then RestoreButton(old(button), Read(store.items, store.failing, "campaignActive"))
                        else old(button)
    {
      LoadTextFields(store);
      LoadCheckboxes(store);
      completed := LoadBudgets(store);
      if completed {
        LoadCampaignState(store);
      }
    }
  }
}
