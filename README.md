# Marketing campaign page: verified model of its logic

The page (`app.js`) is a single-page campaign configuration UI. Most of it is
DOM and event wiring. This project models the parts whose behaviour can be
stated, each in its own module:

- **Storage** (`storage.dfy`): the key/value store behind `saveToLocalStorage` and
  `getFromLocalStorage`. Every key is stored as `"marketingSystem_" + key`.
  A failing write is swallowed. A read of an absent key, or a failing read,
  gives `null`. The browser storage is a class `Store` holding a
  `map<string, Value>` and a `failing` flag. The specification functions
  `Read` and `Write` give what a read returns and what a write leaves behind.
- **Budget** (`budget.dfy`): the proportional allocator `updatePlatformBudgets`.
  `UpdatePlatformBudgets` keeps the source's arithmetic on exact reals:
  `Σ b/3050`, then `Math.round(total * ((b/3050) / sum))`, with `Math.round`
  as `floor(x + 1/2)`. It overwrites an `array<nat>` of card budgets in
  place and saves each result under `<platform>Budget`. `DivisorCancels`
  proves that this equals the integer half-up rounding
  `Share(total, b, Σb) = (2·total·b + Σb) / (2·Σb)`, so the constant 3050
  plays no part. The share, bound, symmetry, monotonicity and drift
  properties are proved about `Share` and `Allocate`.
- **Navigation** (`navigation.dfy`): the click handler set up by `setupNavigation`.
  It works on an array of nav-item `active` flags and an array of
  `(id, active)` sections. `getElementById` is modelled as "the first
  section with that id".
- **Feedback** (`feedback.dfy`): the synchronous state changes of `showToast` and
  `activateCampaign`, as records. The launch callback is a method that also
  writes `campaignActive` and `campaignLaunchTime` to the store, unless the
  page has no `#toast`.
- **Rehydrate** (`rehydrate.dfy`): `loadSavedData`, `loadFromLocalStorage` and
  `loadCheckboxState`, as methods of a class `Page` that holds the page's
  element state. They are specified by functions (`RestoreFields`,
  `RestoreChecks`, `RestoreCardBudgets`, `LoadedBudgets`, `RestoreButton`). Lemmas connect a save with the
  next reload.

Behaviour of the code worth knowing (the model follows it):

- After a navigation click, no section is active if no element has the id
  `<data-section>-section` (app.js:39-48).
- `loadSavedData` writes to `#budgetSlider` and `#budgetValue` without checking
  that they exist. If the saved total budget is truthy and either element is
  missing, the call throws and nothing after that point is restored.
  `LoadBudgets` and `LoadSavedData` return `completed == false` in that case.
- On reload a platform budget is restored only if its saved value is truthy.
  A platform whose new budget rounded to 0 therefore keeps the budget the page
  shows (`ReloadAfterAllocation`).
- `showToast` writes to `#toast` without checking that it exists (app.js:168-169).
  The launch callback calls it before it saves the campaign state (app.js:159-163),
  so on a page without `#toast` the button turns active but nothing is saved.
  `CompleteActivation` returns `completed == false` in that case.
- A platform's budget is saved under `<platform>Budget`, so a platform named
  `total` would share its key with the slider's `totalBudget` (app.js:75, 141).
  `ReloadAfterSlider` excludes that name.
- A toast's hide callback does not check which message it was started for.
  So a timer left over from an earlier toast hides whatever toast is shown when it fires.

## Model

| member | source | states |
|---|---|---|
| Storage.StorageKey | app.js:203 | the storage key is `marketingSystem_` followed by exactly the application key |
| Storage.KeyOfStorageKey | app.js:276 | stripping the prefix recovers the key; only a prefixed storage key belongs to an application key |
| Storage.StorageKeyInjective | app.js:203 | two application keys share a storage key iff they are equal |
| Storage.ReadAfterWrite | app.js:201-204 | on working storage, saving `v` under `k` and then reading `k` gives `v`, stored under the prefixed key |
| Storage.ReadOtherAfterWrite | app.js:274-277 | saving one key leaves the read of every other key unchanged |
| Storage.WriteTouchesOneKey | app.js:203 | a save changes no storage entry other than the prefixed key |
| Storage.FailingStorage | app.js:204-206 | a failing write leaves storage unchanged and raises nothing; a failing read gives null |
| Storage.ReadAbsent | app.js:276-277 | a key never saved reads as null |
| Storage.Store.Save | app.js:201-207 | the store afterwards is `Write(old, failing, key, v)`: the prefixed entry set, or nothing if storage fails |
| Storage.Store.Get | app.js:274-282 | null when storage fails or the prefixed key is absent, the stored value otherwise |
| Budget.Round | app.js:136 | `Math.round`: the result is within half a unit of `x`, with halves rounded up |
| Budget.Share | app.js:135-136 | `r` is `total·b/sum` rounded half up: `2·sum·r <= 2·total·b + sum < 2·sum·(r+1)` |
| Budget.SumPercentages | app.js:124-129 | the first loop accumulates `Σ b / 3050` exactly |
| Budget.RoundRatio | app.js:136 | `Math.round(n/d)` equals the integer quotient `(2n + d) / 2d` |
| Budget.DivisorCancels | app.js:127-136 | the source's `Math.round(total·((b/3050)/(Σb/3050)))` equals `Share(total, b, Σb)`, so 3050 cancels |
| Budget.UpdatePlatformBudgets | app.js:119-143 | with at least one card, each card's budget becomes `Allocate(total, old)[i]`, with count and order kept; the store ends as the successive saves of `Num(new[i])` under `platform[i] + "Budget"`; with no cards nothing changes |
| Budget.BudgetKey | app.js:141 | the saved key is the platform name followed by `Budget` |
| Budget.BudgetKeyInjective | app.js:141 | distinct platforms save under distinct keys |
| Budget.ShareAtMostTotal | app.js:135-136 | a share of at most the whole budget is at most the new total |
| Budget.AllocateWithinTotal | app.js:132-137 | with a positive sum, every new budget lies in `[0, total]` |
| Budget.AllocateSymmetric | app.js:135-136 | equal current budgets get equal new budgets; a current budget of 0 gets 0 |
| Budget.ShareMonotone | app.js:135-136 | a larger current budget never gets a smaller share |
| Budget.AllocateMonotone | app.js:132-137 | the allocation preserves the order of the current budgets |
| Budget.ShareSumDrift | app.js:132-137 | scaled by `2·sum`, the summed rounding error lies in `(-n·sum, n·sum]` |
| Budget.AllocateDrift | app.js:132-137 | the new budgets sum to the total up to rounding drift: `-n < 2·(Σ new − total) <= n` |
| Budget.DoublingExample | app.js:132-137 | budgets 1000/1000/1050 rescaled to 6100 become 2000/2000/2100 |
| Budget.SaveBudgetsFailing | app.js:139-141 | on failing storage the allocator's saves change nothing |
| Budget.SaveBudgetsReads | app.js:139-141 | with distinct platforms, `<platform>Budget` reads back that platform's new budget |
| Budget.SaveBudgetsOtherKeys | app.js:139-141 | no storage key other than the platforms' budget keys is written |
| Navigation.FindSection | app.js:44-45 | returns the first section with the id iff one exists, and None iff none has it |
| Navigation.Click | app.js:31-49 | exactly the clicked nav item is active; section ids are kept; exactly the first section with id `data-section + "-section"` is active, and none if there is no such section |
| Navigation.AtMostOneSection | app.js:39-48 | after a click at most one section is active, it has the target id, and one is active iff some section has that id |
| Feedback.ShowToast | app.js:167-176 | the toast shows the new message, with the error style iff requested, whatever was shown before |
| Feedback.HideToast | app.js:178-180 | the timer callback removes `show` and keeps message and style |
| Feedback.HideAfterShow | app.js:167-180 | showing then hiding leaves that message and style, invisible |
| Feedback.BeginActivation | app.js:145-150 | a click puts the button in the launching state, disabled, with its style kept |
| Feedback.MarkActive | app.js:154-156 | the active label and success style replace the primary one |
| Feedback.FinishActivation | app.js:153-157 | after the callback the button is active, enabled, success-styled |
| Feedback.CompleteActivation | app.js:153-164 | the button is finished; if `#toast` exists the launch toast is shown and `campaignActive = true` and then `campaignLaunchTime` are saved, otherwise the callback stops with storage unchanged |
| Feedback.LaunchIsSaved | app.js:161-163 | after a launch on working storage, `campaignActive` reads true and `campaignLaunchTime` reads the launch time |
| Feedback.ActivationSequence | app.js:145-165 | idle, then launching and disabled, then active and enabled |
| Rehydrate.RestoreFieldsAt | app.js:254-262 | a text control takes its stored value iff that value is non-null and the control exists; missing controls stay missing |
| Rehydrate.RestoreChecksElsewhere | app.js:221-224 | checkboxes not in the restore table are untouched |
| Rehydrate.RestoreChecksAt | app.js:264-272 | a present checkbox takes the truthiness of its stored value unless that value is null |
| Rehydrate.FieldRoundTrip | app.js:211-219 | a text control saved with a non-null value on working storage gets it back on reload |
| Rehydrate.CheckboxRoundTrip | app.js:222-224 | a saved checkbox state is restored on reload |
| Rehydrate.ReloadAfterAllocation | app.js:227-239 | after the allocator's saves, the per-card restore step gives back each card's new budget, except a new budget of 0 |
| Rehydrate.ReloadAfterSlider | app.js:66-76 | after a slider move (the allocator's saves, then `totalBudget`), a reload with slider and label present completes, shows the saved total on both, and gives each card its new budget back, except a new budget of 0 |
| Rehydrate.ReloadAfterActivation | app.js:242-251 | after a completed launch, reload shows the button active |
| Rehydrate.Page.LoadField | app.js:254-262 | the fields map afterwards is `RestoreField` of the value read |
| Rehydrate.Page.LoadCheckbox | app.js:264-272 | the checkbox map afterwards is `RestoreCheck` of the value read |
| Rehydrate.CardBudgetRestore | app.js:226-240 | a card's budget is restored only if `totalBudget` is truthy, the slider and label exist, and its own saved value is truthy; budget loading completes iff the total is falsy or both elements exist |
| Rehydrate.Page.LoadBudgets | app.js:226-240 | the slider, label, card budgets and completion flag afterwards are those `LoadedBudgets` gives for the stored values; a missing slider or label aborts after the writes before it |
| Rehydrate.Page.LoadTextFields | app.js:211-219 | the text controls afterwards are `RestoreFields` of the old ones for the nine keys, in order |
| Rehydrate.Page.LoadCheckboxes | app.js:222-224 | the checkboxes afterwards are `RestoreChecks` of the old ones for the three (key, id) pairs, in order |
| Rehydrate.Page.LoadCampaignState | app.js:242-251 | a truthy `campaignActive` shows the button active if the button exists |
| Rehydrate.Page.LoadSavedData | app.js:209-252 | text controls, checkboxes, budgets and campaign state are restored by the rules above, and nothing after an abort |

## Left out

- DOM querying and listener registration (`initApp`, `setupEventListeners`, `initProgressBars`): UI plumbing with no behaviour beyond dispatch.
- `saveAllFormData`: it only reads twelve fixed controls into `saveToLocalStorage`, which `Store.Save` models. `FieldRoundTrip` and `CheckboxRoundTrip` cover one save followed by a reload; the twelve saves in a row are not stated as one lemma (`ReadOtherAfterWrite` is the step that carries a read across each other save).
- Timers: the 1500 ms launch delay and the 3000 ms toast delay are not modelled. Each callback is a separate step, and the overlapping-toast race is not modelled beyond `HideAfterShow`.
- Floating point: budgets and totals are natural numbers and the arithmetic is exact. `parseFloat` of a card's text and the rounding error of the two floating-point divisions are not modelled.
- Budget.UpdatePlatformBudgets: requires the current budgets to have a positive sum when there is at least one card. When there are cards and every budget is 0 the source computes 0/0, and every budget becomes `NaN`. A page with no cards is covered: nothing changes.
- Budget.UpdatePlatformBudgets: every platform card is assumed to contain a `.platform-budget` element. In the source a card without one makes the call throw (app.js:126-127).
- JSON encoding and decoding are the identity on `Value`. The launch timestamp (`new Date().toISOString()`) is a parameter.
- `toLocaleString` formatting, the `innerHTML` markup and `console.error` logging are not modelled. `Page.budgetLabel` holds the saved total that the label formats.
- String coercion when a value is assigned to `value` or `textContent` is not modelled: a restored control holds the stored `Value`.
- Storage.Store: a single `failing` flag makes reads and writes fail together. Write-only failure (quota exceeded) and a corrupt entry for a single key are not represented.
- Navigation.Click: `getElementById` is searched among the `.section-content` elements only. A `data-section` attribute is always present (a missing one would give the id `null-section`).
- Rehydrate.Page.LoadBudgets: every platform card is assumed to contain a `.platform-budget` element. In the source a card without one makes the call throw when `totalBudget` and that card's saved budget are both truthy (app.js:228, 236-237).
