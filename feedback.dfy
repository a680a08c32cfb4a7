/**
 * The synchronous state changes of `showToast` and `activateCampaign`. The
 * timers that drive them (3000 ms to hide a toast, 1500 ms of simulated
 * launch) are not modelled: each callback is a step of its own, and the
 * state is given just before and just after it.
 */
module Feedback {

  import opened Optional
  import opened Storage

  /** The `#toast` element: its text, whether it has `error`, whether it has `show`. */
  datatype Toast = Toast(message: string, error: bool, shown: bool)

  /**
   * `showToast(message, isError)` up to the timer it starts. The class list
   * is reset, so nothing of the previous toast survives.
   */
  function ShowToast(message: string, isError: bool): (t: Toast)
    ensures t.shown && t.message == message && (t.error <==> isError)
  {
    Toast(message, isError, true)
  }

  /** The auto-hide callback: removes `show` and nothing else. */
  function HideToast(t: Toast): (r: Toast)
    ensures !r.shown && r.message == t.message && r.error == t.error
  {
    t.(shown := false)
  }

  /**
   * Showing then hiding leaves the message and its style in place, invisible.
   * The hide callback does not look at the message, so whichever toast is
   * shown when a timer fires is the one it hides.
   */
  lemma HideAfterShow(message: string, isError: bool)
    ensures HideToast(ShowToast(message, isError)) == Toast(message, isError, false)
  {
  }

  /** What the `#activateBtn` label says. */
  datatype Phase = Idle | Launching | Active

  /** The `#activateBtn` element: label, `disabled`, and its `btn-primary` / `btn-success` classes. */
  datatype Button = Button(phase: Phase, disabled: bool, primary: bool, success: bool)

  const LAUNCHED_MESSAGE: string := "Campaign successfully launched!"

  /** The synchronous part of `activateCampaign`: spinner label, button disabled. */
  function BeginActivation(b: Button): (r: Button)
    ensures r.phase == Launching && r.disabled
    ensures r.primary == b.primary && r.success == b.success
  {
    b.(phase := Launching, disabled := true)
  }

  /** The "Campaign Active" label and success style, as the launch callback and a reload set them. */
  function MarkActive(b: Button): (r: Button)
    ensures r.phase == Active && !r.primary && r.success
    ensures r.disabled == b.disabled
  {
    b.(phase := Active, primary := false, success := true)
  }

  /** The button after the launch callback: active and enabled again. */
  function FinishActivation(b: Button): (r: Button)
    ensures r.phase == Active && !r.disabled && !r.primary && r.success
  {
    MarkActive(b).(disabled := false)
  }

  /** The storage after a completed launch. */
  function Launched(items: map<string, Value>, failing: bool, launchTime: string): map<string, Value> {
    Write(Write(items, failing, "campaignActive", Bool(true)), failing, "campaignLaunchTime", Str(launchTime))
  }

  /**
   * The launch callback of `activateCampaign`: the button turns active and
   * is enabled again, a toast announces the launch, and the campaign state is
   * saved; `launchTime` is the ISO timestamp of the clock at that moment.
   * `toast` is the `#toast` element, `None` when the page has none: then
   * `showToast` throws after the button update and before the saves, and
   * `completed` is false.
   */
  method CompleteActivation(b: Button, toast: Option<Toast>, store: Store, launchTime: string)
    returns (r: Button, shown: Option<Toast>, completed: bool)
    modifies store`items
    ensures r == FinishActivation(b)
    ensures completed <==> toast.Some?
    ensures shown == if completed then Some(ShowToast(LAUNCHED_MESSAGE, false)) else None
    ensures store.items == if completed then Launched(old(store.items), store.failing, launchTime) else old(store.items)
  {
    r := b.(phase := Active, primary := false, success := true, disabled := false);
    if toast.None? {
      return r, None, false;
    }
    shown := Some(ShowToast(LAUNCHED_MESSAGE, false));
    store.Save("campaignActive", Bool(true));
    store.Save("campaignLaunchTime", Str(launchTime));
    completed := true;
  }

  /** A completed launch on working storage is remembered: `campaignActive` reads true and the time reads back. */
  lemma LaunchIsSaved(items: map<string, Value>, launchTime: string)
    ensures Read(Launched(items, false, launchTime), false, "campaignActive") == Bool(true)
    ensures Read(Launched(items, false, launchTime), false, "campaignLaunchTime") == Str(launchTime)
  {
    var first := Write(items, false, "campaignActive", Bool(true));
    ReadAfterWrite(items, "campaignActive", Bool(true));
    ReadOtherAfterWrite(first, false, "campaignLaunchTime", "campaignActive", Str(launchTime));
    ReadAfterWrite(first, "campaignLaunchTime", Str(launchTime));
  }

  /** Click, then the callback: idle goes to launching, then to an enabled active button. */
  lemma ActivationSequence(b: Button)
    requires b.phase == Idle
    ensures BeginActivation(b).phase == Launching && BeginActivation(b).disabled
    ensures FinishActivation(BeginActivation(b)) == Button(Active, false, false, true)
  {
  }
}
