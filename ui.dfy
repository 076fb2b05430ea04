/** The toast notifications and the button-loading helper (js/ui.js).
    Timers and the clock are explicit: every event handler receives the
    current time in milliseconds, and a pending `setTimeout` is a flag with
    the time at which it fires. */
module Ui {
  import opened Wrappers

  /** The `duration` parameter's default. */
  const DefaultDuration: int := 5000

  /** How long a toast stays: errors 10 s and warnings 7 s whatever the
      caller asked for, every other type the requested duration. */
  function ToastDuration(kind: string, duration: int): (d: int)
    ensures kind == "error" ==> d == 10000
    ensures kind == "warning" ==> d == 7000
    ensures kind != "error" && kind != "warning" ==> d == duration
  {
    if kind == "error" then 10000
    else if kind == "warning" then 7000
    else duration
  }

  /** The shortcuts `success`, `error`, `info` and `warn` pass no duration. */
  lemma ShortcutDurations()
    ensures ToastDuration("success", DefaultDuration) == 5000
    ensures ToastDuration("info", DefaultDuration) == 5000
    ensures ToastDuration("error", DefaultDuration) == 10000
    ensures ToastDuration("warning", DefaultDuration) == 7000
  {
  }

  const Icons: map<string, string> := map[
    "success" := "fa-circle-check",
    "error" := "fa-circle-exclamation",
    "info" := "fa-circle-info",
    "warning" := "fa-triangle-exclamation"]

  /** `icons[type] || icons.info`: a known type has its own icon, any other
      type gets the info icon. */
  function ToastIcon(kind: string): (icon: string)
    ensures kind in Icons ==> icon == Icons[kind]
    ensures kind !in Icons ==> icon == "fa-circle-info"
  {
    if kind in Icons then Icons[kind] else Icons["info"]
  }

  /** One toast element and the state its handlers share (`timer`, `start`,
      `remaining`). */
  class ToastItem {
    const kind: string
    const icon: string
    const duration: int
    var start: int
    var remaining: int
    var timerArmed: bool    // a setTimeout that dismisses the toast is pending
    var deadline: int       // when the pending timer fires
    var progressPaused: bool
    var hovered: bool       // between mouseenter and mouseleave
    var dismissing: bool    // the element has the class 'dismissing'
    var listening: bool     // the once-only animationend listener is registered
    var removed: bool
    ghost var shownFor: int // time spent on screen, not hovered, before `start`

    /** The countdown invariant: hovering pauses it, so the timer fires when
        the unhovered time on screen adds up to the duration. */
    ghost predicate Valid()
      reads this
    {
      remaining == duration - shownFor
      && (timerArmed ==> !hovered && deadline == start + remaining)
      && (listening ==> dismissing)
      && (removed ==> dismissing && !listening)
    }

    /** The element `Toast.show` creates, with its first timer armed. */
    constructor (kind: string, duration: int, now: int)
      ensures Valid()
      ensures this.kind == kind && icon == ToastIcon(kind)
      ensures this.duration == ToastDuration(kind, duration)
      ensures start == now && remaining == this.duration
      ensures timerArmed && deadline == now + this.duration
      ensures !progressPaused && !hovered && !dismissing && !listening && !removed
    {
      this.kind := kind;
      icon := ToastIcon(kind);
      this.duration := ToastDuration(kind, duration);
      start := now;
      remaining := ToastDuration(kind, duration);
      timerArmed := true;
      deadline := now + ToastDuration(kind, duration);
      progressPaused := false;
      hovered := false;
      dismissing := false;
      listening := false;
      removed := false;
      shownFor := 0;
    }

    /** `onmouseenter`: clears the timer and keeps the time that was left. */
    method MouseEnter(now: int)
      requires Valid() && !hovered
      modifies this
      ensures Valid() && hovered && !timerArmed && progressPaused
      ensures remaining == old(remaining) - (now - old(start))
      ensures old(timerArmed) ==> remaining == old(deadline) - now
      ensures start == old(start) && dismissing == old(dismissing)
      ensures listening == old(listening) && removed == old(removed)
    {
      timerArmed := false;
      remaining := remaining - (now - start);
      shownFor := shownFor + (now - start);
      progressPaused := true;
      hovered := true;
    }

    /** `onmouseleave`: restarts the clock and re-arms the timer only when
        time is left; a toast whose time ran out while hovered then stays
        until it is clicked. */
    method MouseLeave(now: int)
      requires Valid() && hovered
      modifies this
      ensures Valid() && !hovered && start == now && remaining == old(remaining)
      ensures timerArmed <==> old(remaining) > 0
      ensures timerArmed ==> deadline == now + remaining && !progressPaused
      ensures !timerArmed ==> progressPaused == old(progressPaused)
      ensures dismissing == old(dismissing) && listening == old(listening) && removed == old(removed)
    {
      hovered := false;
      start := now;
      if remaining > 0 {
        timerArmed := true;
        deadline := now + remaining;
        progressPaused := false;
      }
    }

    /** `onclick`: clears the timer and dismisses. */
    method Click()
      requires Valid()
      modifies this
      ensures Valid() && !timerArmed && dismissing
      ensures listening == (old(listening) || !old(dismissing)) && removed == old(removed)
      ensures start == old(start) && remaining == old(remaining)
      ensures hovered == old(hovered) && progressPaused == old(progressPaused)
    {
      timerArmed := false;
      Dismiss();
    }

    /** The pending timer runs out: it dismisses the toast. */
    method TimerFires(now: int)
      requires Valid() && timerArmed && now >= deadline
      modifies this
      ensures Valid() && !timerArmed && dismissing
      ensures listening == (old(listening) || !old(dismissing)) && removed == old(removed)
      ensures start == old(start) && remaining == old(remaining)
      ensures hovered == old(hovered) && progressPaused == old(progressPaused)
    {
      timerArmed := false;
      Dismiss();
    }

    /** `Toast.dismiss(toast)`: marks the toast and registers a once-only
        animationend listener; on a toast already dismissing it does
        nothing. */
    method Dismiss()
      requires Valid()
      modifies this
      ensures Valid() && dismissing
      ensures old(dismissing) ==> unchanged(this)
      ensures !old(dismissing) ==> listening && removed == old(removed) && timerArmed == old(timerArmed)
      ensures start == old(start) && remaining == old(remaining) && hovered == old(hovered)
      ensures progressPaused == old(progressPaused) && deadline == old(deadline)
    {
      if dismissing {
        return;
      }
      dismissing := true;
      listening := true;
    }

    /** An animationend event reaches the toast. The listener runs once,
        whatever the animation's name, and removes the toast only for
        `toastSlideOut`. */
    method AnimationEnd(name: string)
      requires Valid()
      modifies this
      ensures Valid() && !listening
      ensures removed <==> old(removed) || (old(listening) && name == "toastSlideOut")
      ensures dismissing == old(dismissing) && timerArmed == old(timerArmed)
      ensures start == old(start) && remaining == old(remaining) && deadline == old(deadline)
      ensures hovered == old(hovered) && progressPaused == old(progressPaused)
    {
      if listening {
        listening := false;
        if name == "toastSlideOut" {
          removed := true;
        }
      }
    }
  }

  /** The page as `Toast.init` sees it: how many `toast-provider` elements it holds. */
  class ToastHost {
    var containers: nat

    constructor (containers: nat)
      ensures this.containers == containers
    {
      this.containers := containers;
    }

    /** `Toast.init`: creates the container only when there is none. */
    method Init()
      modifies this
      ensures containers == if old(containers) == 0 then 1 else old(containers)
    {
      if containers == 0 {
        containers := 1;
      }
    }

    /** `Toast.show(message, type, duration)` at time `now`. */
    method Show(message: string, kind: string, duration: int, now: int) returns (t: ToastItem)
      modifies this
      ensures fresh(t) && t.Valid()
      ensures containers == if old(containers) == 0 then 1 else old(containers)
      ensures t.kind == kind && t.icon == ToastIcon(kind) && t.duration == ToastDuration(kind, duration)
      ensures t.timerArmed && t.deadline == now + t.duration && !t.dismissing && !t.removed
      ensures t.start == now && t.remaining == t.duration
      ensures !t.hovered && !t.progressPaused && !t.listening
    {
      Init();
      t := new ToastItem(kind, duration, now);
    }
  }

  /** Repeated initialisation of a page without a container yields exactly one. */
  method InitTwice(host: ToastHost)
    requires host.containers <= 1
    modifies host
    ensures host.containers == 1
  {
    host.Init();
    host.Init();
  }

  /** Dismissing twice is the same as dismissing once, and a toast is only
      removed by the end of its `toastSlideOut` animation. */
  method DismissTwice(t: ToastItem)
    requires t.Valid() && !t.dismissing
    modifies t
    ensures t.Valid() && t.dismissing && t.listening && !t.removed
  {
    t.Dismiss();
    t.Dismiss();
  }

  /** A button; `savedHtml` is its `data-original-html` attribute. */
  class Button {
    var innerHtml: string
    var savedHtml: Option<string>
    var disabled: bool
    var loading: bool // has the class 'loading-state'

    constructor (innerHtml: string)
      ensures this.innerHtml == innerHtml && savedHtml == None && !disabled && !loading
    {
      this.innerHtml := innerHtml;
      savedHtml := None;
      disabled := false;
      loading := false;
    }
  }

  const SpinnerHtml: string := "<i class=\"fas fa-spinner fa-spin mr-2\"></i> "

  /** The label while loading: the custom text, or `Processing...` when it
      is missing or empty. */
  function LoadingHtml(customText: Option<string>): string
  {
    SpinnerHtml + (if customText.Some? && customText.value != "" then customText.value else "Processing...")
  }

  /** The label restored afterwards: the saved HTML, or `Continue` when none
      (or an empty one) was saved. */
  function RestoredHtml(saved: Option<string>): string
  {
    if saved.Some? && saved.value != "" then saved.value else "Continue"
  }

  /** `UiUtils.setBtnLoading(btn, isLoading, customText)`; a null button is
      left alone. */
  method SetBtnLoading(btn: Button?, isLoading: bool, customText: Option<string>)
    modifies btn
    ensures btn != null && isLoading ==>
      btn.savedHtml == Some(old(btn.innerHtml)) && btn.disabled && btn.loading
      && btn.innerHtml == LoadingHtml(customText)
    ensures btn != null && !isLoading ==>
      btn.savedHtml == old(btn.savedHtml) && !btn.disabled && !btn.loading
      && btn.innerHtml == RestoredHtml(old(btn.savedHtml))
  {
    if btn == null {
      return;
    }
    if isLoading {
      btn.savedHtml := Some(btn.innerHtml);
      btn.disabled := true;
      btn.loading := true;
      btn.innerHtml := LoadingHtml(customText);
    } else {
      btn.disabled := false;
      btn.loading := false;
      btn.innerHtml := RestoredHtml(btn.savedHtml);
    }
  }

  /** Loading then done gives the button back its label, enabled and
      without the loading class, unless the label was empty. */
  method LoadingRoundTrip(btn: Button, customText: Option<string>)
    modifies btn
    ensures !btn.disabled && !btn.loading
    ensures btn.innerHtml == if old(btn.innerHtml) != "" then old(btn.innerHtml) else "Continue"
  {
    SetBtnLoading(btn, true, customText);
    SetBtnLoading(btn, false, None);
  }

  /** Two loading calls before the restore save the spinner label over the
      original, so the restore shows the spinner. */
  method LoadingTwiceLosesLabel(btn: Button, first: Option<string>, second: Option<string>)
    modifies btn
    ensures !btn.disabled && !btn.loading && btn.innerHtml == LoadingHtml(first)
  {
    SetBtnLoading(btn, true, first);
    SetBtnLoading(btn, true, second);
    SetBtnLoading(btn, false, None);
  }
}
