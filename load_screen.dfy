/**
 * `LoadScreen`: the loading overlay. It accumulates load progress, grows the loading bar's
 * middle fill with it, and, once progress is exactly complete, waits for a click, a key or a
 * timer to send the machine from its ready state into the first idle state. Timers and page
 * or pointer events arrive as method calls; the machine's status at the moment of a click is
 * a parameter.
 */
module LoadScreenWidget {
  import opened Common
  import opened PositionByStyle
  import opened Machine

  /** The overlay's fixed label and stacking order. */
  const LoadScreenLabel: string := "LoadScreen"
  const LoadScreenZIndex: int := 9999
  /** The middle fill spans `screen.width / 15` per unit of progress. */
  const BarWidthDivisor: real := 15.0
  /** Progress announced when every low-resolution texture has loaded. */
  const LowTexturesShare: real := 0.5

  /**
   * The event a click sends: one for each of the two ready states, nothing otherwise. The status
   * is the snapshot's raw value, compared as is.
   */
  function ClickEvent(status: MachineState): (e: Option<MachineEvent>)
    ensures e.Some? ==> e.value.InitToNormalSpinIdle? || e.value.InitToFreeSpinIdle?
  {
    match status
    case ReadyToEnterNormalSpin => Some(InitToNormalSpinIdle)
    case ReadyToEnterFreeSpin => Some(InitToFreeSpinIdle)
    case _ => None
  }

  /**
   * A click's event tells which ready state the machine was in: two statuses that both send
   * send the same event only when they are the same status, and the free-spin event is sent
   * exactly from the free-spin ready state.
   */
  lemma ClickEventIdentifiesReadyState(a: MachineState, b: MachineState)
    ensures ClickEvent(a).Some? && ClickEvent(a) == ClickEvent(b) ==> a == b
    ensures ClickEvent(a) == Some(InitToFreeSpinIdle) <==> a == ReadyToEnterFreeSpin
  {
  }

  /** `finishHandler`'s key filter. */
  predicate IsConfirmKey(code: string) {
    code == "Space" || code == "Enter"
  }

  class LoadScreen {
    var elementLabel: string
    var zIndex: int
    var progressRatio: real
    var hasClicked: bool
    var hasRemoved: bool
    var destroyed: bool
    /** `screen.width / 15` at construction; zero is treated as missing. */
    var loadBarWidth: real
    /** The bar container exists (it is created at once when the width is non-zero). */
    var loadingBarContainerExists: bool
    var loadingBarVisible: bool
    /** The three fill sprites have loaded. */
    var fillsReady: bool
    var middleFillScaleX: real
    var clickTipShown: bool
    /** The two pointer-down handlers of the ready branch are installed. */
    var pointerHandlersInstalled: bool
    /** Key, resize and load-event listeners are still attached (removed by the cleanup). */
    var listenersAttached: bool
    /** 5-second click fallbacks (guarded by `hasClicked`) scheduled and not fired yet. */
    var pendingGuardedTimers: nat
    /** 9-second click timeouts (not guarded) scheduled and not fired yet. */
    var pendingUnguardedTimers: nat

    /** The fills only ever load into an existing bar, and the bar exists iff its width is non-zero. */
    predicate Valid()
      reads this
    {
      && (loadingBarContainerExists <==> loadBarWidth != 0.0)
      && (fillsReady ==> loadingBarContainerExists)
    }

    constructor (screen: Viewport)
      ensures Valid()
      ensures elementLabel == LoadScreenLabel && zIndex == LoadScreenZIndex
      ensures loadBarWidth == screen.width / BarWidthDivisor
      ensures loadingBarContainerExists == (screen.width != 0.0) && loadingBarVisible && !fillsReady
      ensures progressRatio == 0.0 && middleFillScaleX == 1.0
      ensures !hasClicked && !hasRemoved && !destroyed && !clickTipShown && !pointerHandlersInstalled
      ensures listenersAttached && pendingGuardedTimers == 0 && pendingUnguardedTimers == 0
    {
      loadBarWidth := screen.width / BarWidthDivisor;
      loadingBarContainerExists := screen.width / BarWidthDivisor != 0.0;
      loadingBarVisible, fillsReady, middleFillScaleX := true, false, 1.0;
      elementLabel := LoadScreenLabel;
      progressRatio := 0.0;
      hasClicked, hasRemoved, destroyed := false, false, false;
      clickTipShown, pointerHandlersInstalled := false, false;
      listenersAttached := true;
      pendingGuardedTimers, pendingUnguardedTimers := 0, 0;
      zIndex := LoadScreenZIndex;
    }

    /** `initLoadingBar` has finished loading its sprites: the fills exist iff the bar does. */
    method LoadingBarAssetsLoaded()
      requires Valid()
      modifies this`fillsReady
      ensures Valid()
      ensures fillsReady == (old(fillsReady) || loadingBarContainerExists)
    {
      if loadingBarContainerExists {
        fillsReady := true;
      }
    }

    /** `updateLoadingBar`: without the fills or the width nothing happens; else the middle fill grows with `ratio`. */
    method UpdateLoadingBar(ratio: real)
      modifies this`middleFillScaleX
      ensures fillsReady && loadBarWidth != 0.0 ==> middleFillScaleX == loadBarWidth * ratio
      ensures !(fillsReady && loadBarWidth != 0.0) ==> middleFillScaleX == old(middleFillScaleX)
    {
      if !fillsReady || loadBarWidth == 0.0 {
        return;
      }
      middleFillScaleX := loadBarWidth * ratio;
    }

    /**
     * `checkProgress`: at exactly full progress the bar is hidden, the click tip and pointer
     * handlers appear and a guarded 5-second fallback is armed; at any other progress a
     * 9-second unguarded timeout is armed instead.
     */
    method CheckProgress()
      modifies this`loadingBarVisible, this`clickTipShown, this`pointerHandlersInstalled,
        this`pendingGuardedTimers, this`pendingUnguardedTimers
      ensures progressRatio == 1.0 ==>
        && loadingBarVisible == (old(loadingBarVisible) && !loadingBarContainerExists)
        && clickTipShown && pointerHandlersInstalled
        && pendingGuardedTimers == old(pendingGuardedTimers) + 1
        && pendingUnguardedTimers == old(pendingUnguardedTimers)
      ensures progressRatio != 1.0 ==>
        && loadingBarVisible == old(loadingBarVisible) && clickTipShown == old(clickTipShown)
        && pointerHandlersInstalled == old(pointerHandlersInstalled)
        && pendingGuardedTimers == old(pendingGuardedTimers)
        && pendingUnguardedTimers == old(pendingUnguardedTimers) + 1
    {
      if progressRatio == 1.0 {
        if loadingBarContainerExists {
          loadingBarVisible := false;
        }
        clickTipShown := true;
        pointerHandlersInstalled := true;
        pendingGuardedTimers := pendingGuardedTimers + 1;
      } else {
        pendingUnguardedTimers := pendingUnguardedTimers + 1;
      }
    }

    /** `addProgress`: progress grows by exactly `ratio`, the bar follows, then the progress is checked. */
    method AddProgress(ratio: real)
      modifies this`progressRatio, this`middleFillScaleX, this`loadingBarVisible, this`clickTipShown,
        this`pointerHandlersInstalled, this`pendingGuardedTimers, this`pendingUnguardedTimers
      ensures progressRatio == old(progressRatio) + ratio
      ensures fillsReady && loadBarWidth != 0.0 ==> middleFillScaleX == loadBarWidth * progressRatio
      ensures !(fillsReady && loadBarWidth != 0.0) ==> middleFillScaleX == old(middleFillScaleX)
      ensures progressRatio == 1.0 ==>
        clickTipShown && pointerHandlersInstalled && pendingGuardedTimers == old(pendingGuardedTimers) + 1
        && pendingUnguardedTimers == old(pendingUnguardedTimers)
        && loadingBarVisible == (old(loadingBarVisible) && !loadingBarContainerExists)
      ensures progressRatio != 1.0 ==>
        pendingUnguardedTimers == old(pendingUnguardedTimers) + 1 && pendingGuardedTimers == old(pendingGuardedTimers)
        && loadingBarVisible == old(loadingBarVisible) && clickTipShown == old(clickTipShown)
        && pointerHandlersInstalled == old(pointerHandlersInstalled)
    {
      progressRatio := progressRatio + ratio;
      UpdateLoadingBar(progressRatio);
      CheckProgress();
    }

    /** `updateProgress`, the asset-preload entry point: the same step, the sum written the other way round. */
    method UpdateProgress(ratio: real)
      modifies this`progressRatio, this`middleFillScaleX, this`loadingBarVisible, this`clickTipShown,
        this`pointerHandlersInstalled, this`pendingGuardedTimers, this`pendingUnguardedTimers
      ensures progressRatio == old(progressRatio) + ratio
      ensures fillsReady && loadBarWidth != 0.0 ==> middleFillScaleX == loadBarWidth * progressRatio
      ensures !(fillsReady && loadBarWidth != 0.0) ==> middleFillScaleX == old(middleFillScaleX)
      ensures progressRatio == 1.0 ==>
        clickTipShown && pointerHandlersInstalled && pendingGuardedTimers == old(pendingGuardedTimers) + 1
        && pendingUnguardedTimers == old(pendingUnguardedTimers)
        && loadingBarVisible == (old(loadingBarVisible) && !loadingBarContainerExists)
      ensures progressRatio != 1.0 ==>
        pendingUnguardedTimers == old(pendingUnguardedTimers) + 1 && pendingGuardedTimers == old(pendingGuardedTimers)
        && loadingBarVisible == old(loadingBarVisible) && clickTipShown == old(clickTipShown)
        && pointerHandlersInstalled == old(pointerHandlersInstalled)
    {
      progressRatio := ratio + progressRatio;
      UpdateLoadingBar(progressRatio);
      CheckProgress();
    }

    /**
     * `handleClick`: in a ready state the matching event is sent, `hasClicked` set, listeners
     * removed and the overlay destroyed; in any other state nothing happens.
     */
    method HandleClick(status: MachineState) returns (sent: Option<MachineEvent>)
      modifies this`hasClicked, this`listenersAttached, this`destroyed
      ensures sent == ClickEvent(status)
      ensures sent.Some? ==> hasClicked && !listenersAttached && destroyed
      ensures sent.None? ==>
        hasClicked == old(hasClicked) && listenersAttached == old(listenersAttached) && destroyed == old(destroyed)
    {
      sent := ClickEvent(status);
      if sent.Some? {
        hasClicked := true;
        Cleanup();
        destroyed := true;
      }
    }

    /** `cleanup`: the key, resize and load-event listeners are removed. */
    method Cleanup()
      modifies this`listenersAttached
      ensures !listenersAttached
    {
      listenersAttached := false;
    }

    /** `finishHandler`: Space or Enter clicks, once, while the key listener is attached. */
    method KeyDown(code: string, status: MachineState) returns (sent: Option<MachineEvent>)
      modifies this`hasClicked, this`listenersAttached, this`destroyed
      ensures IsConfirmKey(code) && old(listenersAttached) && !old(hasClicked) ==> sent == ClickEvent(status)
      ensures !(IsConfirmKey(code) && old(listenersAttached) && !old(hasClicked)) ==>
        sent.None? && hasClicked == old(hasClicked) && listenersAttached == old(listenersAttached)
        && destroyed == old(destroyed)
      ensures sent.Some? ==> hasClicked && !listenersAttached && destroyed
      ensures sent.None? ==>
        hasClicked == old(hasClicked) && listenersAttached == old(listenersAttached) && destroyed == old(destroyed)
    {
      sent := None;
      if listenersAttached && IsConfirmKey(code) && !hasClicked {
        sent := HandleClick(status);
      }
    }

    /** A pointer down on the overlay: clicks once the ready branch installed its handlers, until clicked. */
    method PointerDown(status: MachineState) returns (sent: Option<MachineEvent>)
      modifies this`hasClicked, this`listenersAttached, this`destroyed
      ensures pointerHandlersInstalled && !old(hasClicked) ==> sent == ClickEvent(status)
      ensures !(pointerHandlersInstalled && !old(hasClicked)) ==>
        sent.None? && hasClicked == old(hasClicked) && listenersAttached == old(listenersAttached)
        && destroyed == old(destroyed)
      ensures sent.Some? ==> hasClicked && !listenersAttached && destroyed
      ensures sent.None? ==>
        hasClicked == old(hasClicked) && listenersAttached == old(listenersAttached) && destroyed == old(destroyed)
    {
      sent := None;
      if pointerHandlersInstalled && !hasClicked {
        sent := HandleClick(status);
      }
    }

    /** The 5-second fallback fires: it clicks only if nothing has clicked yet. */
    method FireGuardedTimer(status: MachineState) returns (sent: Option<MachineEvent>)
      modifies this`pendingGuardedTimers, this`hasClicked, this`listenersAttached, this`destroyed
      ensures old(pendingGuardedTimers) > 0 ==> pendingGuardedTimers == old(pendingGuardedTimers) - 1
      ensures old(pendingGuardedTimers) == 0 ==> pendingGuardedTimers == 0
      ensures old(pendingGuardedTimers) > 0 && !old(hasClicked) ==> sent == ClickEvent(status)
      ensures !(old(pendingGuardedTimers) > 0 && !old(hasClicked)) ==>
        sent.None? && hasClicked == old(hasClicked) && listenersAttached == old(listenersAttached)
        && destroyed == old(destroyed)
      ensures sent.Some? ==> hasClicked && !listenersAttached && destroyed
      ensures sent.None? ==>
        hasClicked == old(hasClicked) && listenersAttached == old(listenersAttached) && destroyed == old(destroyed)
    {
      sent := None;
      if pendingGuardedTimers > 0 {
        pendingGuardedTimers := pendingGuardedTimers - 1;
        if !hasClicked {
          sent := HandleClick(status);
        }
      }
    }

    /** The 9-second timeout fires: it clicks whatever `hasClicked` says. */
    method FireUnguardedTimer(status: MachineState) returns (sent: Option<MachineEvent>)
      modifies this`pendingUnguardedTimers, this`hasClicked, this`listenersAttached, this`destroyed
      ensures old(pendingUnguardedTimers) > 0 ==>
        pendingUnguardedTimers == old(pendingUnguardedTimers) - 1 && sent == ClickEvent(status)
      ensures old(pendingUnguardedTimers) == 0 ==>
        pendingUnguardedTimers == 0 && sent.None? && hasClicked == old(hasClicked)
        && listenersAttached == old(listenersAttached) && destroyed == old(destroyed)
      ensures sent.Some? ==> hasClicked && !listenersAttached && destroyed
      ensures sent.None? ==>
        hasClicked == old(hasClicked) && listenersAttached == old(listenersAttached) && destroyed == old(destroyed)
    {
      sent := None;
      if pendingUnguardedTimers > 0 {
        pendingUnguardedTimers := pendingUnguardedTimers - 1;
        sent := HandleClick(status);
      }
    }

    /** `finished_Load_All_Low_Textures`: half of the progress, while the listener is attached. */
    method FinishedLoadAllLowTextures()
      modifies this`progressRatio, this`middleFillScaleX, this`loadingBarVisible, this`clickTipShown,
        this`pointerHandlersInstalled, this`pendingGuardedTimers, this`pendingUnguardedTimers
      ensures listenersAttached ==> progressRatio == old(progressRatio) + LowTexturesShare
      ensures !listenersAttached ==>
        progressRatio == old(progressRatio)
        && pendingGuardedTimers == old(pendingGuardedTimers) && pendingUnguardedTimers == old(pendingUnguardedTimers)
      ensures !listenersAttached ==>
        middleFillScaleX == old(middleFillScaleX) && loadingBarVisible == old(loadingBarVisible)
        && clickTipShown == old(clickTipShown) && pointerHandlersInstalled == old(pointerHandlersInstalled)
      ensures listenersAttached && fillsReady && loadBarWidth != 0.0 ==>
        middleFillScaleX == loadBarWidth * progressRatio
      ensures listenersAttached && !(fillsReady && loadBarWidth != 0.0) ==>
        middleFillScaleX == old(middleFillScaleX)
      ensures listenersAttached && progressRatio == 1.0 ==>
        clickTipShown && pointerHandlersInstalled && pendingGuardedTimers == old(pendingGuardedTimers) + 1
        && pendingUnguardedTimers == old(pendingUnguardedTimers)
        && loadingBarVisible == (old(loadingBarVisible) && !loadingBarContainerExists)
      ensures listenersAttached && progressRatio != 1.0 ==>
        pendingUnguardedTimers == old(pendingUnguardedTimers) + 1 && pendingGuardedTimers == old(pendingGuardedTimers)
        && loadingBarVisible == old(loadingBarVisible) && clickTipShown == old(clickTipShown)
        && pointerHandlersInstalled == old(pointerHandlersInstalled)
    {
      if listenersAttached {
        AddProgress(LowTexturesShare);
      }
    }

    /** `should_removeLoadScreen`: marks the overlay removed, while the listener is attached. */
    method ShouldRemoveLoadScreen()
      modifies this`hasRemoved
      ensures hasRemoved == (old(hasRemoved) || listenersAttached)
    {
      if listenersAttached && !hasRemoved {
        hasRemoved := true;
      }
    }
  }

  /** Asking twice to remove the overlay leaves it as asking once does. */
  method RemoveTwiceIsRemoveOnce(ls: LoadScreen) returns (afterOnce: bool)
    modifies ls
    ensures ls.hasRemoved == afterOnce
  {
    ls.ShouldRemoveLoadScreen();
    afterOnce := ls.hasRemoved;
    ls.ShouldRemoveLoadScreen();
  }

  /**
   * The usual start-up: the preload reports half, the low textures the other half; the second
   * report reaches exactly full progress and takes the ready branch, the first armed a timeout;
   * a key press in the normal-spin ready state then leaves the loading screen.
   */
  method HalfAndHalfThenEnter(screen: Viewport) returns (ls: LoadScreen, sent: Option<MachineEvent>)
    ensures ls.progressRatio == 1.0
    ensures ls.pendingGuardedTimers == 1 && ls.pendingUnguardedTimers == 1
    ensures sent == Some(InitToNormalSpinIdle) && ls.hasClicked && ls.destroyed
  {
    ls := new LoadScreen(screen);
    ls.UpdateProgress(0.5);
    ls.FinishedLoadAllLowTextures();
    assert ls.pointerHandlersInstalled;
    sent := ls.KeyDown("Enter", ReadyToEnterNormalSpin);
  }

  /**
   * After a click has sent its event, the key, the pointer and the 5-second fallback stay silent
   * whatever the machine's status then; only the unguarded 9-second timeout clicks again, and it
   * resends the event for the status it reads.
   */
  method OnlyTheTimeoutClicksAgain(ls: LoadScreen, status: MachineState, later: MachineState, code: string)
    returns (first: Option<MachineEvent>, key: Option<MachineEvent>, pointer: Option<MachineEvent>,
      guarded: Option<MachineEvent>, unguarded: Option<MachineEvent>)
    requires ls.pendingUnguardedTimers > 0
    modifies ls
    ensures first == ClickEvent(status)
    ensures first.Some? ==>
      key.None? && pointer.None? && guarded.None? && unguarded == ClickEvent(later) && ls.hasClicked
  {
    first := ls.HandleClick(status);
    key := ls.KeyDown(code, later);
    pointer := ls.PointerDown(later);
    guarded := ls.FireGuardedTimer(later);
    unguarded := ls.FireUnguardedTimer(later);
  }

  /** A click while the machine is not ready sends nothing, and a later click still can. */
  method EarlyClickIsHarmless(screen: Viewport) returns (ls: LoadScreen, first: Option<MachineEvent>, second: Option<MachineEvent>)
    ensures first.None? && second == Some(InitToFreeSpinIdle)
  {
    ls := new LoadScreen(screen);
    first := ls.KeyDown("Space", Loading);
    second := ls.KeyDown("Space", ReadyToEnterFreeSpin);
  }
}
