/**
 * `TetraLayoutContainer`: a container placed by the four-style resolver. A container that must
 * wait for its parent's size stays hidden until its own `<label>_added` notification, and is
 * revealed by a timer scheduled then.
 */
module TetraLayoutContainerWidget {
  import opened Common
  import opened PositionByStyle
  import opened Machine
  import opened ElementConfigs

  /**
   * The page body's single `onresize` slot: each container constructed assigns itself to it,
   * replacing the previous one.
   */
  class Body {
    var onresize: TetraLayoutContainer?

    constructor ()
      ensures onresize == null
    {
      onresize := null;
    }

    /**
     * The body was resized: the container holding the slot schedules a delayed reposition, and
     * nothing else about it changes.
     */
    method Resized()
      modifies if onresize != null then {onresize} else {}
      ensures onresize == old(onresize)
      ensures onresize != null ==>
        onresize.pendingBodyResizeTimers == old(onresize.pendingBodyResizeTimers) + 1
      ensures onresize != null ==>
        && onresize.zIndex == old(onresize.zIndex) && onresize.isFreeSpin == old(onresize.isFreeSpin)
        && onresize.isWaiting == old(onresize.isWaiting) && onresize.visible == old(onresize.visible)
        && onresize.savedScale == old(onresize.savedScale) && onresize.scale == old(onresize.scale)
        && onresize.x == old(onresize.x) && onresize.y == old(onresize.y)
        && onresize.pendingRevealTimers == old(onresize.pendingRevealTimers)
    {
      if onresize != null {
        onresize.pendingBodyResizeTimers := onresize.pendingBodyResizeTimers + 1;
      }
    }
  }

  class TetraLayoutContainer {
    const layoutConfig: ElementConfig
    const common: CommonData
    var zIndex: int
    var isFreeSpin: bool
    var isWaiting: bool
    var savedScale: real
    var scale: real
    var x: real
    var y: real
    var visible: bool
    /** Reveal timers scheduled by `_added` and not fired yet. */
    var pendingRevealTimers: nat
    /** Body-resize timers scheduled and not fired yet. */
    var pendingBodyResizeTimers: nat

    /** The placement the resolved position rule gives on `screen`. */
    function Target(screen: Viewport): Placement {
      Place(screen, Resolve(layoutConfig.position, screen, common))
    }

    /** Whether the resolved position rule shows the container on `screen`. */
    function RuleVisible(screen: Viewport): bool {
      Resolve(layoutConfig.position, screen, common).visible
    }

    /** The state `updatePosition` leaves. */
    predicate Positioned(screen: Viewport)
      reads this
    {
      && savedScale == Target(screen).scale && scale == savedScale
      && x == Target(screen).x && y == Target(screen).y
      && visible == RuleVisible(screen)
    }

    /**
     * The constructor: positioned first; then a truthy configured `scale` and `zIndex` override;
     * the container takes the body's resize slot; a waiting container ends hidden whatever
     * the rule said.
     */
    constructor (layoutConfig: ElementConfig, common: CommonData, screen: Viewport, body: Body)
      modifies body
      ensures this.layoutConfig == layoutConfig && this.common == common
      ensures savedScale == Target(screen).scale && x == Target(screen).x && y == Target(screen).y
      ensures scale == (if TruthyReal(layoutConfig.scale) then layoutConfig.scale.value else savedScale)
      ensures zIndex == ConfiguredZIndex(layoutConfig)
      ensures visible == (!layoutConfig.shouldWaitForParentWidthOrHeight && RuleVisible(screen))
      ensures !isFreeSpin && isWaiting && pendingRevealTimers == 0 && pendingBodyResizeTimers == 0
      ensures body.onresize == this
    {
      this.layoutConfig := layoutConfig;
      this.common := common;
      zIndex := DefaultZIndex;
      isFreeSpin, isWaiting := false, true;
      savedScale, scale, x, y, visible := 1.0, 1.0, 0.0, 0.0, true;
      pendingRevealTimers, pendingBodyResizeTimers := 0, 0;
      new;
      UpdatePosition(screen);
      if TruthyReal(layoutConfig.scale) {
        scale := layoutConfig.scale.value;
      }
      zIndex := ConfiguredZIndex(layoutConfig);
      body.onresize := this;
      if layoutConfig.shouldWaitForParentWidthOrHeight {
        visible := false;
      }
    }

    /** `updatePosition`: scale, centre offset and visibility from the resolved rule. */
    method UpdatePosition(screen: Viewport)
      modifies this`savedScale, this`scale, this`x, this`y, this`visible
      ensures Positioned(screen)
    {
      var r := Resolve(layoutConfig.position, screen, common);
      var p := Place(screen, r);
      savedScale := p.scale;
      scale := savedScale;
      x := p.x;
      y := p.y;
      visible := r.visible;
    }

    /**
     * The snapshot handler: `isFreeSpin` follows the context; in LOADING, IDLE or FREE_SPIN_IDLE
     * a container that does not wait is repositioned; nothing else changes.
     */
    method OnSnapshot(snapshot: Snapshot, screen: Viewport)
      modifies this`isFreeSpin, this`savedScale, this`scale, this`x, this`y, this`visible
      ensures isFreeSpin == snapshot.context.isFreeSpin
      ensures snapshot.status in {Loading, Idle, FreeSpinIdle} && !layoutConfig.shouldWaitForParentWidthOrHeight ==>
        Positioned(screen)
      ensures !(snapshot.status in {Loading, Idle, FreeSpinIdle} && !layoutConfig.shouldWaitForParentWidthOrHeight) ==>
        savedScale == old(savedScale) && scale == old(scale) && x == old(x) && y == old(y) && visible == old(visible)
    {
      isFreeSpin := snapshot.context.isFreeSpin;
      match snapshot.status {
        case Loading =>
          if !layoutConfig.shouldWaitForParentWidthOrHeight {
            UpdatePosition(screen);
          }
        case Idle =>
          if !layoutConfig.shouldWaitForParentWidthOrHeight {
            UpdatePosition(screen);
          }
        case FreeSpinIdle =>
          if !layoutConfig.shouldWaitForParentWidthOrHeight {
            UpdatePosition(screen);
          }
        case _ =>
      }
    }

    /** The `<label>_added` handler: a reveal is scheduled only for a waiting container still waiting. */
    method OnAdded()
      modifies this`pendingRevealTimers
      ensures layoutConfig.shouldWaitForParentWidthOrHeight && isWaiting ==>
        pendingRevealTimers == old(pendingRevealTimers) + 1
      ensures !(layoutConfig.shouldWaitForParentWidthOrHeight && isWaiting) ==>
        pendingRevealTimers == old(pendingRevealTimers)
    {
      if layoutConfig.shouldWaitForParentWidthOrHeight && isWaiting {
        pendingRevealTimers := pendingRevealTimers + 1;
      }
    }

    /**
     * A reveal timer fires: shown, repositioned (which sets `visible` to the rule's value after
     * all), and no longer waiting.
     */
    method FireRevealTimer(screen: Viewport)
      modifies this`pendingRevealTimers, this`isWaiting, this`savedScale, this`scale, this`x, this`y, this`visible
      ensures old(pendingRevealTimers) == 0 ==>
        && pendingRevealTimers == 0 && isWaiting == old(isWaiting)
        && savedScale == old(savedScale) && scale == old(scale) && x == old(x) && y == old(y) && visible == old(visible)
      ensures old(pendingRevealTimers) > 0 ==>
        pendingRevealTimers == old(pendingRevealTimers) - 1 && !isWaiting && Positioned(screen)
    {
      if pendingRevealTimers > 0 {
        visible := true;
        UpdatePosition(screen);
        isWaiting := false;
        pendingRevealTimers := pendingRevealTimers - 1;
      }
    }

    /** A body-resize timer fires: the container is repositioned. */
    method FireBodyResizeTimer(screen: Viewport)
      modifies this`pendingBodyResizeTimers, this`savedScale, this`scale, this`x, this`y, this`visible
      ensures old(pendingBodyResizeTimers) == 0 ==>
        && pendingBodyResizeTimers == 0
        && savedScale == old(savedScale) && scale == old(scale) && x == old(x) && y == old(y) && visible == old(visible)
      ensures old(pendingBodyResizeTimers) > 0 ==>
        pendingBodyResizeTimers == old(pendingBodyResizeTimers) - 1 && Positioned(screen)
    {
      if pendingBodyResizeTimers > 0 {
        UpdatePosition(screen);
        pendingBodyResizeTimers := pendingBodyResizeTimers - 1;
      }
    }
  }

  /**
   * A waiting container: hidden after construction, revealed with the rule's visibility once
   * its `_added` timer fires, and deaf to any later `_added`.
   */
  method WaitThenReveal(layoutConfig: ElementConfig, common: CommonData, screen: Viewport)
    returns (c: TetraLayoutContainer, visibleWhileWaiting: bool)
    requires layoutConfig.shouldWaitForParentWidthOrHeight
    ensures !visibleWhileWaiting
    ensures !c.isWaiting && c.Positioned(screen) && c.pendingRevealTimers == 0
  {
    var body := new Body();
    c := new TetraLayoutContainer(layoutConfig, common, screen, body);
    visibleWhileWaiting := c.visible;
    c.OnAdded();
    c.FireRevealTimer(screen);
    c.OnAdded();
  }

  /**
   * The wait is enforced only against snapshots: a resize broadcast during the wait shows the
   * container as its rule says, although it is still waiting.
   */
  method ResizeDuringWaitShows(layoutConfig: ElementConfig, common: CommonData, screen: Viewport)
    returns (c: TetraLayoutContainer)
    requires layoutConfig.shouldWaitForParentWidthOrHeight
    ensures c.isWaiting && c.visible == c.RuleVisible(screen)
  {
    var body := new Body();
    c := new TetraLayoutContainer(layoutConfig, common, screen, body);
    c.UpdatePosition(screen);
  }

  /** Only the container constructed last reacts to a body resize: the slot holds one handler. */
  method LastContainerOwnsBodyResize(layoutConfig: ElementConfig, common: CommonData, screen: Viewport)
    returns (first: TetraLayoutContainer, second: TetraLayoutContainer)
    ensures first.pendingBodyResizeTimers == 0 && second.pendingBodyResizeTimers == 1
  {
    var body := new Body();
    first := new TetraLayoutContainer(layoutConfig, common, screen, body);
    second := new TetraLayoutContainer(layoutConfig, common, screen, body);
    body.Resized();
  }
}
