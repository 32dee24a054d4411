/**
 * `SpineAnimation`: an element holding up to two skeletal animations, one for portrait and one
 * for landscape screens, each created at most once and shown only in its own orientation.
 * The orientation, whether a skeleton source exists for the screen, and whether loading and
 * creating it succeed are decided outside this file and arrive as parameters.
 */
module SpineAnimationWidget {
  import opened Common
  import opened PositionByStyle
  import opened Machine
  import opened ElementConfigs

  /** A created skeletal animation: a display object with its own visibility, scale and position. */
  class Spine {
    var visible: bool
    var scale: real
    var x: real
    var y: real

    constructor ()
      ensures visible && scale == 1.0 && x == 0.0 && y == 0.0
    {
      visible, scale, x, y := true, 1.0, 0.0, 0.0;
    }
  }

  /** The observable fields of a spine, so that "nothing else changed" can be said in one line. */
  datatype SpinePose = SpinePose(visible: bool, scale: real, x: real, y: real)

  function PoseOf(s: Spine): SpinePose
    reads s
  {
    SpinePose(s.visible, s.scale, s.x, s.y)
  }

  /** The spine shows the placement `p`. */
  predicate PlacedAt(s: Spine, p: Placement)
    reads s
  {
    s.scale == p.scale && s.x == p.x && s.y == p.y
  }

  class SpineAnimation {
    const layoutConfig: ElementConfig
    const common: CommonData
    var elementLabel: string
    var zIndex: int
    var visible: bool
    var isFreeSpin: bool
    var imageScale: real
    /** Never set to true by anything in the element; only read before repositioning. */
    var isDestroyed: bool
    var portraitSpine: Spine?
    var landscapeSpine: Spine?

    /** The two slots never hold the same object. */
    predicate Valid()
      reads this
    {
      portraitSpine == null || landscapeSpine == null || portraitSpine != landscapeSpine
    }

    /** The spines created so far. */
    function Spines(): set<object>
      reads this
    {
      (if portraitSpine != null then {portraitSpine} else {}) +
      (if landscapeSpine != null then {landscapeSpine} else {})
    }

    /** The placement the resolved position rule gives on `screen`. */
    function Target(screen: Viewport): Placement {
      Place(screen, Resolve(layoutConfig.position, screen, common))
    }

    /**
     * The state a completed reposition leaves: only the current orientation's spine is shown,
     * and it (if it exists) sits at the placement of the resolved rule.
     */
    predicate Settled(isPortrait: bool, screen: Viewport)
      reads this, Spines()
    {
      && imageScale == Target(screen).scale
      && (portraitSpine != null ==>
            portraitSpine.visible == isPortrait && (isPortrait ==> PlacedAt(portraitSpine, Target(screen))))
      && (landscapeSpine != null ==>
            landscapeSpine.visible == !isPortrait && (!isPortrait ==> PlacedAt(landscapeSpine, Target(screen))))
    }

    /** The constructor's field setup: hidden, and no spine yet; the load it starts completes in `Init`. */
    constructor (layoutConfig: ElementConfig, common: CommonData)
      ensures this.layoutConfig == layoutConfig && this.common == common
      ensures elementLabel == layoutConfig.elementLabel
      ensures zIndex == ConfiguredZIndex(layoutConfig)
      ensures !visible && !isFreeSpin && imageScale == 1.0 && !isDestroyed
      ensures portraitSpine == null && landscapeSpine == null
      ensures Valid()
    {
      this.layoutConfig := layoutConfig;
      this.common := common;
      elementLabel := layoutConfig.elementLabel;
      zIndex := ConfiguredZIndex(layoutConfig);
      isFreeSpin, imageScale, isDestroyed := false, 1.0, false;
      portraitSpine, landscapeSpine := null, null;
      visible := false;
    }

    /** The snapshot handler: the element is shown iff the current mode's `visibilityState` says so. */
    method OnSnapshot(snapshot: Snapshot)
      modifies this`isFreeSpin, this`visible
      ensures isFreeSpin == snapshot.context.isFreeSpin
      ensures visible == VisibleInMode(layoutConfig.visibilityState, snapshot.context.isFreeSpin)
    {
      isFreeSpin := snapshot.context.isFreeSpin;
      visible := VisibleInMode(layoutConfig.visibilityState, isFreeSpin);
    }

    /**
     * `loadSpine`: returns at once without a source; rethrows a failed load (`threw`); otherwise
     * fills the current orientation's slot if it is empty, with a fresh spine when creation
     * succeeds (`created`) and with nothing when it fails.
     */
    method LoadSpine(isPortrait: bool, hasSource: bool, loadOk: bool, created: bool) returns (threw: bool)
      requires Valid()
      modifies this`portraitSpine, this`landscapeSpine
      ensures Valid()
      ensures fresh(Spines() - old(Spines()))
      ensures threw <==> hasSource && !loadOk
      ensures !(hasSource && loadOk) ==>
        portraitSpine == old(portraitSpine) && landscapeSpine == old(landscapeSpine)
      ensures old(portraitSpine) != null || !isPortrait ==> portraitSpine == old(portraitSpine)
      ensures old(landscapeSpine) != null || isPortrait ==> landscapeSpine == old(landscapeSpine)
      ensures hasSource && loadOk && isPortrait && old(portraitSpine) == null ==>
        (portraitSpine != null <==> created) &&
        (portraitSpine != null ==> fresh(portraitSpine) && PoseOf(portraitSpine) == SpinePose(true, 1.0, 0.0, 0.0))
      ensures hasSource && loadOk && !isPortrait && old(landscapeSpine) == null ==>
        (landscapeSpine != null <==> created) &&
        (landscapeSpine != null ==> fresh(landscapeSpine) && PoseOf(landscapeSpine) == SpinePose(true, 1.0, 0.0, 0.0))
    {
      threw := false;
      if !hasSource {
        return;
      }
      if !loadOk {
        threw := true;
        return;
      }
      if isPortrait && portraitSpine == null {
        if created {
          portraitSpine := new Spine();
        }
      }
      if !isPortrait && landscapeSpine == null {
        if created {
          landscapeSpine := new Spine();
        }
      }
    }

    /** `updateSpineVisibility`: the portrait spine shows iff portrait, the landscape one iff not. */
    method UpdateSpineVisibility(isPortrait: bool)
      requires Valid()
      modifies Spines()
      ensures portraitSpine != null ==> PoseOf(portraitSpine) == old(PoseOf(portraitSpine)).(visible := isPortrait)
      ensures landscapeSpine != null ==> PoseOf(landscapeSpine) == old(PoseOf(landscapeSpine)).(visible := !isPortrait)
    {
      if portraitSpine != null {
        portraitSpine.visible := isPortrait;
      }
      if landscapeSpine != null {
        landscapeSpine.visible := !isPortrait;
      }
    }

    /**
     * `updateSpinePosition`: `imageScale` is always recomputed; only the current orientation's
     * spine, and only if it exists, is moved and scaled; its visibility and the other spine stay.
     */
    method UpdateSpinePosition(isPortrait: bool, screen: Viewport)
      requires Valid()
      modifies this`imageScale, Spines()
      ensures imageScale == Target(screen).scale
      ensures portraitSpine != null ==>
        if isPortrait then PlacedAt(portraitSpine, Target(screen)) && portraitSpine.visible == old(portraitSpine.visible)
        else PoseOf(portraitSpine) == old(PoseOf(portraitSpine))
      ensures landscapeSpine != null ==>
        if !isPortrait then PlacedAt(landscapeSpine, Target(screen)) && landscapeSpine.visible == old(landscapeSpine.visible)
        else PoseOf(landscapeSpine) == old(PoseOf(landscapeSpine))
    {
      var p := Target(screen);
      imageScale := p.scale;
      if isPortrait && portraitSpine != null {
        portraitSpine.scale := imageScale;
        portraitSpine.x := p.x;
        portraitSpine.y := p.y;
      } else if !isPortrait && landscapeSpine != null {
        landscapeSpine.scale := imageScale;
        landscapeSpine.x := p.x;
        landscapeSpine.y := p.y;
      }
    }

    /**
     * `initSpine`: load, then (unless the load threw, whose error is caught and logged here)
     * show and place the current orientation's spine.
     */
    method InitSpine(isPortrait: bool, hasSource: bool, loadOk: bool, created: bool, screen: Viewport)
      requires Valid()
      modifies this`portraitSpine, this`landscapeSpine, this`imageScale, Spines()
      ensures Valid()
      ensures fresh(Spines() - old(Spines()))
      ensures hasSource && loadOk && created ==>
        (isPortrait ==> portraitSpine != null) && (!isPortrait ==> landscapeSpine != null)
      ensures old(portraitSpine) != null || !isPortrait ==> portraitSpine == old(portraitSpine)
      ensures old(landscapeSpine) != null || isPortrait ==> landscapeSpine == old(landscapeSpine)
      ensures (!hasSource || loadOk) && !isDestroyed ==> Settled(isPortrait, screen)
      ensures hasSource && !loadOk ==>
        && portraitSpine == old(portraitSpine) && landscapeSpine == old(landscapeSpine)
        && imageScale == old(imageScale)
        && (portraitSpine != null ==> PoseOf(portraitSpine) == old(PoseOf(portraitSpine)))
        && (landscapeSpine != null ==> PoseOf(landscapeSpine) == old(PoseOf(landscapeSpine)))
    {
      var threw := LoadSpine(isPortrait, hasSource, loadOk, created);
      if !threw && !isDestroyed {
        UpdateSpineVisibility(isPortrait);
        UpdateSpinePosition(isPortrait, screen);
      }
    }

    /**
     * `init`: the load record is sent once `initSpine` has settled, whether or not it failed;
     * `snapshot` is the actor state read at that moment.
     */
    method Init(snapshot: Snapshot, isPortrait: bool, hasSource: bool, loadOk: bool, created: bool, screen: Viewport)
      returns (event: MachineEvent)
      requires Valid()
      modifies this`portraitSpine, this`landscapeSpine, this`imageScale, Spines()
      ensures Valid()
      ensures fresh(Spines() - old(Spines()))
      ensures event == LoadedEvent(snapshot, layoutConfig.elementLabel)
      ensures hasSource && loadOk && created ==>
        (isPortrait ==> portraitSpine != null) && (!isPortrait ==> landscapeSpine != null)
      ensures old(portraitSpine) != null || !isPortrait ==> portraitSpine == old(portraitSpine)
      ensures old(landscapeSpine) != null || isPortrait ==> landscapeSpine == old(landscapeSpine)
      ensures (!hasSource || loadOk) && !isDestroyed ==> Settled(isPortrait, screen)
      ensures hasSource && !loadOk ==>
        && portraitSpine == old(portraitSpine) && landscapeSpine == old(landscapeSpine)
        && imageScale == old(imageScale)
        && (portraitSpine != null ==> PoseOf(portraitSpine) == old(PoseOf(portraitSpine)))
        && (landscapeSpine != null ==> PoseOf(landscapeSpine) == old(PoseOf(landscapeSpine)))
    {
      InitSpine(isPortrait, hasSource, loadOk, created, screen);
      event := LoadedEvent(snapshot, layoutConfig.elementLabel);
    }

    /**
     * `resize`: `initSpine` for the new orientation, then visibility and position again, so
     * that the element ends settled even when loading failed.
     */
    method Resize(isPortrait: bool, hasSource: bool, loadOk: bool, created: bool, screen: Viewport)
      requires Valid()
      modifies this`portraitSpine, this`landscapeSpine, this`imageScale, Spines()
      ensures Valid()
      ensures fresh(Spines() - old(Spines()))
      ensures hasSource && loadOk && created ==>
        (isPortrait ==> portraitSpine != null) && (!isPortrait ==> landscapeSpine != null)
      ensures old(portraitSpine) != null || !isPortrait ==> portraitSpine == old(portraitSpine)
      ensures old(landscapeSpine) != null || isPortrait ==> landscapeSpine == old(landscapeSpine)
      ensures Settled(isPortrait, screen)
    {
      InitSpine(isPortrait, hasSource, loadOk, created, screen);
      UpdateSpineVisibility(isPortrait);
      UpdateSpinePosition(isPortrait, screen);
    }
  }

  /**
   * Turning the screen back and forth never creates a second spine for an orientation: the
   * portrait spine present after the first portrait resize is the one present at the end.
   */
  method RotateKeepsSpines(layoutConfig: ElementConfig, common: CommonData, portrait: Viewport, landscape: Viewport)
    returns (e: SpineAnimation, firstPortrait: Spine, firstLandscape: Spine)
    ensures e.Valid()
    ensures e.portraitSpine == firstPortrait && e.landscapeSpine == firstLandscape
    ensures firstPortrait != firstLandscape
    ensures e.Settled(false, landscape)
  {
    e := new SpineAnimation(layoutConfig, common);
    e.Resize(true, true, true, true, portrait);
    firstPortrait := e.portraitSpine;
    e.Resize(false, true, true, true, landscape);
    firstLandscape := e.landscapeSpine;
    e.Resize(true, true, true, true, portrait);
    e.Resize(false, true, true, true, landscape);
  }
}
