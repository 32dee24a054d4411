/**
 * `Button`: a sprite whose geometry comes from a per-button position record, with low- and
 * high-resolution textures that follow the free-spin mode, and a one-time reposition once the
 * machine first reaches an idle state. The position record is computed outside this file and
 * arrives as a parameter.
 */
module ButtonWidget {
  import opened Common
  import opened Machine
  import opened ElementConfigs

  /** `getPosition`'s result: each key may be absent. */
  datatype ButtonPosition = ButtonPosition(
    x: Option<real>,
    y: Option<real>,
    width: Option<real>,
    height: Option<real>,
    scale: Option<real>)

  /**
   * The frame of `sheet` a button shows: the free-spin frame iff in free spin and the config asks
   * for it. Whatever the flags, the result is one of the sheet's own two frames, and a sheet whose
   * two frames coincide looks the same in both modes.
   */
  function ChosenFrame(sheet: SheetTextures, isFreeSpin: bool, needFree: bool): (t: TextureRef)
    ensures t.SheetFrame? && t.sheet == sheet.sheetName && t.frame in {sheet.texture, sheet.freeTexture}
    ensures sheet.freeTexture == sheet.texture ==> t == SheetFrame(sheet.sheetName, sheet.texture)
  {
    SheetFrame(sheet.sheetName, if isFreeSpin && needFree then sheet.freeTexture else sheet.texture)
  }

  /**
   * The free frame is chosen exactly when both flags hold, and the normal frame exactly when
   * they do not, provided the sheet's two frames differ.
   */
  lemma ChosenFrameIsFreeIff(sheet: SheetTextures, isFreeSpin: bool, needFree: bool)
    requires sheet.freeTexture != sheet.texture
    ensures ChosenFrame(sheet, isFreeSpin, needFree).frame == sheet.freeTexture <==> isFreeSpin && needFree
    ensures ChosenFrame(sheet, isFreeSpin, needFree).frame == sheet.texture <==> !(isFreeSpin && needFree)
  {
  }

  class Button {
    const layoutConfig: ElementConfig
    /** A display object's label is null until something sets it. */
    var elementLabel: Option<string>
    var isFreeSpin: bool
    var hasBeenInitialized: bool
    /** Initial-reposition timers scheduled and not fired yet. */
    var pendingInitTimers: nat
    var scale: real
    var width: real
    var height: real
    var x: real
    var y: real
    var texture: TextureRef
    /** The high-resolution sheet load has been started and has not completed yet. */
    var highSheetPending: bool

    /**
     * The constructor's field setup: the label is applied only when non-empty. `width` and
     * `height` start at the given texture-less sprite size.
     */
    constructor (layoutConfig: ElementConfig, width: real, height: real)
      ensures this.layoutConfig == layoutConfig
      ensures layoutConfig.elementLabel != [] ==> elementLabel == Some(layoutConfig.elementLabel)
      ensures layoutConfig.elementLabel == [] ==> elementLabel == None
      ensures !isFreeSpin && !hasBeenInitialized && pendingInitTimers == 0
      ensures scale == 1.0 && this.width == width && this.height == height && x == 0.0 && y == 0.0
      ensures texture == NoTexture && !highSheetPending
    {
      this.layoutConfig := layoutConfig;
      elementLabel := if layoutConfig.elementLabel != [] then Some(layoutConfig.elementLabel) else None;
      isFreeSpin, hasBeenInitialized, pendingInitTimers := false, false, 0;
      scale, this.width, this.height, x, y := 1.0, width, height, 0.0, 0.0;
      texture := NoTexture;
      highSheetPending := false;
    }

    /**
     * `updatePosition`: scale, width and height are written only when truthy (absent or zero
     * leaves them), x and y whenever present (zero included); nothing else changes.
     */
    method UpdatePosition(pos: ButtonPosition)
      modifies this`scale, this`width, this`height, this`x, this`y
      ensures scale == (if TruthyReal(pos.scale) then pos.scale.value else old(scale))
      ensures width == (if TruthyReal(pos.width) then pos.width.value else old(width))
      ensures height == (if TruthyReal(pos.height) then pos.height.value else old(height))
      ensures x == pos.x.GetOr(old(x)) && y == pos.y.GetOr(old(y))
    {
      if TruthyReal(pos.scale) {
        scale := pos.scale.value;
      }
      if TruthyReal(pos.width) {
        width := pos.width.value;
      }
      if TruthyReal(pos.height) {
        height := pos.height.value;
      }
      if pos.x.Some? {
        x := pos.x.value;
      }
      if pos.y.Some? {
        y := pos.y.value;
      }
    }

    /**
     * The snapshot handler: `isFreeSpin` follows the context, and an idle status before the
     * first initialisation schedules one more reposition timer.
     */
    method OnSnapshot(snapshot: Snapshot)
      modifies this`isFreeSpin, this`pendingInitTimers
      ensures isFreeSpin == snapshot.context.isFreeSpin
      ensures (snapshot.status == Idle || snapshot.status == FreeSpinIdle) && !hasBeenInitialized ==>
        pendingInitTimers == old(pendingInitTimers) + 1
      ensures !((snapshot.status == Idle || snapshot.status == FreeSpinIdle) && !hasBeenInitialized) ==>
        pendingInitTimers == old(pendingInitTimers)
    {
      isFreeSpin := snapshot.context.isFreeSpin;
      match snapshot.status {
        case Idle =>
          if !hasBeenInitialized {
            pendingInitTimers := pendingInitTimers + 1;
          }
        case FreeSpinIdle =>
          if !hasBeenInitialized {
            pendingInitTimers := pendingInitTimers + 1;
          }
        case _ =>
      }
    }

    /** One initial-reposition timer fires: the button is repositioned and marked initialised. */
    method FireInitTimer(pos: ButtonPosition)
      modifies this`pendingInitTimers, this`hasBeenInitialized, this`scale, this`width, this`height, this`x, this`y
      ensures old(pendingInitTimers) == 0 ==>
        pendingInitTimers == 0 && hasBeenInitialized == old(hasBeenInitialized)
        && scale == old(scale) && width == old(width) && height == old(height) && x == old(x) && y == old(y)
      ensures old(pendingInitTimers) > 0 ==>
        && pendingInitTimers == old(pendingInitTimers) - 1 && hasBeenInitialized
        && x == pos.x.GetOr(old(x)) && y == pos.y.GetOr(old(y))
        && scale == (if TruthyReal(pos.scale) then pos.scale.value else old(scale))
        && width == (if TruthyReal(pos.width) then pos.width.value else old(width))
        && height == (if TruthyReal(pos.height) then pos.height.value else old(height))
    {
      if pendingInitTimers > 0 {
        UpdatePosition(pos);
        hasBeenInitialized := true;
        pendingInitTimers := pendingInitTimers - 1;
      }
    }

    /**
     * `handleHighLowShift` once the low sheet has loaded: without a `spriteSheet` nothing
     * happens; with one, the mode's low frame is shown, then the load record is sent (from
     * `snapshot`, the state read at that moment), and the high sheet load starts.
     */
    method HandleHighLowShift(snapshot: Snapshot) returns (effects: seq<Effect>)
      modifies this`texture, this`highSheetPending
      ensures layoutConfig.spriteSheet.None? ==>
        effects == [] && texture == old(texture) && highSheetPending == old(highSheetPending)
      ensures layoutConfig.spriteSheet.Some? ==>
        && texture == ChosenFrame(layoutConfig.spriteSheet.value.low, isFreeSpin, layoutConfig.needFreeTextureWhenHighLowShift)
        && effects == [TextureSet(texture), Sent(LoadedEvent(snapshot, layoutConfig.elementLabel))]
        && highSheetPending
    {
      effects := [];
      if layoutConfig.spriteSheet.Some? {
        texture := ChosenFrame(layoutConfig.spriteSheet.value.low, isFreeSpin, layoutConfig.needFreeTextureWhenHighLowShift);
        effects := effects + [TextureSet(texture)];
        effects := effects + [Sent(LoadedEvent(snapshot, layoutConfig.elementLabel))];
        highSheetPending := true;
      }
    }

    /** The high sheet has loaded: its frame for the mode current at that moment replaces the low one. */
    method HighSheetLoaded()
      modifies this`texture, this`highSheetPending
      ensures !old(highSheetPending) ==> texture == old(texture) && !highSheetPending
      ensures old(highSheetPending) && layoutConfig.spriteSheet.Some? ==>
        texture == ChosenFrame(layoutConfig.spriteSheet.value.high, isFreeSpin, layoutConfig.needFreeTextureWhenHighLowShift)
        && !highSheetPending
    {
      if highSheetPending {
        if layoutConfig.spriteSheet.Some? {
          texture := ChosenFrame(layoutConfig.spriteSheet.value.high, isFreeSpin, layoutConfig.needFreeTextureWhenHighLowShift);
        }
        highSheetPending := false;
      }
    }

    /** `init`: the texture shift, then a reposition. */
    method Init(snapshot: Snapshot, pos: ButtonPosition) returns (effects: seq<Effect>)
      modifies this`texture, this`highSheetPending, this`scale, this`width, this`height, this`x, this`y
      ensures layoutConfig.spriteSheet.None? ==>
        effects == [Repositioned] && texture == old(texture) && highSheetPending == old(highSheetPending)
      ensures layoutConfig.spriteSheet.Some? ==>
        && texture == ChosenFrame(layoutConfig.spriteSheet.value.low, isFreeSpin, layoutConfig.needFreeTextureWhenHighLowShift)
        && effects == [TextureSet(texture), Sent(LoadedEvent(snapshot, layoutConfig.elementLabel)), Repositioned]
        && highSheetPending
      ensures scale == (if TruthyReal(pos.scale) then pos.scale.value else old(scale))
      ensures width == (if TruthyReal(pos.width) then pos.width.value else old(width))
      ensures height == (if TruthyReal(pos.height) then pos.height.value else old(height))
      ensures x == pos.x.GetOr(old(x)) && y == pos.y.GetOr(old(y))
    {
      effects := HandleHighLowShift(snapshot);
      UpdatePosition(pos);
      effects := effects + [Repositioned];
    }
  }

  /**
   * The `hasBeenInitialized` guard is read when a snapshot arrives, not when the timer fires:
   * two idle snapshots before the first timer fires schedule two repositions.
   */
  method TwoIdleSnapshotsScheduleTwoTimers(layoutConfig: ElementConfig, s: Snapshot, pos: ButtonPosition)
    returns (b: Button)
    requires s.status == Idle
    ensures b.pendingInitTimers == 1 && b.hasBeenInitialized
  {
    b := new Button(layoutConfig, 0.0, 0.0);
    b.OnSnapshot(s);
    b.OnSnapshot(s);
    assert b.pendingInitTimers == 2;
    b.FireInitTimer(pos);
    b.OnSnapshot(s);
  }
}
