/**
 * The per-element `layoutConfig` record the widgets read, and the small decisions several
 * widgets share: the config's zIndex, the per-mode visibility, and the effects a widget produces.
 */
module ElementConfigs {
  import opened Common
  import opened PositionByStyle
  import opened Machine

  /** `visibilityState`: whether the element shows in normal-spin and in free-spin mode. */
  datatype VisibilityState = VisibilityState(normalSpin: bool, freeSpin: bool)

  /** One resolution of a button's textures: the sheet and the normal and free-spin frames. */
  datatype SheetTextures = SheetTextures(sheetName: string, texture: string, freeTexture: string)

  /** `spriteSheet`: a low-resolution set shown first, a high-resolution set swapped in later. */
  datatype HighLowSheets = HighLowSheets(low: SheetTextures, high: SheetTextures)

  /** What a sprite shows: nothing yet, a frame of a loaded sheet, or a directly loaded image. */
  datatype TextureRef = NoTexture | SheetFrame(sheet: string, frame: string) | ImageFile(path: string)

  /** The keys of an element's `layoutConfig` that the modelled widgets read. */
  datatype ElementConfig = ElementConfig(
    elementLabel: string,
    position: PositionTable,
    zIndex: Option<int>,
    alpha: real,
    visible: Option<bool>,
    scale: Option<real>,
    visibilityState: VisibilityState,
    shouldWaitForParentWidthOrHeight: bool,
    useSpriteSheet: bool,
    sheet: string,
    texture: string,
    spriteSheet: Option<HighLowSheets>,
    needFreeTextureWhenHighLowShift: bool)

  /** A display object's zIndex before anything sets it. */
  const DefaultZIndex: int := 0

  /**
   * `if (layoutConfig?.zIndex) this.zIndex = layoutConfig.zIndex`: only a truthy value is applied.
   * Because the default is itself zero, skipping a zero key changes nothing: the result is simply
   * the key when present and the default otherwise.
   */
  function ConfiguredZIndex(c: ElementConfig): (z: int)
    ensures z == c.zIndex.GetOr(DefaultZIndex)
  {
    if TruthyInt(c.zIndex) then c.zIndex.value else DefaultZIndex
  }

  /** `context.isFreeSpin ? visibilityState[FreeSpin] : visibilityState[NormalSpin]`. */
  function VisibleInMode(vs: VisibilityState, isFreeSpin: bool): bool {
    if isFreeSpin then vs.freeSpin else vs.normalSpin
  }

  /**
   * `this.isVisible === visible ? visible : false`, the visibility Mockup and BackgroundSprite
   * apply: shown only when both the mode and the position rule say so.
   */
  function CombinedVisibility(isVisible: bool, ruleVisible: bool): (shown: bool)
    ensures shown <==> isVisible && ruleVisible
  {
    if isVisible == ruleVisible then ruleVisible else false
  }

  /** The observable steps of an asynchronous continuation, in the order they happen. */
  datatype Effect = TextureSet(texture: TextureRef) | Repositioned | Sent(event: MachineEvent)
}
