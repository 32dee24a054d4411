/**
 * `TetraButton`: a sprite placed by the four-style resolver that never changes its own
 * visibility, showing a low-resolution frame first and a high-resolution one later.
 */
module TetraButtonWidget {
  import opened Common
  import opened PositionByStyle
  import opened Machine
  import opened ElementConfigs

  class TetraButton {
    const layoutConfig: ElementConfig
    const common: CommonData
    var elementLabel: string
    var zIndex: int
    var visible: bool
    var imageScale: real
    var scale: real
    var x: real
    var y: real
    var texture: TextureRef
    /** The high-resolution sheet load has been started and has not completed yet. */
    var highSheetPending: bool

    /** Label copied, zIndex only when truthy; the texture shift it starts completes later. */
    constructor (layoutConfig: ElementConfig, common: CommonData)
      ensures this.layoutConfig == layoutConfig && this.common == common
      ensures elementLabel == layoutConfig.elementLabel
      ensures zIndex == ConfiguredZIndex(layoutConfig)
      ensures visible
      ensures imageScale == 1.0 && scale == 1.0 && x == 0.0 && y == 0.0
      ensures texture == NoTexture && !highSheetPending
    {
      this.layoutConfig := layoutConfig;
      this.common := common;
      elementLabel := layoutConfig.elementLabel;
      zIndex := ConfiguredZIndex(layoutConfig);
      visible := true;
      imageScale, scale, x, y := 1.0, 1.0, 0.0, 0.0;
      texture := NoTexture;
      highSheetPending := false;
    }

    /** `updatePosition`: scale and centre offset from the resolved rule; `visible` is not touched. */
    method UpdatePosition(screen: Viewport)
      modifies this`imageScale, this`scale, this`x, this`y
      ensures var p := Place(screen, Resolve(layoutConfig.position, screen, common));
        imageScale == p.scale && scale == imageScale && x == p.x && y == p.y
    {
      var p := Place(screen, Resolve(layoutConfig.position, screen, common));
      imageScale := p.scale;
      scale := imageScale;
      x := p.x;
      y := p.y;
    }

    /**
     * `handleHighLowShift` once the low sheet has loaded: without a `spriteSheet` nothing happens;
     * with one, the low frame is shown, then the load record is sent (from `snapshot`, the state
     * read at that moment), and the high sheet load starts.
     */
    method HandleHighLowShift(snapshot: Snapshot) returns (effects: seq<Effect>)
      modifies this`texture, this`highSheetPending
      ensures layoutConfig.spriteSheet.None? ==>
        effects == [] && texture == old(texture) && highSheetPending == old(highSheetPending)
      ensures layoutConfig.spriteSheet.Some? ==>
        var low := layoutConfig.spriteSheet.value.low;
        && texture == SheetFrame(low.sheetName, low.texture)
        && effects == [TextureSet(texture), Sent(LoadedEvent(snapshot, layoutConfig.elementLabel))]
        && highSheetPending
    {
      effects := [];
      if layoutConfig.spriteSheet.Some? {
        var low := layoutConfig.spriteSheet.value.low;
        texture := SheetFrame(low.sheetName, low.texture);
        effects := effects + [TextureSet(texture)];
        effects := effects + [Sent(LoadedEvent(snapshot, layoutConfig.elementLabel))];
        highSheetPending := true;
      }
    }

    /** The high sheet has loaded: its frame replaces the low one. */
    method HighSheetLoaded()
      modifies this`texture, this`highSheetPending
      ensures !old(highSheetPending) ==> texture == old(texture) && !highSheetPending
      ensures old(highSheetPending) && layoutConfig.spriteSheet.Some? ==>
        var high := layoutConfig.spriteSheet.value.high;
        texture == SheetFrame(high.sheetName, high.texture) && !highSheetPending
    {
      if highSheetPending {
        if layoutConfig.spriteSheet.Some? {
          var high := layoutConfig.spriteSheet.value.high;
          texture := SheetFrame(high.sheetName, high.texture);
        }
        highSheetPending := false;
      }
    }

    /** `init`: the texture shift, then a reposition. */
    method Init(snapshot: Snapshot, screen: Viewport) returns (effects: seq<Effect>)
      modifies this`texture, this`highSheetPending, this`imageScale, this`scale, this`x, this`y
      ensures layoutConfig.spriteSheet.None? ==>
        effects == [Repositioned] && texture == old(texture) && highSheetPending == old(highSheetPending)
      ensures layoutConfig.spriteSheet.Some? ==>
        var low := layoutConfig.spriteSheet.value.low;
        && texture == SheetFrame(low.sheetName, low.texture)
        && effects == [TextureSet(texture), Sent(LoadedEvent(snapshot, layoutConfig.elementLabel)), Repositioned]
        && highSheetPending
      ensures var p := Place(screen, Resolve(layoutConfig.position, screen, common));
        imageScale == p.scale && scale == imageScale && x == p.x && y == p.y
    {
      effects := HandleHighLowShift(snapshot);
      UpdatePosition(screen);
      effects := effects + [Repositioned];
    }
  }
}
