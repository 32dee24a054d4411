/**
 * `Mockup`: a sprite placed by the four-style resolver and shown only when both the game mode
 * (from the actor's snapshot) and the position rule say so.
 */
module MockupWidget {
  import opened Common
  import opened PositionByStyle
  import opened Machine
  import opened ElementConfigs

  class Mockup {
    const layoutConfig: ElementConfig
    const common: CommonData
    var elementLabel: string
    var zIndex: int
    var alpha: real
    var visible: bool
    var isVisible: bool
    var isFreeSpin: bool
    var imageScale: real
    var scale: real
    var x: real
    var y: real
    var texture: TextureRef

    /** Label and alpha copied, zIndex only when truthy; hidden by mode until a snapshot arrives. */
    constructor (layoutConfig: ElementConfig, common: CommonData)
      ensures this.layoutConfig == layoutConfig && this.common == common
      ensures elementLabel == layoutConfig.elementLabel
      ensures zIndex == ConfiguredZIndex(layoutConfig)
      ensures alpha == layoutConfig.alpha
      ensures visible && !isVisible && !isFreeSpin
      ensures imageScale == 1.0 && scale == 1.0 && x == 0.0 && y == 0.0 && texture == NoTexture
    {
      this.layoutConfig := layoutConfig;
      this.common := common;
      elementLabel := layoutConfig.elementLabel;
      zIndex := ConfiguredZIndex(layoutConfig);
      alpha := layoutConfig.alpha;
      visible, isVisible, isFreeSpin := true, false, false;
      imageScale, scale, x, y := 1.0, 1.0, 0.0, 0.0;
      texture := NoTexture;
    }

    /** `updatePosition`: placement from the resolved rule; shown iff the mode and the rule agree on shown. */
    method UpdatePosition(screen: Viewport)
      modifies this`imageScale, this`scale, this`x, this`y, this`visible
      ensures var r := Resolve(layoutConfig.position, screen, common);
        var p := Place(screen, r);
        && imageScale == p.scale && scale == imageScale && x == p.x && y == p.y
        && visible == (isVisible && r.visible)
    {
      var r := Resolve(layoutConfig.position, screen, common);
      var p := Place(screen, r);
      imageScale := p.scale;
      scale := imageScale;
      x := p.x;
      y := p.y;
      visible := CombinedVisibility(isVisible, r.visible);
    }

    /** The snapshot handler: the mode picks `isVisible`, then every snapshot repositions. */
    method OnSnapshot(snapshot: Snapshot, screen: Viewport)
      modifies this`isFreeSpin, this`isVisible, this`imageScale, this`scale, this`x, this`y, this`visible
      ensures isFreeSpin == snapshot.context.isFreeSpin
      ensures isVisible == VisibleInMode(layoutConfig.visibilityState, snapshot.context.isFreeSpin)
      ensures var r := Resolve(layoutConfig.position, screen, common);
        var p := Place(screen, r);
        && imageScale == p.scale && scale == imageScale && x == p.x && y == p.y
        && visible == (isVisible && r.visible)
    {
      isFreeSpin := snapshot.context.isFreeSpin;
      isVisible := VisibleInMode(layoutConfig.visibilityState, snapshot.context.isFreeSpin);
      UpdatePosition(screen);
    }

    /** `init`'s continuation: the texture has loaded, then the sprite is positioned. */
    method TextureLoaded(screen: Viewport)
      modifies this`texture, this`imageScale, this`scale, this`x, this`y, this`visible
      ensures texture == ImageFile(layoutConfig.texture)
      ensures var r := Resolve(layoutConfig.position, screen, common);
        var p := Place(screen, r);
        imageScale == p.scale && scale == imageScale && x == p.x && y == p.y && visible == (isVisible && r.visible)
    {
      texture := ImageFile(layoutConfig.texture);
      UpdatePosition(screen);
    }
  }
}
