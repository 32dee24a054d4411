/**
 * `BackgroundSprite`: a mode-dependent background placed by the four-style resolver, which
 * reports itself loaded once its texture is in place and it has been positioned.
 */
module BackgroundSpriteWidget {
  import opened Common
  import opened PositionByStyle
  import opened Machine
  import opened ElementConfigs

  class BackgroundSprite {
    const layoutConfig: ElementConfig
    const common: CommonData
    var elementLabel: string
    var visible: bool
    var isVisible: bool
    var isFreeSpin: bool
    var imageScale: real
    var scale: real
    var x: real
    var y: real
    var texture: TextureRef

    constructor (layoutConfig: ElementConfig, common: CommonData)
      ensures this.layoutConfig == layoutConfig && this.common == common
      ensures elementLabel == layoutConfig.elementLabel
      ensures visible && !isVisible && !isFreeSpin
      ensures imageScale == 1.0 && scale == 1.0 && x == 0.0 && y == 0.0 && texture == NoTexture
    {
      this.layoutConfig := layoutConfig;
      this.common := common;
      elementLabel := layoutConfig.elementLabel;
      visible, isVisible, isFreeSpin := true, false, false;
      imageScale, scale, x, y := 1.0, 1.0, 0.0, 0.0;
      texture := NoTexture;
    }

    /** `updatePosition`: placement from the resolved rule; shown iff the mode and the rule agree on shown. */
    method UpdatePosition(screen: Viewport)
      modifies this`imageScale, this`scale, this`x, this`y, this`visible
      ensures var r := Resolve(layoutConfig.position, screen, common);
        var p := Place(screen, r);
        && imageScale == p.scale && scale == imageScale && x == p.x && y == p.y
        && visible == (isVisible && r.visible)
    {
      var r := Resolve(layoutConfig.position, screen, common);
      var p := Place(screen, r);
      imageScale := p.scale;
      scale := imageScale;
      x := p.x;
      y := p.y;
      visible := CombinedVisibility(isVisible, r.visible);
    }

    /** The snapshot handler: the mode picks `isVisible`, then every snapshot repositions. */
    method OnSnapshot(snapshot: Snapshot, screen: Viewport)
      modifies this`isFreeSpin, this`isVisible, this`imageScale, this`scale, this`x, this`y, this`visible
      ensures isFreeSpin == snapshot.context.isFreeSpin
      ensures isVisible == VisibleInMode(layoutConfig.visibilityState, snapshot.context.isFreeSpin)
      ensures var r := Resolve(layoutConfig.position, screen, common);
        var p := Place(screen, r);
        && imageScale == p.scale && scale == imageScale && x == p.x && y == p.y
        && visible == (isVisible && r.visible)
    {
      isFreeSpin := snapshot.context.isFreeSpin;
      isVisible := VisibleInMode(layoutConfig.visibilityState, snapshot.context.isFreeSpin);
      UpdatePosition(screen);
    }

    /**
     * `init`'s continuation: the texture is set, the sprite positioned, and only then the load
     * record sent, built from `snapshot`, the state read at that moment.
     */
    method TextureLoaded(snapshot: Snapshot, screen: Viewport) returns (effects: seq<Effect>)
      modifies this`texture, this`imageScale, this`scale, this`x, this`y, this`visible
      ensures texture == ImageFile(layoutConfig.texture)
      ensures effects == [TextureSet(texture), Repositioned, Sent(LoadedEvent(snapshot, layoutConfig.elementLabel))]
      ensures var r := Resolve(layoutConfig.position, screen, common);
        var p := Place(screen, r);
        imageScale == p.scale && scale == imageScale && x == p.x && y == p.y && visible == (isVisible && r.visible)
    {
      texture := ImageFile(layoutConfig.texture);
      effects := [TextureSet(texture)];
      UpdatePosition(screen);
      effects := effects + [Repositioned];
      effects := effects + [Sent(LoadedEvent(snapshot, layoutConfig.elementLabel))];
    }
  }
}
