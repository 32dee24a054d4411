/** `TetraAnimateSprite`: a swaying sprite placed by the four-style resolver, hidden from the start. */
module TetraAnimateSpriteWidget {
  import opened Common
  import opened PositionByStyle
  import opened ElementConfigs

  class TetraAnimateSprite {
    const layoutConfig: ElementConfig
    const common: CommonData
    var elementLabel: string
    var zIndex: int
    var alpha: real
    var visible: bool
    var imageScale: real
    var scale: real
    var x: real
    var y: real
    var texture: TextureRef

    /** Label and alpha copied, zIndex only when truthy, and hidden. */
    constructor (layoutConfig: ElementConfig, common: CommonData)
      ensures this.layoutConfig == layoutConfig && this.common == common
      ensures elementLabel == layoutConfig.elementLabel
      ensures zIndex == ConfiguredZIndex(layoutConfig)
      ensures alpha == layoutConfig.alpha
      ensures !visible
      ensures imageScale == 1.0 && scale == 1.0 && x == 0.0 && y == 0.0 && texture == NoTexture
    {
      this.layoutConfig := layoutConfig;
      this.common := common;
      elementLabel := layoutConfig.elementLabel;
      zIndex := ConfiguredZIndex(layoutConfig);
      alpha := layoutConfig.alpha;
      imageScale, scale, x, y := 1.0, 1.0, 0.0, 0.0;
      texture := NoTexture;
      visible := false;
    }

    /** `updatePosition`: scale and centre offset only; `visible` is not touched. */
    method UpdatePosition(screen: Viewport)
      modifies this`imageScale, this`scale, this`x, this`y
      ensures var p := Place(screen, Resolve(layoutConfig.position, screen, common));
        imageScale == p.scale && scale == imageScale && x == p.x && y == p.y
    {
      var p := Place(screen, Resolve(layoutConfig.position, screen, common));
      imageScale := p.scale;
      scale := imageScale;
      x := p.x;
      y := p.y;
    }

    /** `init`'s continuation: the texture has loaded, then the sprite is positioned. */
    method TextureLoaded(screen: Viewport)
      modifies this`texture, this`imageScale, this`scale, this`x, this`y
      ensures texture == ImageFile(layoutConfig.texture)
      ensures var p := Place(screen, Resolve(layoutConfig.position, screen, common));
        imageScale == p.scale && scale == imageScale && x == p.x && y == p.y
    {
      texture := ImageFile(layoutConfig.texture);
      UpdatePosition(screen);
    }
  }

  /** Nothing in the widget shows it: a new sprite is still hidden after its texture loads and a
    later reposition, since neither handler has `visible` in its frame. */
  method StaysHidden(layoutConfig: ElementConfig, common: CommonData, first: Viewport, second: Viewport)
    returns (sprite: TetraAnimateSprite)
    ensures !sprite.visible
  {
    sprite := new TetraAnimateSprite(layoutConfig, common);
    sprite.TextureLoaded(first);
    sprite.UpdatePosition(second);
  }
}
