/** `TetraSprite`: a sprite placed by the four-style resolver, its visibility taken from the rule. */
module TetraSpriteWidget {
  import opened Common
  import opened PositionByStyle
  import opened ElementConfigs

  /** `loadTexture`: a frame of the configured sheet, or the texture file loaded directly. */
  function TextureSource(c: ElementConfig): (t: TextureRef)
    ensures t != NoTexture
    ensures c.useSpriteSheet <==> t.SheetFrame?
  {
    if c.useSpriteSheet then SheetFrame(c.sheet, c.texture) else ImageFile(c.texture)
  }

  /**
   * The texture a sprite ends with identifies the keys it was loaded from, and nothing more:
   * two configs give the same texture exactly when they agree on `useSpriteSheet` and `texture`,
   * and, when a sheet is used, on `sheet` (which is ignored otherwise).
   */
  lemma TextureSourceDeterminesKeys(c1: ElementConfig, c2: ElementConfig)
    ensures TextureSource(c1) == TextureSource(c2) <==>
      && c1.useSpriteSheet == c2.useSpriteSheet && c1.texture == c2.texture
      && (c1.useSpriteSheet ==> c1.sheet == c2.sheet)
  {
  }

  class TetraSprite {
    const layoutConfig: ElementConfig
    const common: CommonData
    var elementLabel: string
    var zIndex: int
    var visible: bool
    var alpha: real
    var imageScale: real
    var scale: real
    var x: real
    var y: real
    var texture: TextureRef

    /**
     * The constructor's field setup: label and alpha copied, zIndex only when truthy, visible
     * only when the config has the key (a sprite is visible by default). The texture load it
     * starts completes later, in `TextureLoaded`.
     */
    constructor (layoutConfig: ElementConfig, common: CommonData)
      ensures this.layoutConfig == layoutConfig && this.common == common
      ensures elementLabel == layoutConfig.elementLabel
      ensures zIndex == ConfiguredZIndex(layoutConfig)
      ensures visible == (if layoutConfig.visible.Some? then layoutConfig.visible.value else true)
      ensures alpha == layoutConfig.alpha
      ensures imageScale == 1.0 && scale == 1.0 && x == 0.0 && y == 0.0 && texture == NoTexture
    {
      this.layoutConfig := layoutConfig;
      this.common := common;
      elementLabel := layoutConfig.elementLabel;
      zIndex := ConfiguredZIndex(layoutConfig);
      visible := if layoutConfig.visible.Some? then layoutConfig.visible.value else true;
      alpha := layoutConfig.alpha;
      imageScale, scale, x, y := 1.0, 1.0, 0.0, 0.0;
      texture := NoTexture;
    }

    /** `updatePosition`: scale, centre offset and visibility from the resolved rule. */
    method UpdatePosition(screen: Viewport)
      modifies this`imageScale, this`scale, this`x, this`y, this`visible
      ensures var r := Resolve(layoutConfig.position, screen, common);
        var p := Place(screen, r);
        && imageScale == p.scale && scale == imageScale
        && x == p.x && y == p.y
        && visible == r.visible
    {
      var r := Resolve(layoutConfig.position, screen, common);
      var p := Place(screen, r);
      imageScale := p.scale;
      scale := imageScale;
      x := p.x;
      y := p.y;
      visible := r.visible;
    }

    /** `init`'s continuation: the texture has loaded, then the sprite is positioned. */
    method TextureLoaded(screen: Viewport)
      modifies this`texture, this`imageScale, this`scale, this`x, this`y, this`visible
      ensures texture == TextureSource(layoutConfig)
      ensures var r := Resolve(layoutConfig.position, screen, common);
        var p := Place(screen, r);
        imageScale == p.scale && scale == imageScale && x == p.x && y == p.y && visible == r.visible
    {
      texture := TextureSource(layoutConfig);
      UpdatePosition(screen);
    }
  }
}
