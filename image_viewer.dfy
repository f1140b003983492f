/**
 * The image viewer (ImageViewer): the fit-to-container scale and the
 * loading of an image into the stage of the rendering application.
 *
 * Rendering, textures and URL handling are not modelled: whether the
 * browser decodes the image is an oracle (`decoded`), and so are the
 * texture's dimensions.  A sprite is the set of transform fields the
 * panels read and write.
 */
module ImageViewer {
  import opened JsText

  /** `calculateFitScale`: 90% of the largest scale at which the image fits the container. */
  function FitScale(imageWidth: real, imageHeight: real, containerWidth: real, containerHeight: real): (s: real)
    requires imageWidth > 0.0 && imageHeight > 0.0
    ensures s * imageWidth <= 0.9 * containerWidth && s * imageHeight <= 0.9 * containerHeight
    ensures s * imageWidth == 0.9 * containerWidth || s * imageHeight == 0.9 * containerHeight
  {
    var scaleX := containerWidth / imageWidth;
    var scaleY := containerHeight / imageHeight;
    assert scaleX * imageWidth == containerWidth;
    assert scaleY * imageHeight == containerHeight;
    if scaleX <= scaleY then
      assert scaleX * imageHeight <= scaleY * imageHeight;
      scaleX * 0.9
    else
      assert scaleY * imageWidth <= scaleX * imageWidth;
      scaleY * 0.9
  }

  /** No larger scale keeps the image inside 90% of the container on both axes. */
  lemma FitScaleIsLargest(iw: real, ih: real, cw: real, ch: real, t: real)
    requires iw > 0.0 && ih > 0.0
    requires t * iw <= 0.9 * cw && t * ih <= 0.9 * ch
    ensures t <= FitScale(iw, ih, cw, ch)
  {
    var s := FitScale(iw, ih, cw, ch);
    if s * iw == 0.9 * cw {
      assert t * iw <= s * iw;
    } else {
      assert t * ih <= s * ih;
    }
  }

  /** A filter on a sprite; only the parameters the panels set are kept. */
  datatype Filter = ColorMatrix(brightness: real, contrast: real) | Blur(strength: real)

  /** The transform fields of a sprite as a value. */
  datatype SpriteView = SpriteView(
    x: real, y: real, rotation: real, scaleX: real, scaleY: real,
    anchor: real, initialScale: real, filters: seq<Filter>)

  class Sprite {
    var x: real
    var y: real
    var rotation: real
    var scaleX: real
    var scaleY: real
    var anchor: real
    var initialScale: real
    /** `filters`; a sprite without filters (`null` in the library) has the empty list. */
    var filters: seq<Filter>

    function View(): SpriteView
      reads this
    {
      SpriteView(x, y, rotation, scaleX, scaleY, anchor, initialScale, filters)
    }

    /** A new sprite: at the origin, unrotated, unscaled, anchored at its corner. */
    constructor ()
      ensures View() == SpriteView(0.0, 0.0, 0.0, 1.0, 1.0, 0.0, 0.0, [])
    {
      x, y, rotation := 0.0, 0.0, 0.0;
      scaleX, scaleY := 1.0, 1.0;
      anchor, initialScale := 0.0, 0.0;
      filters := [];
    }
  }

  /** The rendering application: its screen and the children of its stage. */
  class App {
    const screenWidth: real
    const screenHeight: real
    var stage: seq<Sprite>

    constructor (w: real, h: real)
      ensures screenWidth == w && screenHeight == h && stage == []
    {
      screenWidth, screenHeight := w, h;
      stage := [];
    }
  }

  /** What `loadImage` is given. */
  datatype ImageInput = FileInput(name: string) | BlobInput(size: nat) | UrlInput(url: string) | OtherInput

  /** The view of the sprite a successful load places on the stage. */
  function LoadedView(w: real, h: real, textureWidth: real, textureHeight: real): (v: SpriteView)
    requires textureWidth > 0.0 && textureHeight > 0.0
    ensures v.x == w / 2.0 && v.y == h / 2.0 && v.anchor == 0.5 && v.rotation == 0.0
    ensures v.scaleX == v.scaleY == v.initialScale
    ensures v.scaleX * textureWidth <= 0.9 * w && v.scaleX * textureHeight <= 0.9 * h
  {
    var s := FitScale(textureWidth, textureHeight, w, h);
    SpriteView(w / 2.0, h / 2.0, 0.0, s, s, 0.5, s, [])
  }

  class Viewer {
    var app: App?
    var spriteRef: Sprite?
    var currentImage: Option<ImageInput>

    constructor ()
      ensures app == null && spriteRef == null && currentImage == None
    {
      app, spriteRef, currentImage := null, null, None;
    }

    /**
     * `loadImage(input)`: without an application nothing happens; otherwise
     * the stage is emptied first, then an input that is not a file, blob or
     * string, or an image the browser cannot decode, ends the load with an
     * empty stage; a decoded image becomes the only child of the stage,
     * centred at the fit scale, and is remembered as the current image.
     * The load runs here to its end in one step; loads that overlap across
     * its awaits are modelled by `LoadRun`.
     */
    method LoadImage(input: ImageInput, decoded: bool, textureWidth: real, textureHeight: real) returns (sprite: Sprite?)
      requires textureWidth > 0.0 && textureHeight > 0.0
      modifies this`spriteRef, this`currentImage, app
      ensures old(app) == null ==> sprite == null && spriteRef == old(spriteRef) && currentImage == old(currentImage)
      ensures app != null && (input.OtherInput? || !decoded) ==>
        sprite == null && app.stage == [] && spriteRef == old(spriteRef) && currentImage == old(currentImage)
      ensures app != null && !input.OtherInput? && decoded ==>
        sprite != null && fresh(sprite) && app.stage == [sprite] && spriteRef == sprite &&
        currentImage == Some(input) &&
        sprite.View() == LoadedView(app.screenWidth, app.screenHeight, textureWidth, textureHeight)
    {
      if app == null {
        return null;
      }
      app.stage := [];
      if input.OtherInput? || !decoded {
        return null;
      }
      var initialScale := FitScale(textureWidth, textureHeight, app.screenWidth, app.screenHeight);
      sprite := new Sprite();
      sprite.scaleX, sprite.scaleY := initialScale, initialScale;
      sprite.x := app.screenWidth / 2.0;
      sprite.y := app.screenHeight / 2.0;
      sprite.anchor := 0.5;
      sprite.initialScale := initialScale;
      app.stage := app.stage + [sprite];
      spriteRef := sprite;
      currentImage := Some(input);
    }
  }
  // ----- overlapping loads -----

  /**
   * `loadImage` split at its awaits, for a viewer whose application exists:
   * `LoadStarts` runs up to the first await, emptying the stage, and a
   * load whose input is not a file, blob or string ends there;
   * `LoadSettles` is the continuation of one waiting load, which adds its
   * sprite when the image decoded.
   */
  datatype LoadEvent = LoadStarts(validInput: bool) | LoadSettles(decoded: bool)

  /** The number of sprites on the stage, and how many loads wait at an await. */
  datatype StageState = StageState(children: nat, loading: nat)

  function LoadStep(s: StageState, e: LoadEvent): StageState {
    match e
    case LoadStarts(valid) => StageState(0, if valid then s.loading + 1 else s.loading)
    case LoadSettles(decoded) =>
      if s.loading == 0 then s
      else StageState(if decoded then s.children + 1 else s.children, s.loading - 1)
  }

  function LoadRun(s: StageState, es: seq<LoadEvent>): StageState
    decreases |es|
  {
    if es == [] then s else LoadRun(LoadStep(s, es[0]), es[1..])
  }

  /** Each load runs to its end before the next one starts. */
  function SerialLoads(loads: seq<(bool, bool)>): (es: seq<LoadEvent>)
    ensures |es| == 2 * |loads|
  {
    if loads == [] then [] else [LoadStarts(loads[0].0), LoadSettles(loads[0].1)] + SerialLoads(loads[1..])
  }

  /** Loads that do not overlap leave only the last one's sprite, as `Viewer.LoadImage` promises. */
  lemma {:induction false} SerialLoadsLeaveTheLast(s: StageState, loads: seq<(bool, bool)>)
    requires s.loading == 0 && loads != []
    ensures var last := loads[|loads| - 1];
      LoadRun(s, SerialLoads(loads)) == StageState(if last.0 && last.1 then 1 else 0, 0)
    decreases |loads|
  {
    var es := SerialLoads(loads);
    assert es[1..][1..] == SerialLoads(loads[1..]);
    var t := LoadStep(LoadStep(s, es[0]), es[1..][0]);
    assert t == StageState(if loads[0].0 && loads[0].1 then 1 else 0, 0);
    assert LoadRun(s, es) == LoadRun(t, SerialLoads(loads[1..]));
    if |loads| > 1 {
      SerialLoadsLeaveTheLast(t, loads[1..]);
      assert loads[1..][|loads[1..]| - 1] == loads[|loads| - 1];
    }
  }

  /** Two loads that both pass the first await before either finishes leave two sprites on the stage. */
  lemma OverlappingLoadsLeaveTwo()
    ensures LoadRun(StageState(0, 0), [LoadStarts(true), LoadStarts(true), LoadSettles(true), LoadSettles(true)]).children == 2
  {
    var es := [LoadStarts(true), LoadStarts(true), LoadSettles(true), LoadSettles(true)];
    assert es[1..] == [LoadStarts(true), LoadSettles(true), LoadSettles(true)];
    assert es[1..][1..] == [LoadSettles(true), LoadSettles(true)];
    assert es[1..][1..][1..] == [LoadSettles(true)];
  }
}
