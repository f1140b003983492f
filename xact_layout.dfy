/**
 * The main layout (XactLayout): the menu bar's active menu and the image
 * controls' transform handlers, which act on the sprite the viewer loaded,
 * plus the drag handlers attached to that sprite when it is loaded.
 */
module XactLayout {
  import opened JsText
  import opened ImageViewer

  /** `Math.PI` */
  const Pi: real := 3.141592653589793

  /** `toggleMenu(menu)`: close the menu if it is the open one, otherwise open it. */
  function Toggle(active: Option<string>, menu: string): (r: Option<string>)
    ensures r == None <==> active == Some(menu)
    ensures r != None ==> r == Some(menu)
  {
    if active == Some(menu) then None else Some(menu)
  }

  /** Toggling the same menu twice from a closed bar closes it again; another menu takes over. */
  lemma ToggleTwice(menu: string, other: string)
    requires other != menu
    ensures Toggle(Toggle(None, menu), menu) == None
    ensures Toggle(Toggle(None, menu), other) == Some(other)
  {
  }

  /** `handleClickOutside`: a press outside the menu bar closes the menu; one inside keeps it. */
  function ClickOutside(active: Option<string>, insideMenuBar: bool): (r: Option<string>)
    ensures insideMenuBar ==> r == active
    ensures !insideMenuBar ==> r == None
  {
    if !insideMenuBar then None else active
  }

  /** `onRotate(angle)`: the angle in degrees is added in radians. */
  function Rotated(v: SpriteView, angle: real): SpriteView {
    v.(rotation := v.rotation + angle * Pi / 180.0)
  }

  /** `onZoom(factor)`: both scale axes multiplied by the factor, with no bound. */
  function Zoomed(v: SpriteView, factor: real): SpriteView {
    v.(scaleX := v.scaleX * factor, scaleY := v.scaleY * factor)
  }

  /** `onReset`: unrotated, unit scale (not the fit scale), centred on the screen. */
  function Reset(v: SpriteView, screenWidth: real, screenHeight: real): SpriteView {
    v.(rotation := 0.0, scaleX := 1.0, scaleY := 1.0, x := screenWidth / 2.0, y := screenHeight / 2.0)
  }

  /**
   * `onReset` as written: the layout's own application reference is never
   * set, so reading its screen throws after rotation and scale are reset,
   * and the sprite is not moved.
   */
  function ResetAsWritten(v: SpriteView): SpriteView {
    v.(rotation := 0.0, scaleX := 1.0, scaleY := 1.0)
  }

  /** `onEnhance`: add a colour-matrix and a blur filter when there are none, else remove all. */
  function Enhanced(v: SpriteView): SpriteView {
    if v.filters == [] then v.(filters := [ColorMatrix(1.2, 1.1), Blur(0.5)]) else v.(filters := [])
  }

  /** Rotations add up, and rotating back by the same angle restores the rotation. */
  lemma RotationsAdd(v: SpriteView, a: real, b: real)
    ensures Rotated(Rotated(v, a), b) == Rotated(v, a + b)
    ensures Rotated(Rotated(v, a), -a) == v
  {
  }

  /** Zooming keeps the aspect ratio: equal scales stay equal, and zoom factors multiply. */
  lemma ZoomKeepsAspect(v: SpriteView, f: real, g: real)
    ensures v.scaleX == v.scaleY ==> Zoomed(v, f).scaleX == Zoomed(v, f).scaleY
    ensures Zoomed(v, f).scaleX * v.scaleY == Zoomed(v, f).scaleY * v.scaleX
    ensures Zoomed(Zoomed(v, f), g) == Zoomed(v, f * g)
  {
    assert v.scaleX * f * v.scaleY == v.scaleY * f * v.scaleX;
  }

  /** Reset forgets every earlier rotation and zoom. */
  lemma ResetForgetsHistory(v: SpriteView, angle: real, factor: real, w: real, h: real)
    ensures Reset(Zoomed(Rotated(v, angle), factor), w, h) == Reset(v, w, h)
    ensures Reset(v, w, h).x == w / 2.0 && Reset(v, w, h).y == h / 2.0
    ensures Reset(v, w, h).scaleX == 1.0 == Reset(v, w, h).scaleY && Reset(v, w, h).rotation == 0.0
  {
  }

  /**
   * The reset as written leaves the sprite where it is, so it agrees with
   * the intended reset only for a sprite already at the screen's centre.
   */
  lemma ResetAsWrittenDoesNotCentre(v: SpriteView, screenWidth: real, screenHeight: real)
    ensures ResetAsWritten(v).x == v.x && ResetAsWritten(v).y == v.y
    ensures ResetAsWritten(v) == Reset(v, screenWidth, screenHeight) <==> v.x == screenWidth / 2.0 && v.y == screenHeight / 2.0
  {
  }

  /** Enhance toggles between no filters and the two enhancement filters. */
  lemma EnhanceToggles(v: SpriteView)
    ensures (Enhanced(v).filters == []) <==> (v.filters != [])
    ensures v.filters == [] ==> Enhanced(Enhanced(v)) == v
  {
  }

  class Layout {
    var activeMenu: Option<string>
    /** The sprite handed over by the viewer's load callback, if any. */
    var sprite: Sprite?
    var isDragging: bool
    var dragStartX: real
    var dragStartY: real
    /** The screen of the viewer's application, which a reset centres on. */
    const screenWidth: real
    const screenHeight: real

    constructor (w: real, h: real)
      ensures activeMenu == None && sprite == null && !isDragging
      ensures screenWidth == w && screenHeight == h
    {
      activeMenu := None;
      sprite := null;
      isDragging := false;
      dragStartX, dragStartY := 0.0, 0.0;
      screenWidth, screenHeight := w, h;
    }

    method ToggleMenu(menu: string)
      modifies this`activeMenu
      ensures activeMenu == Toggle(old(activeMenu), menu)
    {
      activeMenu := if activeMenu == Some(menu) then None else Some(menu);
    }

    method HandleClickOutside(insideMenuBar: bool)
      modifies this`activeMenu
      ensures activeMenu == ClickOutside(old(activeMenu), insideMenuBar)
    {
      if !insideMenuBar {
        activeMenu := None;
      }
    }

    /** `handleImageLoad(sprite)`: keep the sprite, anchor it at its centre, and start with no drag. */
    method HandleImageLoad(s: Sprite)
      modifies this`sprite, this`isDragging, this`dragStartX, this`dragStartY, s`anchor
      ensures sprite == s && !isDragging && dragStartX == 0.0 && dragStartY == 0.0
      ensures s.View() == old(s.View()).(anchor := 0.5)
    {
      sprite := s;
      s.anchor := 0.5;
      isDragging := false;
      dragStartX, dragStartY := 0.0, 0.0;
    }

    method OnRotate(angle: real)
      modifies sprite
      ensures sprite != null ==> sprite.View() == Rotated(old(sprite.View()), angle)
    {
      if sprite != null {
        sprite.rotation := sprite.rotation + angle * Pi / 180.0;
      }
    }

    method OnZoom(factor: real)
      modifies sprite
      ensures sprite != null ==> sprite.View() == Zoomed(old(sprite.View()), factor)
    {
      if sprite != null {
        sprite.scaleX := sprite.scaleX * factor;
        sprite.scaleY := sprite.scaleY * factor;
      }
    }

    /** The reset, centring on the viewer's screen. */
    method OnReset()
      modifies sprite
      ensures sprite != null ==> sprite.View() == Reset(old(sprite.View()), screenWidth, screenHeight)
    {
      if sprite != null {
        sprite.rotation := 0.0;
        sprite.scaleX, sprite.scaleY := 1.0, 1.0;
        sprite.x, sprite.y := screenWidth / 2.0, screenHeight / 2.0;
      }
    }

    method OnEnhance()
      modifies sprite
      ensures sprite != null ==> sprite.View() == Enhanced(old(sprite.View()))
    {
      if sprite != null {
        if sprite.filters == [] {
          sprite.filters := [ColorMatrix(1.2, 1.1), Blur(0.5)];
        } else {
          sprite.filters := [];
        }
      }
    }

    /** `pointerdown` on the sprite: start dragging and remember the pointer's offset from the sprite. */
    method PointerDown(gx: real, gy: real)
      requires sprite != null
      modifies this`isDragging, this`dragStartX, this`dragStartY
      ensures isDragging
      ensures gx - sprite.x == dragStartX && gy - sprite.y == dragStartY
    {
      isDragging := true;
      dragStartX := gx - sprite.x;
      dragStartY := gy - sprite.y;
    }

    /** `pointermove`: while dragging, the sprite follows the pointer at the remembered offset. */
    method PointerMove(gx: real, gy: real)
      requires sprite != null
      modifies sprite`x, sprite`y
      ensures isDragging ==> gx - sprite.x == dragStartX && gy - sprite.y == dragStartY
      ensures !isDragging ==> sprite.x == old(sprite.x) && sprite.y == old(sprite.y)
    {
      if isDragging {
        sprite.x := gx - dragStartX;
        sprite.y := gy - dragStartY;
      }
    }

    /** `pointerup` and `pointerupoutside`: stop dragging. */
    method PointerUp()
      modifies this`isDragging
      ensures !isDragging
    {
      isDragging := false;
    }
  }
}
