/** Sprites and sprite templates of `sprite.go`. A template describes a
    sheet of equally sized frames and loads its image at most once, however
    many sprites share it; a sprite finds its template by key on first use,
    takes the template's frame size as its own, and draws the frame that
    its frame index selects to its position shifted by the template's
    centre point. Depth Z is added to Y, which is how deeper sprites are
    drawn lower on the screen. */
module Sprites {
  import opened Geometry
  import opened Wrappers

  /** An image handle from the renderer. */
  type Texture = nat

  /** What the renderer's image loader returns for a sheet file. */
  datatype ImageLoad = ImageLoad(tex: Option<Texture>, err: Option<string>)

  class SpriteTemplate {
    var baseX: int
    var baseY: int
    var framesX: int
    var framesY: int
    var frameWidth: int
    var frameHeight: int
    var sheetFile: string
    var tex: Option<Texture>
    var loadDone: bool         // the once-guard
    ghost var imageLoads: nat  // how many times the image loader ran

    ghost predicate Valid()
      reads this
    {
      imageLoads == if loadDone then 1 else 0
    }

    constructor (baseX: int, baseY: int, framesX: int, framesY: int,
                 frameWidth: int, frameHeight: int, sheetFile: string)
      ensures Valid() && !loadDone && tex == None
      ensures this.baseX == baseX && this.baseY == baseY
      ensures this.framesX == framesX && this.framesY == framesY
      ensures this.frameWidth == frameWidth && this.frameHeight == frameHeight
      ensures this.sheetFile == sheetFile
    {
      this.baseX, this.baseY := baseX, baseY;
      this.framesX, this.framesY := framesX, framesY;
      this.frameWidth, this.frameHeight := frameWidth, frameHeight;
      this.sheetFile := sheetFile;
      tex := None;
      loadDone := false;
      imageLoads := 0;
    }

    /** `load`: the first call loads the sheet (`image` is what the loader
        gives back for it) and returns the loader's error; every later call
        does nothing and returns no error, even when the first one failed. */
    method Load(image: ImageLoad) returns (err: Option<string>)
      requires Valid()
      modifies this`tex, this`loadDone, this`imageLoads
      ensures Valid() && loadDone && imageLoads == 1
      ensures old(loadDone) ==> err == None && tex == old(tex)
      ensures !old(loadDone) ==> err == image.err && tex == image.tex
    {
      err := None;
      if !loadDone {
        loadDone := true;
        tex, err := image.tex, image.err;
        imageLoads := imageLoads + 1;
      }
    }
  }

  /** The region of the sheet that shows frame `frame`: frames run along X
      first and wrap onto the next row, and the frame index wraps around the
      whole sheet. */
  function SourceRect(frame: int, framesX: int, framesY: int, frameWidth: int, frameHeight: int): (r: Rect)
    requires framesX != 0 && framesY != 0
    ensures r.W == frameWidth && r.H == frameHeight
    ensures 0 <= frame < framesX ==> r.X == frame * frameWidth && r.Y == 0
  {
    SmallDivision(frame, framesX);
    SmallDivision(0, framesY);
    Rect(Rem(frame, framesX) * frameWidth,
         Rem(Quo(frame, framesX), framesY) * frameHeight,
         frameWidth, frameHeight)
  }

  /** A dividend below a positive divisor is its own remainder, and zero
      divides to zero. */
  lemma SmallDivision(a: int, b: int)
    requires b != 0
    ensures 0 <= a < b ==> Quo(a, b) == 0 && Rem(a, b) == a
    ensures Quo(0, b) == 0 && Rem(0, b) == 0
  {
    if 0 <= a < b {
      UniqueQuotient(a, b, 0, a);
    }
  }

  /** For a non-negative frame index the region lies inside the sheet. */
  lemma SourceInSheet(frame: int, framesX: int, framesY: int, frameWidth: int, frameHeight: int)
    requires frame >= 0 && framesX > 0 && framesY > 0 && frameWidth >= 0 && frameHeight >= 0
    ensures var r := SourceRect(frame, framesX, framesY, frameWidth, frameHeight);
            0 <= r.X && r.X + r.W <= framesX * frameWidth &&
            0 <= r.Y && r.Y + r.H <= framesY * frameHeight
  {
    CellInStrip(Rem(frame, framesX), framesX, frameWidth);
    CellInStrip(Rem(Quo(frame, framesX), framesY), framesY, frameHeight);
  }

  /** Cell `i` of `n` cells of size `size` lies within the strip. */
  lemma CellInStrip(i: int, n: int, size: int)
    requires 0 <= i < n && size >= 0
    ensures 0 <= i * size && i * size + size <= n * size
  {
    if size > 0 {
      MulStep(i, n, size);
    }
  }

  /** Frame indices that differ by a whole sheet select the same region. */
  lemma SourcePeriodic(frame: int, framesX: int, framesY: int, frameWidth: int, frameHeight: int)
    requires frame >= 0 && framesX > 0 && framesY > 0
    ensures SourceRect(frame + framesX * framesY, framesX, framesY, frameWidth, frameHeight)
            == SourceRect(frame, framesX, framesY, frameWidth, frameHeight)
  {
    assert frame + framesX * framesY == frame + framesY * framesX;
    QuoRemShift(frame, framesX, framesY);
    QuoRemShift(Quo(frame, framesX), framesY, 1);
  }

  /** What a sprite's `load` did. A key missing from the template library
      leaves the template nil, and reading its frame size panics. */
  datatype LoadOutcome = Loaded(err: Option<string>) | MissingTemplate

  /** What a sprite's `draw` did: nothing, an error, a panic (no template,
      or a sheet with zero frames on an axis, which divides by zero), or a
      copy of the source region to the destination rectangle. */
  datatype DrawOutcome = Skipped | Failed(err: string) | Panicked | Copied(src: Rect, dst: Rect)

  class Sprite {
    var Invisible: bool
    var TemplateKey: string
    var X: int
    var Y: int
    var Z: int
    var Frame: int
    var template: SpriteTemplate?
    var w: int
    var h: int

    /** A sprite made from a key and a position; its template is found on
        first use. */
    constructor (key: string, x: int, y: int, z: int)
      ensures TemplateKey == key && X == x && Y == y && Z == z
      ensures template == null && !Invisible && Frame == 0 && w == 0 && h == 0
      ensures Bounds(this) == ZeroRect
    {
      Invisible, TemplateKey := false, key;
      X, Y, Z, Frame := x, y, z, 0;
      template := null;
      w, h := 0, 0;
    }

    /** `load`: a sprite that has its template does nothing; otherwise it
        takes the template for its key, copies the frame size and loads the
        template's sheet (once per template). */
    method Load(library: map<string, SpriteTemplate>, image: ImageLoad) returns (res: LoadOutcome)
      requires forall k | k in library :: library[k].Valid()
      requires template != null ==> template.Valid()
      modifies this, library.Values`tex, library.Values`loadDone, library.Values`imageLoads
      ensures forall k | k in library :: library[k].Valid()
      ensures template != null ==> template.Valid()
      ensures Invisible == old(Invisible) && TemplateKey == old(TemplateKey) && Frame == old(Frame)
      ensures X == old(X) && Y == old(Y) && Z == old(Z)
      ensures forall k | k in library && library[k] != template :: unchanged(library[k])
      ensures old(template) != null ==>
                res == Loaded(None) && unchanged(this) && unchanged(library.Values)
      ensures old(template) == null && TemplateKey !in library ==>
                res == MissingTemplate && unchanged(this) && unchanged(library.Values)
      ensures old(template) == null && TemplateKey in library ==>
                && template == library[TemplateKey]
                && w == template.frameWidth && h == template.frameHeight
                && res.Loaded? && template.loadDone && template.imageLoads == 1
                && (old(library[TemplateKey].loadDone) ==>
                      res.err == None && template.tex == old(library[TemplateKey].tex))
                && (!old(library[TemplateKey].loadDone) ==>
                      res.err == image.err && template.tex == image.tex)
    {
      if template != null {
        return Loaded(None);
      }
      if TemplateKey !in library {
        return MissingTemplate;
      }
      template := library[TemplateKey];
      w, h := template.frameWidth, template.frameHeight;
      var err := template.Load(image);
      res := Loaded(err);
    }
  }

  /** `bounds`: the zero rectangle for a missing sprite or one whose template
      is not yet loaded; otherwise its size at (X, Y + Z). */
  function Bounds(s: Sprite?): (r: Rect)
    reads s
    ensures s == null || s.template == null ==> r == ZeroRect
    ensures s != null && s.template != null ==>
              r.X == s.X && r.Y == s.Y + s.Z && r.W == s.w && r.H == s.h
  {
    if s == null || s.template == null then ZeroRect else Rect(s.X, s.Y + s.Z, s.w, s.h)
  }

  /** `invisible`: a missing sprite counts as invisible. */
  predicate IsInvisible(s: Sprite?)
    reads s
    ensures s == null ==> IsInvisible(s)
    ensures !IsInvisible(s) ==> s != null && !s.Invisible
  {
    s == null || s.Invisible
  }

  /** Once a sprite has loaded, its bounds have the template's frame size,
      and a second load leaves the bounds alone. */
  method LoadThenBounds(s: Sprite, library: map<string, SpriteTemplate>, image: ImageLoad)
    returns (first: LoadOutcome, second: LoadOutcome)
    requires forall k | k in library :: library[k].Valid()
    requires s.template == null && s.TemplateKey in library
    modifies s, library.Values`tex, library.Values`loadDone, library.Values`imageLoads
    ensures var t := library[old(s.TemplateKey)];
            Bounds(s) == Rect(s.X, s.Y + s.Z, t.frameWidth, t.frameHeight) && t.imageLoads == 1
    ensures first.Loaded? && second == Loaded(None)
  {
    first := s.Load(library, image);
    ghost var b := Bounds(s);
    second := s.Load(library, image);
    assert Bounds(s) == b;
  }

  /** `draw`: a missing or invisible sprite draws nothing and loads nothing.
      Otherwise the sprite loads: a missing key panics, and the first load of
      a template can fail with the loader's error. After that, a sheet with
      zero frames on an axis panics (division by zero), and any other sheet
      has the frame's region copied to (X - baseX, Y + Z - baseY) at the
      sprite's size. */
  method Draw(s: Sprite?, library: map<string, SpriteTemplate>, image: ImageLoad) returns (res: DrawOutcome)
    requires forall k | k in library :: library[k].Valid()
    requires s != null && s.template != null ==> s.template.Valid()
    modifies s, library.Values`tex, library.Values`loadDone, library.Values`imageLoads
    ensures s != null ==> s.X == old(s.X) && s.Y == old(s.Y) && s.Z == old(s.Z) && s.Frame == old(s.Frame)
    ensures s != null ==> s.Invisible == old(s.Invisible) && s.TemplateKey == old(s.TemplateKey)
    ensures s != null && old(s.template) != null ==> s.template == old(s.template) && s.w == old(s.w) && s.h == old(s.h)
    ensures forall k | k in library && (s == null || library[k] != s.template) :: unchanged(library[k])
    ensures IsInvisible(s) ==>
              res == Skipped && (s != null ==> unchanged(s)) && unchanged(library.Values)
    ensures res.Copied? ==>
              s != null && s.template != null &&
              s.template.framesX != 0 && s.template.framesY != 0 &&
              res.src == SourceRect(s.Frame, s.template.framesX, s.template.framesY,
                                    s.template.frameWidth, s.template.frameHeight) &&
              res.dst == Rect(s.X - s.template.baseX, s.Y + s.Z - s.template.baseY, s.w, s.h)
    ensures !IsInvisible(s) && old(s.template) == null && s.TemplateKey !in library ==>
              res == Panicked && s.template == null
    ensures !IsInvisible(s) && old(s.template) == null && s.TemplateKey in library ==>
              && s.template == library[s.TemplateKey] && s.template.loadDone
              && s.w == s.template.frameWidth && s.h == s.template.frameHeight
    ensures res.Failed? <==>
              && !IsInvisible(s) && old(s.template) == null && s.TemplateKey in library
              && !old(library[s.TemplateKey].loadDone) && image.err.Some?
    ensures res.Failed? ==> image.err == Some(res.err)
    ensures !IsInvisible(s) && s.template != null && !res.Failed? ==>
              if s.template.framesX != 0 && s.template.framesY != 0 then res.Copied? else res == Panicked
  {
    if s == null || s.Invisible {
      return Skipped;
    }
    var loaded := s.Load(library, image);
    match loaded {
      case MissingTemplate =>
        return Panicked;
      case Loaded(err) =>
        if err.Some? {
          return Failed(err.value);
        }
    }
    var t := s.template;
    if t.framesX == 0 || t.framesY == 0 {
      return Panicked;
    }
    var srcX := Rem(s.Frame, t.framesX) * t.frameWidth;
    var srcY := Rem(Quo(s.Frame, t.framesX), t.framesY) * t.frameHeight;
    res := Copied(Rect(srcX, srcY, t.frameWidth, t.frameHeight),
                  Rect(s.X - t.baseX, s.Y + s.Z - t.baseY, s.w, s.h));
  }
}
