/** Text and logo voxelisation of internal/stl/geometry/text.go.

    A label or the logo is drawn onto a 2000-pixel-wide face; every lit
    pixel becomes one voxel, a cube built by `CreateCube`, and the voxels'
    triangles are appended in scan order. Font loading, text drawing, PNG
    decoding and `CreateCube` are not part of this model: they are the
    function-valued fields of `TextEnv` and `ImageEnv`. The drawn text and
    the decoded logo are rasters of 16-bit channel values. Coordinates are
    `real`s: the model computes exactly where the program rounds. */
module TextGeometry {
  import opened Errors

  const BaseWidthVoxelResolution: nat := 2000
  const VoxelDepth: real := 1.0

  const LogoScale: real := 0.4
  const LogoTopOffset: real := 0.15
  const LogoLeftOffset: real := 0.03

  const UsernameFontSize: real := 120.0
  const UsernameJustification: string := "left"
  const UsernameLeftOffset: real := 0.1

  const YearFontSize: real := 100.0
  const YearJustification: string := "right"
  const YearLeftOffset: real := 0.97

  /** A channel must exceed this value (half of 65535, rounded up) to count
      as lit. */
  const ChannelCutoff: int := 32768

  datatype Vec3 = Vec3(x: real, y: real, z: real)

  datatype Triangle = Triangle(normal: Vec3, v1: Vec3, v2: Vec3, v3: Vec3)

  /** The arguments of `CreateCube`: a corner and the extents along x, y
      and z. */
  datatype Box = Box(x: real, y: real, z: real, sizeX: real, sizeY: real, sizeZ: real)

  /** A colour as `color.RGBA()` returns it: four 16-bit channels. */
  datatype Rgba = Rgba(r: int, g: int, b: int, a: int)

  /** A raster as rows of pixels: `raster[y][x]`. */
  type Raster = seq<seq<Rgba>>

  datatype Pixel = Pixel(x: int, y: int)

  /** `At(x, y)`: outside the raster every channel reads as zero. */
  function PixelAt(raster: Raster, x: int, y: int): Rgba
  {
    if 0 <= y < |raster| && 0 <= x < |raster[y]| then raster[y][x] else Rgba(0, 0, 0, 0)
  }

  /** `isPixelActive`: a text pixel is lit when its red channel exceeds the
      cutoff. */
  predicate IsPixelActive(raster: Raster, x: int, y: int): (lit: bool)
    ensures lit ==> 0 <= y < |raster| && 0 <= x < |raster[y]|
  {
    PixelAt(raster, x, y).r > ChannelCutoff
  }

  /** A logo pixel is lit when both its alpha and its red channel exceed the
      cutoff: a stricter test than the text's. */
  predicate IsLogoPixelActive(image: Raster, x: int, y: int): (lit: bool)
    ensures lit ==> IsPixelActive(image, x, y)
  {
    PixelAt(image, x, y).a > ChannelCutoff && PixelAt(image, x, y).r > ChannelCutoff
  }

  /** Which pixels become voxels. */
  datatype Rule = TextRule(raster: Raster) | LogoRule(image: Raster)

  predicate Fires(rule: Rule, p: Pixel)
  {
    match rule
    case TextRule(raster) => IsPixelActive(raster, p.x, p.y)
    case LogoRule(image) => IsLogoPixelActive(image, p.x, p.y)
  }

  /** Where a pixel lands on the face, in face pixels. */
  type Position = Pixel -> (real, real)

  /** A text pixel is placed where it was drawn. */
  function TextPosition(p: Pixel): (real, real)
  {
    (p.x as real, p.y as real)
  }

  /** A logo pixel is scaled and shifted by offsets given as fractions of
      the face's width and height. */
  function LogoPosition(leftOffsetPercent: real, topOffsetPercent: real, scale: real, faceHeightRes: int, p: Pixel)
    : (real, real)
  {
    (leftOffsetPercent * BaseWidthVoxelResolution as real + p.x as real * scale,
     topOffsetPercent * faceHeightRes as real + p.y as real * scale)
  }

  function LogoPlacement(leftOffsetPercent: real, topOffsetPercent: real, scale: real, faceHeightRes: int): Position
  {
    p => LogoPosition(leftOffsetPercent, topOffsetPercent, scale, faceHeightRes, p)
  }

  // ---------------------------------------------------------------------
  // One voxel

  /** A voxel of side `size` for face position (x, y): `height` deep,
      hanging below the face's top edge, covering [x, x + 1] by
      [-(y + 1), -y] in units of `size`. */
  function PlacedBox(x: real, y: real, height: real, size: real): Box
  {
    Box(x * size, -height, -(y + 1.0) * size, size, height, size)
  }

  /** The cube `createVoxelOnFace` asks for. The face is 2000 pixels wide
      and keeps the base's aspect ratio, so a pixel is square: the box is
      the voxel of side `baseWidth / 2000` at (x, y). */
  function VoxelBox(x: real, y: real, height: real, baseWidth: real, baseHeight: real): (b: Box)
    requires baseWidth > 0.0 && baseHeight > 0.0
    ensures b == PlacedBox(x, y, height, baseWidth / BaseWidthVoxelResolution as real)
  {
    var xResolution := BaseWidthVoxelResolution as real;
    var yResolution := xResolution * baseHeight / baseWidth;
    assert yResolution > 0.0 by {
      assert xResolution * baseHeight > 0.0;
    }
    var voxelSize := 1.0;
    var faceX := (x / xResolution) * baseWidth;
    var faceY := (y / yResolution) * baseHeight;
    var voxelSizeX := (voxelSize / xResolution) * baseWidth;
    var voxelSizeY := (voxelSize / yResolution) * baseHeight;
    assert voxelSizeY == baseWidth / xResolution by {
      assert yResolution * baseWidth == xResolution * baseHeight;
    }
    assert faceY == y * voxelSizeY;
    Box(faceX, -height, -voxelSizeY - faceY, voxelSizeX, height, voxelSizeY)
  }

  /** `createVoxelOnFace`: the cube of the square voxel at (x, y), with
      `CreateCube`'s error returned unchanged. */
  function CreateVoxelOnFace(createCube: Box -> Result<seq<Triangle>>, x: real, y: real, height: real,
                             baseWidth: real, baseHeight: real): (r: Result<seq<Triangle>>)
    requires baseWidth > 0.0 && baseHeight > 0.0
    ensures r == createCube(PlacedBox(x, y, height, baseWidth / BaseWidthVoxelResolution as real))
  {
    createCube(VoxelBox(x, y, height, baseWidth, baseHeight))
  }

  /** Text voxels tile the face: the right neighbour starts where a voxel
      ends, and the voxel below ends where a voxel starts. */
  lemma TextVoxelsTile(x: int, y: int, height: real, size: real)
    ensures var b := PlacedBox(x as real, y as real, height, size);
      var right := PlacedBox((x + 1) as real, y as real, height, size);
      var below := PlacedBox(x as real, (y + 1) as real, height, size);
      && right.x == b.x + b.sizeX && right.z == b.z
      && below.z + below.sizeZ == b.z && below.x == b.x
  {
    assert (x + 1) as real * size == x as real * size + size;
    assert -((y + 1) as real + 1.0) * size + size == -(y as real + 1.0) * size;
  }

  /** Horizontally neighbouring logo pixels land `scale` face pixels
      apart. */
  lemma ScaledNeighbour(left: real, top: real, scale: real, faceHeightRes: int, x: int, y: int)
    ensures var p := LogoPosition(left, top, scale, faceHeightRes, Pixel(x, y));
      var q := LogoPosition(left, top, scale, faceHeightRes, Pixel(x + 1, y));
      q.0 == p.0 + scale && q.1 == p.1
  {
    assert (x + 1) as real == x as real + 1.0;
    assert (x + 1) as real * scale == x as real * scale + scale;
  }

  /** Logo voxels are one face pixel wide whatever the scale, so with a
      scale below 1 the voxels of horizontally neighbouring logo pixels,
      `scale` face pixels apart, overlap. */
  lemma LogoVoxelsOverlap(u: real, v: real, scale: real, height: real, size: real)
    requires 0.0 < scale < 1.0 && size > 0.0
    ensures var b := PlacedBox(u, v, height, size);
      var c := PlacedBox(u + scale, v, height, size);
      b.x < c.x < b.x + b.sizeX
  {
    assert (u + scale) * size == u * size + scale * size;
    assert scale * size < 1.0 * size;
    assert PlacedBox(u + scale, v, height, size).x == (u + scale) * size;
    assert PlacedBox(u, v, height, size).x == u * size;
    assert (u + scale) * size < u * size + size;
  }

  // ---------------------------------------------------------------------
  // Scan order

  /** Column `x` of a `h`-pixel-high face, top to bottom (or bottom to top
      when `down`, as the logo scan runs y from h-1 to 0). */
  function Column(x: int, h: nat, down: bool): (c: seq<Pixel>)
    ensures |c| == h
    ensures forall i :: 0 <= i < h ==> c[i] == if down then Pixel(x, h - 1 - i) else Pixel(x, i)
  {
    seq(h, i requires 0 <= i < h => if down then Pixel(x, h - 1 - i) else Pixel(x, i))
  }

  /** The pixels of a `w` by `h` face in the order of the nested loops:
      column by column, x ascending. */
  function ScanOrder(w: nat, h: nat, down: bool): seq<Pixel>
  {
    if w == 0 then [] else ScanOrder(w - 1, h, down) + Column(w - 1, h, down)
  }

  /** `p` comes before `q` in the scan. */
  predicate ScanBefore(p: Pixel, q: Pixel, down: bool)
  {
    p.x < q.x || (p.x == q.x && if down then p.y > q.y else p.y < q.y)
  }

  /** The scan visits exactly the pixels of the face ... */
  lemma {:induction false} ScanOrderCovers(w: nat, h: nat, down: bool)
    ensures forall p :: p in ScanOrder(w, h, down) <==> 0 <= p.x < w && 0 <= p.y < h
  {
    if w > 0 {
      ScanOrderCovers(w - 1, h, down);
      var c := Column(w - 1, h, down);
      forall p: Pixel | p.x == w - 1 && 0 <= p.y < h
        ensures p in c
      {
        assert c[if down then h - 1 - p.y else p.y] == p;
      }
    }
  }

  /** Every pixel of `s` comes before the pixels after it. */
  predicate InScanOrder(s: seq<Pixel>, down: bool)
  {
    forall i, j :: 0 <= i < j < |s| ==> ScanBefore(s[i], s[j], down)
  }

  /** ... each once, in strictly increasing scan order. */
  lemma {:induction false} ScanOrderSorted(w: nat, h: nat, down: bool)
    ensures InScanOrder(ScanOrder(w, h, down), down)
  {
    if w > 0 {
      ScanOrderSorted(w - 1, h, down);
      ScanOrderCovers(w - 1, h, down);
      var prefix := ScanOrder(w - 1, h, down);
      var s := ScanOrder(w, h, down);
      forall i, j | 0 <= i < j < |s|
        ensures ScanBefore(s[i], s[j], down)
      {
        var column := Column(w - 1, h, down);
        assert s == prefix + column;
        if j < |prefix| {
          assert s[i] == prefix[i] && s[j] == prefix[j];
          assert ScanBefore(prefix[i], prefix[j], down);
        } else if i < |prefix| {
          assert s[i] == prefix[i] && s[i] in prefix;
          assert s[i].x < w - 1;
          assert s[j] == column[j - |prefix|];
          assert s[j].x == w - 1;
          assert ScanBefore(s[i], s[j], down);
        } else {
          assert s[i] == column[i - |prefix|] && s[j] == column[j - |prefix|];
          assert ScanBefore(s[i], s[j], down);
        }
      }
    }
  }

  lemma {:induction false} ScanOrderPrefix(x: nat, w: nat, h: nat, down: bool)
    requires x <= w
    ensures ScanOrder(x, h, down) <= ScanOrder(w, h, down)
  {
    if x < w {
      ScanOrderPrefix(x, w - 1, h, down);
    }
  }

  /** The pixels visited so far at step (x, k) of the nested loops are a
      prefix of the whole scan. */
  lemma ScanInProgress(x: nat, k: nat, w: nat, h: nat, down: bool)
    requires x < w && k <= h
    ensures ScanOrder(x, h, down) + Column(x, h, down)[..k] <= ScanOrder(w, h, down)
  {
    ScanOrderPrefix(x + 1, w, h, down);
  }

  /** One more pixel of column `x` has been visited. */
  lemma ScanStep(x: nat, k: nat, h: nat, down: bool)
    requires k < h
    ensures ScanOrder(x, h, down) + Column(x, h, down)[..k + 1]
         == (ScanOrder(x, h, down) + Column(x, h, down)[..k]) + [Column(x, h, down)[k]]
  {
    assert Column(x, h, down)[..k + 1] == Column(x, h, down)[..k] + [Column(x, h, down)[k]];
  }

  /** Column `x` has been visited completely. */
  lemma ColumnDone(x: nat, h: nat, down: bool)
    ensures ScanOrder(x, h, down) + Column(x, h, down)[..h] == ScanOrder(x + 1, h, down)
    ensures ScanOrder(x, h, down) + Column(x, h, down)[..0] == ScanOrder(x, h, down)
  {
    assert Column(x, h, down)[..h] == Column(x, h, down);
    assert Column(x, h, down)[..0] == [];
  }

  // ---------------------------------------------------------------------
  // Selection and voxelisation

  /** The pixels of `ps` that become voxels, in order. */
  function Lit(rule: Rule, ps: seq<Pixel>): seq<Pixel>
  {
    if ps == [] then []
    else Lit(rule, ps[..|ps| - 1]) + (if Fires(rule, ps[|ps| - 1]) then [ps[|ps| - 1]] else [])
  }

  /** One step of the scan: a lit pixel appends its voxel's triangles; a
      cube error stops the scan. */
  function VoxelStep(createCube: Box -> Result<seq<Triangle>>, rule: Rule, position: Position,
                     done: Result<seq<Triangle>>, p: Pixel, height: real, baseWidth: real, baseHeight: real)
    : Result<seq<Triangle>>
    requires baseWidth > 0.0 && baseHeight > 0.0
  {
    if done.Err? || !Fires(rule, p) then done
    else
      var pos := position(p);
      match CreateVoxelOnFace(createCube, pos.0, pos.1, height, baseWidth, baseHeight)
      case Err(e) => Err(Kinded(STLError, "failed to create cube", Some(e)))
      case Ok(voxel) => Ok(done.value + voxel)
  }

  /** The triangles of the lit pixels of `ps`, appended in the order of
      `ps`, or the first cube error. */
  function Voxelize(createCube: Box -> Result<seq<Triangle>>, rule: Rule, position: Position,
                    ps: seq<Pixel>, height: real, baseWidth: real, baseHeight: real): Result<seq<Triangle>>
    requires baseWidth > 0.0 && baseHeight > 0.0
  {
    if ps == [] then Ok([])
    else VoxelStep(createCube, rule, position,
                   Voxelize(createCube, rule, position, ps[..|ps| - 1], height, baseWidth, baseHeight),
                   ps[|ps| - 1], height, baseWidth, baseHeight)
  }

  lemma VoxelizeSnoc(createCube: Box -> Result<seq<Triangle>>, rule: Rule, position: Position,
                     ps: seq<Pixel>, p: Pixel, height: real, baseWidth: real, baseHeight: real)
    requires baseWidth > 0.0 && baseHeight > 0.0
    ensures Voxelize(createCube, rule, position, ps + [p], height, baseWidth, baseHeight)
         == VoxelStep(createCube, rule, position, Voxelize(createCube, rule, position, ps, height, baseWidth, baseHeight),
                      p, height, baseWidth, baseHeight)
  {
    assert (ps + [p])[..|ps|] == ps;
  }

  /** Once the scan has failed, the rest of it does not change the error. */
  lemma {:induction false} VoxelizeErrorSticks(createCube: Box -> Result<seq<Triangle>>, rule: Rule, position: Position,
                                               ps: seq<Pixel>, qs: seq<Pixel>, height: real, baseWidth: real, baseHeight: real)
    requires baseWidth > 0.0 && baseHeight > 0.0
    requires ps <= qs
    requires Voxelize(createCube, rule, position, ps, height, baseWidth, baseHeight).Err?
    ensures Voxelize(createCube, rule, position, qs, height, baseWidth, baseHeight)
         == Voxelize(createCube, rule, position, ps, height, baseWidth, baseHeight)
  {
    if |qs| > |ps| {
      assert ps <= qs[..|qs| - 1];
      VoxelizeErrorSticks(createCube, rule, position, ps, qs[..|qs| - 1], height, baseWidth, baseHeight);
    } else {
      assert ps == qs;
    }
  }

  /** Visiting pixel `k` of column `x` extends the scan so far by one step,
      and a step that fails decides the whole scan. */
  lemma ScanVisit(createCube: Box -> Result<seq<Triangle>>, rule: Rule, position: Position,
                  x: nat, k: nat, w: nat, h: nat, down: bool, height: real, baseWidth: real, baseHeight: real)
    requires baseWidth > 0.0 && baseHeight > 0.0 && x < w && k < h
    ensures var step := VoxelStep(createCube, rule, position,
                                  Voxelize(createCube, rule, position, ScanOrder(x, h, down) + Column(x, h, down)[..k],
                                           height, baseWidth, baseHeight),
                                  Column(x, h, down)[k], height, baseWidth, baseHeight);
      && Voxelize(createCube, rule, position, ScanOrder(x, h, down) + Column(x, h, down)[..k + 1],
                  height, baseWidth, baseHeight) == step
      && (step.Err? ==> Voxelize(createCube, rule, position, ScanOrder(w, h, down), height, baseWidth, baseHeight) == step)
  {
    var done := ScanOrder(x, h, down) + Column(x, h, down)[..k];
    ScanStep(x, k, h, down);
    VoxelizeSnoc(createCube, rule, position, done, Column(x, h, down)[k], height, baseWidth, baseHeight);
    var step := Voxelize(createCube, rule, position, done + [Column(x, h, down)[k]], height, baseWidth, baseHeight);
    if step.Err? {
      ScanInProgress(x, k + 1, w, h, down);
      VoxelizeErrorSticks(createCube, rule, position, done + [Column(x, h, down)[k]], ScanOrder(w, h, down),
                          height, baseWidth, baseHeight);
    }
  }

  /** Scanning `a` then `b` gives the triangles of `a` followed by those of
      `b`, or the first error. */
  lemma {:induction false} VoxelizeAppend(createCube: Box -> Result<seq<Triangle>>, rule: Rule, position: Position,
                                          a: seq<Pixel>, b: seq<Pixel>, height: real, baseWidth: real, baseHeight: real)
    requires baseWidth > 0.0 && baseHeight > 0.0
    ensures var ra := Voxelize(createCube, rule, position, a, height, baseWidth, baseHeight);
      var rb := Voxelize(createCube, rule, position, b, height, baseWidth, baseHeight);
      Voxelize(createCube, rule, position, a + b, height, baseWidth, baseHeight)
        == if ra.Err? then ra else if rb.Err? then rb else Ok(ra.value + rb.value)
  {
    if b == [] {
      assert a + b == a;
      var ra := Voxelize(createCube, rule, position, a, height, baseWidth, baseHeight);
      if ra.Ok? {
        assert ra.value + [] == ra.value;
      }
    } else {
      var b' := b[..|b| - 1];
      var p := b[|b| - 1];
      VoxelizeAppend(createCube, rule, position, a, b', height, baseWidth, baseHeight);
      assert a + b == (a + b') + [p];
      VoxelizeSnoc(createCube, rule, position, a + b', p, height, baseWidth, baseHeight);
      var ra := Voxelize(createCube, rule, position, a, height, baseWidth, baseHeight);
      var rb' := Voxelize(createCube, rule, position, b', height, baseWidth, baseHeight);
      if ra.Ok? && rb'.Ok? {
        assert ra.value + rb'.value + [] == ra.value + rb'.value;
        if Fires(rule, p) {
          var pos := position(p);
          var v := CreateVoxelOnFace(createCube, pos.0, pos.1, height, baseWidth, baseHeight);
          if v.Ok? {
            assert (ra.value + rb'.value) + v.value == ra.value + (rb'.value + v.value);
          }
        }
      }
    }
  }

  /** Only lit pixels matter: scanning the lit pixels alone gives the same
      result. */
  lemma {:induction false} VoxelizeLitOnly(createCube: Box -> Result<seq<Triangle>>, rule: Rule, position: Position,
                                           ps: seq<Pixel>, height: real, baseWidth: real, baseHeight: real)
    requires baseWidth > 0.0 && baseHeight > 0.0
    ensures Voxelize(createCube, rule, position, ps, height, baseWidth, baseHeight)
         == Voxelize(createCube, rule, position, Lit(rule, ps), height, baseWidth, baseHeight)
  {
    if ps != [] {
      var init := ps[..|ps| - 1];
      var p := ps[|ps| - 1];
      VoxelizeLitOnly(createCube, rule, position, init, height, baseWidth, baseHeight);
      if Fires(rule, p) {
        VoxelizeSnoc(createCube, rule, position, Lit(rule, init), p, height, baseWidth, baseHeight);
      } else {
        assert Lit(rule, ps) == Lit(rule, init);
      }
    }
  }

  /** A pixel is selected exactly when it is scanned and lit. */
  lemma {:induction false} LitMembers(rule: Rule, ps: seq<Pixel>)
    ensures forall p :: p in Lit(rule, ps) <==> p in ps && Fires(rule, p)
  {
    if ps != [] {
      LitMembers(rule, ps[..|ps| - 1]);
      assert ps == ps[..|ps| - 1] + [ps[|ps| - 1]];
    }
  }

  /** With a `CreateCube` that always yields its 12 triangles, a scan emits
      exactly 12 triangles per lit pixel. */
  lemma {:induction false} VoxelizeCount(createCube: Box -> Result<seq<Triangle>>, rule: Rule, position: Position,
                                         ps: seq<Pixel>, height: real, baseWidth: real, baseHeight: real)
    requires baseWidth > 0.0 && baseHeight > 0.0
    requires forall b :: createCube(b).Ok? && |createCube(b).value| == 12
    ensures Voxelize(createCube, rule, position, ps, height, baseWidth, baseHeight).Ok?
    ensures |Voxelize(createCube, rule, position, ps, height, baseWidth, baseHeight).value| == 12 * |Lit(rule, ps)|
  {
    if ps != [] {
      VoxelizeCount(createCube, rule, position, ps[..|ps| - 1], height, baseWidth, baseHeight);
    }
  }

  // ---------------------------------------------------------------------
  // Text

  /** `int(2000 * baseHeight / baseWidth)`: the face's height in pixels,
      keeping its aspect ratio. */
  function FaceHeightRes(baseWidth: real, baseHeight: real): (h: nat)
    requires baseWidth > 0.0 && baseHeight > 0.0
    ensures h as real <= BaseWidthVoxelResolution as real * baseHeight / baseWidth < h as real + 1.0
  {
    var exact := BaseWidthVoxelResolution as real * baseHeight / baseWidth;
    assert exact >= 0.0 by {
      assert BaseWidthVoxelResolution as real * baseHeight > 0.0;
    }
    exact.Floor
  }

  /** The horizontal anchor of a justification: "center" and "right" are
      recognised, anything else is left-aligned. */
  function JustificationPercent(justification: string): (anchor: real)
    ensures 0.0 <= anchor <= 1.0
    ensures anchor == 0.5 <==> justification == "center"
    ensures anchor == 1.0 <==> justification == "right"
    ensures anchor == 0.0 <==> justification != "center" && justification != "right"
  {
    match justification
    case "center" => 0.5
    case "right" => 1.0
    case _ => 0.0
  }

  datatype FontId = PrimaryFont | FallbackFont

  /** `DrawStringAnchored` on a black face of the given size, in white. */
  datatype DrawRequest = DrawRequest(
    text: string, fontPath: string, fontSize: real,
    x: real, y: real, anchorX: real, anchorY: real,
    width: nat, height: nat)

  /** What `renderText` uses from outside: writing an embedded font to a
      temporary file, loading it, drawing a string, building a cube. */
  datatype TextEnv = TextEnv(
    writeTempFont: FontId -> Result<string>,
    loadFontFace: (string, real) -> Option<Error>,
    drawStringAnchored: DrawRequest -> Raster,
    createCube: Box -> Result<seq<Triangle>>)

  /** The primary font if it can be written out, else the fallback font;
      an error only when both fail. */
  function LoadFont(writeTempFont: FontId -> Result<string>): (r: Result<string>)
    ensures writeTempFont(PrimaryFont).Ok? ==> r == writeTempFont(PrimaryFont)
    ensures writeTempFont(PrimaryFont).Err? && writeTempFont(FallbackFont).Ok? ==> r == writeTempFont(FallbackFont)
    ensures r.Err? <==> writeTempFont(PrimaryFont).Err? && writeTempFont(FallbackFont).Err?
    ensures r.Err? ==> r.error == Kinded(IOError, "failed to load any fonts", Some(writeTempFont(FallbackFont).error))
  {
    match writeTempFont(PrimaryFont)
    case Ok(path) => Ok(path)
    case Err(_) =>
      match writeTempFont(FallbackFont)
      case Ok(path) => Ok(path)
      case Err(e) => Err(Kinded(IOError, "failed to load any fonts", Some(e)))
  }

  /** The string drawn at `leftOffsetPercent` of the face width, vertically
      centred, with the justification's anchor. */
  function TextDrawRequest(text: string, fontPath: string, fontSize: real, justification: string,
                           leftOffsetPercent: real, faceHeightRes: nat): DrawRequest
  {
    DrawRequest(text, fontPath, fontSize,
                BaseWidthVoxelResolution as real * leftOffsetPercent, faceHeightRes as real * 0.5,
                JustificationPercent(justification), 0.5,
                BaseWidthVoxelResolution, faceHeightRes)
  }

  /** What `renderText` returns. */
  function RenderedText(env: TextEnv, text: string, justification: string, leftOffsetPercent: real,
                        fontSize: real, baseWidth: real, baseHeight: real): Result<seq<Triangle>>
    requires baseWidth > 0.0 && baseHeight > 0.0
  {
    var faceHeightRes := FaceHeightRes(baseWidth, baseHeight);
    match LoadFont(env.writeTempFont)
    case Err(e) => Err(e)
    case Ok(fontPath) =>
      match env.loadFontFace(fontPath, fontSize)
      case Some(e) => Err(Kinded(IOError, "failed to load font", Some(e)))
      case None =>
        var raster := env.drawStringAnchored(
          TextDrawRequest(text, fontPath, fontSize, justification, leftOffsetPercent, faceHeightRes));
        Voxelize(env.createCube, TextRule(raster), TextPosition,
                 ScanOrder(BaseWidthVoxelResolution, faceHeightRes, false), VoxelDepth, baseWidth, baseHeight)
  }

  /** `renderText`. `cleanedUp` says whether the temporary font file is
      removed: the removal is deferred only after the pixel loops, so every
      error return skips it. */
  method RenderText(env: TextEnv, text: string, justification: string, leftOffsetPercent: real,
                    fontSize: real, baseWidth: real, baseHeight: real)
    returns (r: Result<seq<Triangle>>, cleanedUp: bool)
    requires baseWidth > 0.0 && baseHeight > 0.0
    ensures r == RenderedText(env, text, justification, leftOffsetPercent, fontSize, baseWidth, baseHeight)
    ensures cleanedUp <==> r.Ok?
  {
    var faceWidthRes := BaseWidthVoxelResolution;
    var faceHeightRes := FaceHeightRes(baseWidth, baseHeight);

    var font := env.writeTempFont(PrimaryFont);
    if font.Err? {
      font := env.writeTempFont(FallbackFont);
      if font.Err? {
        return Err(Kinded(IOError, "failed to load any fonts", Some(font.error))), false;
      }
    }
    var loadErr := env.loadFontFace(font.value, fontSize);
    if loadErr.Some? {
      return Err(Kinded(IOError, "failed to load font", Some(loadErr.value))), false;
    }

    var justificationPercent := JustificationPercent(justification);
    var raster := env.drawStringAnchored(DrawRequest(
      text, font.value, fontSize,
      faceWidthRes as real * leftOffsetPercent, faceHeightRes as real * 0.5,
      justificationPercent, 0.5, faceWidthRes, faceHeightRes));

    var scanned := ScanText(env.createCube, raster, faceWidthRes, faceHeightRes, baseWidth, baseHeight);
    if scanned.Err? {
      return scanned, false;
    }
    return scanned, true;
  }

  /** The pixel loops of `renderText`: x from left to right, and within a
      column y from the top row down. */
  method ScanText(createCube: Box -> Result<seq<Triangle>>, raster: Raster, faceWidthRes: nat, faceHeightRes: nat,
                  baseWidth: real, baseHeight: real)
    returns (r: Result<seq<Triangle>>)
    requires baseWidth > 0.0 && baseHeight > 0.0
    ensures r == Voxelize(createCube, TextRule(raster), TextPosition, ScanOrder(faceWidthRes, faceHeightRes, false),
                          VoxelDepth, baseWidth, baseHeight)
  {
    ghost var rule := TextRule(raster);
    var triangles: seq<Triangle> := [];
    var x := 0;
    while x < faceWidthRes
      invariant 0 <= x <= faceWidthRes
      invariant Voxelize(createCube, rule, TextPosition, ScanOrder(x, faceHeightRes, false),
                         VoxelDepth, baseWidth, baseHeight) == Ok(triangles)
    {
      var y := 0;
      ColumnDone(x, faceHeightRes, false);
      while y < faceHeightRes
        invariant 0 <= y <= faceHeightRes
        invariant Voxelize(createCube, rule, TextPosition,
                           ScanOrder(x, faceHeightRes, false) + Column(x, faceHeightRes, false)[..y],
                           VoxelDepth, baseWidth, baseHeight) == Ok(triangles)
      {
        ScanVisit(createCube, rule, TextPosition, x, y, faceWidthRes, faceHeightRes, false, VoxelDepth, baseWidth, baseHeight);
        assert Column(x, faceHeightRes, false)[y] == Pixel(x, y);
        if IsPixelActive(raster, x, y) {
          var voxel := CreateVoxelOnFace(createCube, x as real, y as real, VoxelDepth, baseWidth, baseHeight);
          if voxel.Err? {
            return Err(Kinded(STLError, "failed to create cube", Some(voxel.error)));
          }
          triangles := triangles + voxel.value;
        }
        y := y + 1;
      }
      ColumnDone(x, faceHeightRes, false);
      x := x + 1;
    }
    return Ok(triangles);
  }

  /** The label shown for the user: "anonymous" when the name is empty. */
  function DisplayName(username: string): (name: string)
    ensures name != []
    ensures username == [] ==> name == "anonymous"
    ensures username != [] ==> name == username
  {
    if username == [] then "anonymous" else username
  }

  /** `Create3DText`: the user's label, left-justified, followed by the
      year, right-justified; the first render error is returned. */
  method Create3DText(env: TextEnv, username: string, year: string, baseWidth: real, baseHeight: real)
    returns (r: Result<seq<Triangle>>)
    requires baseWidth > 0.0 && baseHeight > 0.0
    ensures var user := RenderedText(env, DisplayName(username), UsernameJustification, UsernameLeftOffset,
                                     UsernameFontSize, baseWidth, baseHeight);
      var yr := RenderedText(env, year, YearJustification, YearLeftOffset, YearFontSize, baseWidth, baseHeight);
      r == if user.Err? then user else if yr.Err? then yr else Ok(user.value + yr.value)
  {
    var name := DisplayName(username);
    var usernameTriangles, _ := RenderText(env, name, UsernameJustification, UsernameLeftOffset,
                                           UsernameFontSize, baseWidth, baseHeight);
    if usernameTriangles.Err? {
      return usernameTriangles;
    }
    var yearTriangles, _ := RenderText(env, year, YearJustification, YearLeftOffset,
                                       YearFontSize, baseWidth, baseHeight);
    if yearTriangles.Err? {
      return yearTriangles;
    }
    return Ok(usernameTriangles.value + yearTriangles.value);
  }

  // ---------------------------------------------------------------------
  // Logo

  /** A decoded PNG: `bounds.Max` and its pixels. */
  datatype Image = Image(width: nat, height: nat, pixels: Raster)

  /** What the logo path uses from outside: the embedded image written to a
      temporary file, opening and decoding it, building a cube. */
  datatype ImageEnv = ImageEnv(
    getEmbeddedImage: Result<string>,
    openFile: string -> Option<Error>,
    decodePng: string -> Result<Image>,
    createCube: Box -> Result<seq<Triangle>>)

  /** What `renderImage` returns. */
  function RenderedImage(env: ImageEnv, filePath: string, scale: real, height: real, leftOffsetPercent: real,
                         topOffsetPercent: real, baseWidth: real, baseHeight: real): Result<seq<Triangle>>
    requires baseWidth > 0.0 && baseHeight > 0.0
  {
    var faceHeightRes := FaceHeightRes(baseWidth, baseHeight);
    match env.openFile(filePath)
    case Some(e) => Err(Kinded(IOError, "failed to open image", Some(e)))
    case None =>
      match env.decodePng(filePath)
      case Err(e) => Err(Kinded(IOError, "failed to decode PNG", Some(e)))
      case Ok(img) =>
        Voxelize(env.createCube, LogoRule(img.pixels), LogoPlacement(leftOffsetPercent, topOffsetPercent, scale, faceHeightRes),
                 ScanOrder(img.width, img.height, true), height, baseWidth, baseHeight)
  }

  /** `renderImage`: x ascending, and within a column y from the bottom row
      up to the top row. */
  method RenderImage(env: ImageEnv, filePath: string, scale: real, height: real, leftOffsetPercent: real,
                     topOffsetPercent: real, baseWidth: real, baseHeight: real)
    returns (r: Result<seq<Triangle>>)
    requires baseWidth > 0.0 && baseHeight > 0.0
    ensures r == RenderedImage(env, filePath, scale, height, leftOffsetPercent, topOffsetPercent, baseWidth, baseHeight)
  {
    var faceHeightRes := FaceHeightRes(baseWidth, baseHeight);

    var openErr := env.openFile(filePath);
    if openErr.Some? {
      return Err(Kinded(IOError, "failed to open image", Some(openErr.value)));
    }
    var img := env.decodePng(filePath);
    if img.Err? {
      return Err(Kinded(IOError, "failed to decode PNG", Some(img.error)));
    }

    r := ScanLogo(env.createCube, img.value, LogoPlacement(leftOffsetPercent, topOffsetPercent, scale, faceHeightRes),
                  height, baseWidth, baseHeight);
  }

  /** The pixel loops of `renderImage`: x from left to right, and within a
      column y from the bottom row up. */
  method ScanLogo(createCube: Box -> Result<seq<Triangle>>, img: Image, position: Position, height: real,
                  baseWidth: real, baseHeight: real)
    returns (r: Result<seq<Triangle>>)
    requires baseWidth > 0.0 && baseHeight > 0.0
    ensures r == Voxelize(createCube, LogoRule(img.pixels), position,
                          ScanOrder(img.width, img.height, true), height, baseWidth, baseHeight)
  {
    var logoWidth := img.width;
    var logoHeight := img.height;
    ghost var rule := LogoRule(img.pixels);
    var triangles: seq<Triangle> := [];
    var x := 0;
    while x < logoWidth
      invariant 0 <= x <= logoWidth
      invariant Voxelize(createCube, rule, position, ScanOrder(x, logoHeight, true),
                         height, baseWidth, baseHeight) == Ok(triangles)
    {
      var y: int := logoHeight - 1;
      ghost var k: nat := 0;
      ColumnDone(x, logoHeight, true);
      while y >= 0
        invariant 0 <= k <= logoHeight
        invariant y == logoHeight - 1 - k
        invariant Voxelize(createCube, rule, position,
                           ScanOrder(x, logoHeight, true) + Column(x, logoHeight, true)[..k],
                           height, baseWidth, baseHeight) == Ok(triangles)
      {
        ScanVisit(createCube, rule, position, x, k, logoWidth, logoHeight, true, height, baseWidth, baseHeight);
        assert Column(x, logoHeight, true)[k] == Pixel(x, y);
        if IsLogoPixelActive(img.pixels, x, y) {
          var face := position(Pixel(x, y));
          var voxel := CreateVoxelOnFace(createCube, face.0, face.1, height, baseWidth, baseHeight);
          if voxel.Err? {
            return Err(Kinded(STLError, "failed to create cube", Some(voxel.error)));
          }
          triangles := triangles + voxel.value;
        }
        y := y - 1;
        k := k + 1;
      }
      assert k == logoHeight;
      ColumnDone(x, logoHeight, true);
      x := x + 1;
    }
    return Ok(triangles);
  }

  /** `GenerateImageGeometry`: the embedded logo with the fixed scale,
      depth and offsets. `cleanedUp` says whether the temporary image file
      is removed: always, once it was written. */
  method GenerateImageGeometry(env: ImageEnv, baseWidth: real, baseHeight: real)
    returns (r: Result<seq<Triangle>>, cleanedUp: bool)
    requires baseWidth > 0.0 && baseHeight > 0.0
    ensures env.getEmbeddedImage.Err? ==> r == Err(env.getEmbeddedImage.error) && !cleanedUp
    ensures env.getEmbeddedImage.Ok? ==>
              cleanedUp &&
              r == RenderedImage(env, env.getEmbeddedImage.value, LogoScale, VoxelDepth, LogoLeftOffset,
                                 LogoTopOffset, baseWidth, baseHeight)
  {
    var imgPath := env.getEmbeddedImage;
    if imgPath.Err? {
      return Err(imgPath.error), false;
    }
    r := RenderImage(env, imgPath.value, LogoScale, VoxelDepth, LogoLeftOffset, LogoTopOffset, baseWidth, baseHeight);
    cleanedUp := true;
  }
}
