/**
 * The heatmap generator: a drawing surface of RGBA bytes, the gradient it
 * colours with, the grid and point stamping calls it issues to the canvas,
 * and the two in-place passes over the surface's bytes (colorize and
 * makeOpaque).
 */
module Heatmap {
  import opened Wrappers
  import opened JsNumber
  import opened ColorStops
  import opened GradientGenerator

  /** A 2d drawing context, known only by identity. */
  datatype Context = Context(handle: nat)

  /** A canvas: its size and what `getContext("2d")` returns for it (None for null). */
  datatype Canvas = Canvas(width: nat, height: nat, context2d: Option<Context>)

  /** One constructor argument, as a value of one of the types the signature admits. */
  datatype Arg =
    | CanvasArg(canvas: Canvas)
    | ContextArg(context: Context)
    | NumberArg(n: nat)
    | StopsArg(stops: GradientStops)
    | UndefinedArg

  /** What the constructor settles on before it builds the table. */
  datatype Setup = Setup(context: Context, width: nat, height: nat, gradient: GradientStops)

  datatype ConstructError = GetContextReturnedNull | IncorrectNumberOfArguments

  /** An optional gradient argument: absent or undefined, or given stops. */
  predicate OptionalStops(a: Arg) {
    a.UndefinedArg? || a.StopsArg?
  }

  /**
   * The argument lists the two overloads accept, `(canvas, gradient?)` and
   * `(context, width, height, gradient?)`; a list of any other length is left
   * to the constructor's own check.
   */
  predicate WellTypedArgs(args: seq<Arg>) {
    && (|args| == 1 || |args| == 2 ==> args[0].CanvasArg? && (|args| == 2 ==> OptionalStops(args[1])))
    && (|args| == 3 || |args| == 4 ==>
          && args[0].ContextArg? && args[1].NumberArg? && args[2].NumberArg?
          && (|args| == 4 ==> OptionalStops(args[3])))
  }

  /** The gradient argument at position k, the default stops when it is missing or undefined. */
  function GradientArg(args: seq<Arg>, k: nat): (g: GradientStops)
    ensures k < |args| && args[k].StopsArg? ==> g == args[k].stops
    ensures !(k < |args| && args[k].StopsArg?) ==> g == DefaultGradientStops
  {
    if k < |args| && args[k].StopsArg? then args[k].stops else DefaultGradientStops
  }

  /**
   * The constructor's dispatch on the number of arguments: one or two take
   * the size and context from a canvas, and fail when it has no 2d context;
   * three or four take them as given; any other number fails.
   */
  function Dispatch(args: seq<Arg>): (r: Result<Setup, ConstructError>)
    requires WellTypedArgs(args)
    ensures r.Failure? <==> !(1 <= |args| <= 4) || (|args| <= 2 && args[0].canvas.context2d.None?)
    ensures r.Failure? ==> r.error == (if 1 <= |args| <= 4 then GetContextReturnedNull else IncorrectNumberOfArguments)
    ensures r.Success? && |args| <= 2 ==>
      r.value == Setup(args[0].canvas.context2d.value, args[0].canvas.width, args[0].canvas.height, GradientArg(args, 1))
    ensures r.Success? && |args| >= 3 ==>
      r.value == Setup(args[0].context, args[1].n, args[2].n, GradientArg(args, 3))
  {
    if |args| == 1 || |args| == 2 then
      var canvas := args[0].canvas;
      match canvas.context2d
      case None => Failure(GetContextReturnedNull)
      case Some(context) => Success(Setup(context, canvas.width, canvas.height, GradientArg(args, 1)))
    else if |args| == 3 || |args| == 4 then
      Success(Setup(args[0].context, args[1].n, args[2].n, GradientArg(args, 3)))
    else
      Failure(IncorrectNumberOfArguments)
  }

  /** The rectangle `fillRect` is given: corner, width, height. */
  datatype Rect = Rect(x: real, y: real, w: real, h: real)

  /** One drawPoint on the canvas: the radial gradient's centre, radii and strength, and the rectangle filled. */
  datatype PointCall = PointCall(x: real, y: real, r1: real, r2: real, alpha: real, fill: Rect)

  /** `Math.max` of two numbers: the larger of the two. */
  function Max(a: real, b: real): (m: real)
    ensures m >= a && m >= b && (m == a || m == b)
  {
    if a >= b then a else b
  }

  /**
   * The square drawPoint fills: centred on (x, y), its half side the larger
   * radius, so the smallest such square around both circles.
   */
  function FillSquare(x: real, y: real, r1: real, r2: real): (rect: Rect)
    ensures rect.w == rect.h
    ensures rect.x + rect.w / 2.0 == x && rect.y + rect.h / 2.0 == y
    ensures rect.w / 2.0 >= r1 && rect.w / 2.0 >= r2
    ensures rect.w / 2.0 == r1 || rect.w / 2.0 == r2
  {
    var fullRadius := Max(r1, r2);
    Rect(x - fullRadius, y - fullRadius, fullRadius * 2.0, fullRadius * 2.0)
  }

  /** drawPointGrid's optional radii, as fractions of the average cell size. */
  datatype GridOptions = GridOptions(radius1: Option<real>, radius2: Option<real>)

  /** The number of columns: the length of the first row, 0 when there are no rows. */
  function Columns(data: seq<seq<real>>): (n: nat)
    ensures n > 0 <==> |data| > 0 && |data[0]| > 0
    ensures |data| > 0 ==> n == |data[0]|
  {
    if |data| == 0 then 0 else |data[0]|
  }

  /** The value of a cell, 0 when its row is too short. */
  function CellValue(data: seq<seq<real>>, r: nat, c: nat): (v: real)
    requires r < |data|
    ensures c < |data[r]| ==> v == data[r][c]
    ensures |data[r]| <= c ==> v == 0.0
  {
    if c < |data[r]| then data[r][c] else 0.0
  }

  /** The cell size and the two radii every call of a grid shares. */
  datatype GridGeometry = GridGeometry(columnWidth: real, rowHeight: real, r1: real, r2: real)

  /**
   * The geometry of a grid: on a surface with area the cells have a positive
   * size, and with the default options the outer radius is three times the
   * inner one. The exact sizes and radii are in GeometryTiles.
   */
  function Geometry(data: seq<seq<real>>, options: GridOptions, width: nat, height: nat): (g: GridGeometry)
    requires Columns(data) > 0
    ensures width > 0 && height > 0 ==> g.columnWidth > 0.0 && g.rowHeight > 0.0
    ensures options.radius1.None? && options.radius2.None? ==> g.r2 == 3.0 * g.r1
  {
    var columnWidth := width as real / Columns(data) as real;
    var rowHeight := height as real / |data| as real;
    var averageScale := (columnWidth + rowHeight) / 2.0;
    GridGeometry(columnWidth, rowHeight, averageScale * options.radius1.GetOr(0.25), averageScale * options.radius2.GetOr(0.75))
  }

  /**
   * The cells tile the surface, and the radii are the given fractions (0.25
   * and 0.75 by default) of the average of a cell's width and height.
   */
  lemma GeometryTiles(data: seq<seq<real>>, options: GridOptions, width: nat, height: nat)
    requires Columns(data) > 0
    ensures var g := Geometry(data, options, width, height);
      && g.columnWidth * Columns(data) as real == width as real
      && g.rowHeight * |data| as real == height as real
      && g.r1 == (g.columnWidth + g.rowHeight) / 2.0 * options.radius1.GetOr(0.25)
      && g.r2 == (g.columnWidth + g.rowHeight) / 2.0 * options.radius2.GetOr(0.75)
  {
  }

  /**
   * The centre of cell `index` along an axis of cells of the given size: halfway
   * between the cell's two edges, and inside the cell when the size is not negative.
   */
  function Centre(index: nat, size: real): (p: real)
    ensures p - index as real * size == (index + 1) as real * size - p
    ensures size >= 0.0 ==> index as real * size <= p <= (index + 1) as real * size
  {
    assert (index as real + 0.5) * size == index as real * size + 0.5 * size;
    assert (index + 1) as real * size == index as real * size + size;
    (index as real + 0.5) * size
  }

  /** The call for cell (r, c): centred in the cell, with that cell's value as strength. */
  function CellCall(data: seq<seq<real>>, g: GridGeometry, r: nat, c: nat): (call: PointCall)
    requires r < |data|
    ensures call.x == Centre(c, g.columnWidth) && call.y == Centre(r, g.rowHeight)
    ensures call.r1 == g.r1 && call.r2 == g.r2 && call.alpha == CellValue(data, r, c)
    ensures call.fill == FillSquare(call.x, call.y, g.r1, g.r2)
  {
    var x := Centre(c, g.columnWidth);
    var y := Centre(r, g.rowHeight);
    PointCall(x, y, g.r1, g.r2, CellValue(data, r, c), FillSquare(x, y, g.r1, g.r2))
  }

  /** The calls for the first `c` cells of row r, left to right. */
  function RowCalls(data: seq<seq<real>>, g: GridGeometry, r: nat, c: nat): (cs: seq<PointCall>)
    requires r < |data|
    ensures |cs| == c
  {
    if c == 0 then [] else RowCalls(data, g, r, c - 1) + [CellCall(data, g, r, c - 1)]
  }

  /** The calls for the first `rows` rows, each of `columns` cells, row after row. */
  function RowsCalls(data: seq<seq<real>>, g: GridGeometry, rows: nat, columns: nat): (cs: seq<PointCall>)
    requires rows <= |data|
    ensures |cs| == rows * columns
  {
    if rows == 0 then [] else RowsCalls(data, g, rows - 1, columns) + RowCalls(data, g, rows - 1, columns)
  }

  /** Every call drawPointGrid issues, in order. */
  function GridCalls(data: seq<seq<real>>, options: GridOptions, width: nat, height: nat): (cs: seq<PointCall>)
    ensures |cs| == if width == 0 || height == 0 then 0 else |data| * Columns(data)
  {
    if width == 0 || height == 0 || Columns(data) == 0 then []
    else RowsCalls(data, Geometry(data, options, width, height), |data|, Columns(data))
  }

  /** Call k of a row is the one for column k. */
  lemma {:induction false} RowCallAt(data: seq<seq<real>>, g: GridGeometry, r: nat, c: nat, k: nat)
    requires r < |data| && k < c
    ensures RowCalls(data, g, r, c)[k] == CellCall(data, g, r, k)
  {
    if k < c - 1 {
      RowCallAt(data, g, r, c - 1, k);
    }
  }

  /** Row-major order: the call for cell (r, c) is call r * columns + c. */
  lemma {:induction false} RowsCallAt(data: seq<seq<real>>, g: GridGeometry, rows: nat, columns: nat, r: nat, c: nat)
    requires rows <= |data| && r < rows && c < columns
    ensures r * columns + c < rows * columns
    ensures RowsCalls(data, g, rows, columns)[r * columns + c] == CellCall(data, g, r, c)
  {
    assert r * columns + c < (r + 1) * columns <= rows * columns by {
      MulMonotone(r + 1, rows, columns);
    }
    var before := RowsCalls(data, g, rows - 1, columns);
    if r < rows - 1 {
      RowsCallAt(data, g, rows - 1, columns, r, c);
    } else {
      assert |before| == r * columns;
      RowCallAt(data, g, r, columns, c);
    }
  }

  lemma MulMonotone(a: nat, b: nat, c: nat)
    requires a <= b
    ensures a * c <= b * c
  {
  }

  /**
   * drawPointGrid on a surface with area: rows × columns calls, the call for
   * cell (r, c) at index r * columns + c, centred in that cell, sharing the
   * two radii, with the cell's value (0 when missing) as strength.
   */
  lemma GridCallAt(data: seq<seq<real>>, options: GridOptions, width: nat, height: nat, r: nat, c: nat)
    requires width > 0 && height > 0 && r < |data| && c < Columns(data)
    ensures var calls := GridCalls(data, options, width, height);
      var g := Geometry(data, options, width, height);
      && |calls| == |data| * Columns(data)
      && r * Columns(data) + c < |calls|
      && calls[r * Columns(data) + c] == PointCall(
           Centre(c, g.columnWidth), Centre(r, g.rowHeight), g.r1, g.r2,
           CellValue(data, r, c),
           FillSquare(Centre(c, g.columnWidth), Centre(r, g.rowHeight), g.r1, g.r2))
  {
    RowsCallAt(data, Geometry(data, options, width, height), |data|, Columns(data), r, c);
  }

  /** With no area, no rows or an empty first row, drawPointGrid issues no call. */
  lemma GridWithoutCells(data: seq<seq<real>>, options: GridOptions, width: nat, height: nat)
    requires width == 0 || height == 0 || Columns(data) == 0
    ensures GridCalls(data, options, width, height) == []
  {
  }

  /** The byte a colour table holds at index k; reading past its end gives undefined, stored as 0. */
  function Lookup(table: seq<Byte>, k: nat): (b: Byte)
    ensures k < |table| ==> b == table[k]
    ensures k >= |table| ==> b == 0
  {
    if k < |table| then table[k] else 0
  }

  /** The four bytes colorize writes for a pixel whose alpha byte is `strength`. */
  function PixelColor(table: seq<Byte>, strength: Byte): (e: seq<Byte>)
    ensures |e| == 4
  {
    [ Lookup(table, strength as int * 4 + 0), Lookup(table, strength as int * 4 + 1),
      Lookup(table, strength as int * 4 + 2), Lookup(table, strength as int * 4 + 3) ]
  }

  /**
   * The surface after colorize. A surface is its pixels in order, four bytes
   * each (red, green, blue, alpha); every pixel becomes the table entry its
   * alpha byte selects. (A surface always holds whole pixels; bytes short of
   * a whole pixel would be left as they are.)
   */
  function Colorized(data: seq<Byte>, table: seq<Byte>): (r: seq<Byte>)
    ensures |r| == |data|
    decreases |data|
  {
    if |data| < 4 then data else PixelColor(table, data[3]) + Colorized(data[4..], table)
  }

  /** The surface after makeOpaque: every alpha byte 255. */
  function Opaque(data: seq<Byte>): (r: seq<Byte>)
    ensures |r| == |data|
    decreases |data|
  {
    if |data| < 4 then data else data[..3] + [255] + Opaque(data[4..])
  }

  /** Colourising a surface is colourising its first pixels, then the rest. */
  lemma {:induction false} ColorizedAppend(a: seq<Byte>, b: seq<Byte>, table: seq<Byte>)
    requires |a| % 4 == 0 && |b| % 4 == 0
    ensures Colorized(a + b, table) == Colorized(a, table) + Colorized(b, table)
    decreases |a|
  {
    if |a| == 0 {
      assert a + b == b;
    } else {
      assert (a + b)[3] == a[3] && (a + b)[4..] == a[4..] + b;
      ColorizedAppend(a[4..], b, table);
    }
  }

  /** One more pixel, as the colorize loop takes it. */
  lemma ColorizedStep(prefix: seq<Byte>, pixel: seq<Byte>, table: seq<Byte>)
    requires |prefix| % 4 == 0 && |pixel| == 4
    ensures Colorized(prefix + pixel, table) == Colorized(prefix, table) + PixelColor(table, pixel[3])
  {
    ColorizedAppend(prefix, pixel, table);
    assert pixel[4..] == [];
  }

  /** Making a surface opaque is making its first pixels opaque, then the rest. */
  lemma {:induction false} OpaqueAppend(a: seq<Byte>, b: seq<Byte>)
    requires |a| % 4 == 0 && |b| % 4 == 0
    ensures Opaque(a + b) == Opaque(a) + Opaque(b)
    decreases |a|
  {
    if |a| == 0 {
      assert a + b == b;
    } else {
      assert (a + b)[..3] == a[..3] && (a + b)[4..] == a[4..] + b;
      OpaqueAppend(a[4..], b);
    }
  }

  /** One more pixel, as the makeOpaque loop takes it. */
  lemma OpaqueStep(prefix: seq<Byte>, pixel: seq<Byte>)
    requires |prefix| % 4 == 0 && |pixel| == 4
    ensures Opaque(prefix + pixel) == Opaque(prefix) + pixel[..3] + [255]
  {
    OpaqueAppend(prefix, pixel);
    assert pixel[4..] == [];
  }

  /**
   * Pixel p after colorize is the table entry selected by that pixel's old
   * alpha byte, whatever its colour bytes were.
   */
  lemma {:induction false} ColorizedPixel(data: seq<Byte>, table: seq<Byte>, p: nat)
    requires 4 * p + 4 <= |data|
    ensures Colorized(data, table)[4 * p..4 * p + 4] == PixelColor(table, data[4 * p + 3])
    decreases p
  {
    var first := PixelColor(table, data[3]);
    var rest := Colorized(data[4..], table);
    assert Colorized(data, table) == first + rest;
    if p == 0 {
      assert (first + rest)[0..4] == first;
    } else {
      ColorizedPixel(data[4..], table, p - 1);
      assert (first + rest)[4 * p..4 * p + 4] == rest[4 * (p - 1)..4 * (p - 1) + 4];
      assert data[4..][4 * (p - 1) + 3] == data[4 * p + 3];
    }
  }

  /** Looking up a generated, 1024-byte table gives exactly the entry for that strength. */
  lemma FullTableLookup(table: seq<Byte>, strength: Byte)
    requires |table| == 1024
    ensures PixelColor(table, strength) == EntryOf(table, strength)
  {
  }

  /**
   * colorize with a gradient's table: pixel p becomes the gradient's entry for
   * the pixel's old alpha byte.
   */
  lemma ColorizeWithGradient(data: seq<Byte>, spec: GradientStops, p: nat)
    requires 4 * p + 4 <= |data|
    ensures Colorized(data, GradientTable(spec))[4 * p..4 * p + 4] == EntryOf(GradientTable(spec), data[4 * p + 3])
  {
    ColorizedPixel(data, GradientTable(spec), p);
    FullTableLookup(GradientTable(spec), data[4 * p + 3]);
  }

  /** colorize reads only the alpha bytes: surfaces that agree on them colourise alike. */
  lemma {:induction false} ColorizeReadsOnlyAlpha(a: seq<Byte>, b: seq<Byte>, table: seq<Byte>)
    requires |a| == |b| && |a| % 4 == 0
    requires forall k :: 0 <= k < |a| && k % 4 == 3 ==> a[k] == b[k]
    ensures Colorized(a, table) == Colorized(b, table)
    decreases |a|
  {
    if |a| > 0 {
      assert a[3] == b[3];
      forall k | 0 <= k < |a| - 4 && k % 4 == 3
        ensures a[4..][k] == b[4..][k]
      {
        assert a[k + 4] == b[k + 4];
      }
      ColorizeReadsOnlyAlpha(a[4..], b[4..], table);
    }
  }

  /** Pixel p after makeOpaque: its colour bytes as they were and alpha 255. */
  lemma {:induction false} OpaquePixel(data: seq<Byte>, p: nat)
    requires 4 * p + 4 <= |data|
    ensures Opaque(data)[4 * p..4 * p + 4] == data[4 * p..4 * p + 3] + [255]
    decreases p
  {
    if p > 0 {
      var rest := Opaque(data[4..]);
      OpaquePixel(data[4..], p - 1);
      assert Opaque(data)[4 * p..4 * p + 4] == rest[4 * (p - 1)..4 * (p - 1) + 4];
      assert data[4..][4 * (p - 1)..4 * (p - 1) + 3] == data[4 * p..4 * p + 3];
    }
  }

  /** Making a surface opaque twice is making it opaque once. */
  lemma {:induction false} OpaqueIdempotent(data: seq<Byte>)
    requires |data| % 4 == 0
    ensures Opaque(Opaque(data)) == Opaque(data)
    decreases |data|
  {
    if |data| > 0 {
      var once := Opaque(data);
      assert once[..3] == data[..3] && once[4..] == Opaque(data[4..]);
      OpaqueIdempotent(data[4..]);
    }
  }

  /** The number of bytes of a width × height surface, four per pixel. */
  function SurfaceBytes(width: nat, height: nat): (n: nat)
    ensures n % 4 == 0
    ensures n == 0 <==> width == 0 || height == 0
  {
    4 * (width * height)
  }

  /** What colorize is told to colour with: a ready table, or stops to build one from. */
  datatype ColorizeSource = TableSource(table: seq<Byte>) | StopsSource(stops: GradientStops)

  class HeatmapGenerator {
    const context: Context
    const width: nat
    const height: nat
    /** The surface's bytes, 4 per pixel (red, green, blue, alpha), row by row. */
    const pixels: array<Byte>
    var gradientData: seq<Byte>
    var userGradient: GradientStops
    /** The drawPoint calls issued to the context so far. */
    var calls: seq<PointCall>

    /** The surface holds width × height pixels and the cached table is the stored gradient's. */
    ghost predicate Valid()
      reads this
    {
      && pixels.Length == SurfaceBytes(width, height)
      && gradientData == GradientTable(userGradient)
    }

    /** The constructor once the arguments are dispatched: the table is built from the chosen gradient. */
    constructor (setup: Setup)
      ensures Valid() && fresh(pixels)
      ensures context == setup.context && width == setup.width && height == setup.height
      ensures userGradient == setup.gradient && calls == []
    {
      var table := GenerateGradient(Some(setup.gradient));
      context := setup.context;
      width := setup.width;
      height := setup.height;
      pixels := new Byte[SurfaceBytes(setup.width, setup.height)](_ => 0);
      userGradient := setup.gradient;
      gradientData := table;
      calls := [];
    }

    /** `new HeatmapGenerator(...args)`: the generator, or the error the constructor throws. */
    static method Create(args: seq<Arg>) returns (r: Result<HeatmapGenerator, ConstructError>)
      requires WellTypedArgs(args)
      ensures r.Failure? <==> Dispatch(args).Failure?
      ensures r.Failure? ==> r.error == Dispatch(args).error
      ensures r.Success? ==>
        && fresh(r.value) && r.value.Valid() && r.value.calls == []
        && r.value.context == Dispatch(args).value.context
        && r.value.width == Dispatch(args).value.width
        && r.value.height == Dispatch(args).value.height
        && r.value.userGradient == Dispatch(args).value.gradient
        && r.value.gradientData == GradientTable(Dispatch(args).value.gradient)
    {
      var d := Dispatch(args);
      match d
      case Failure(e) =>
        r := Failure(e);
      case Success(setup) =>
        var h := new HeatmapGenerator(setup);
        r := Success(h);
    }

    /** The `gradient` getter: the stops last given. */
    function Gradient(): (g: GradientStops)
      reads this
      requires Valid()
      ensures GradientTable(g) == gradientData
    {
      userGradient
    }

    /** The `gradient` setter: the stops and the table built from them change together. */
    method SetGradient(value: GradientStops)
      requires Valid()
      modifies this
      ensures Valid() && Gradient() == value && gradientData == GradientTable(value)
      ensures calls == old(calls)
    {
      gradientData := GenerateGradient(Some(value));
      userGradient := value;
    }

    /**
     * drawPoint: on a surface with area, one call to the context, centred on
     * (x, y), filling the square around the outer radius. The canvas paints
     * the surface's bytes; what it paints there is left open.
     */
    method DrawPoint(x: real, y: real, r1: real, r2: real, alpha: real)
      modifies this`calls, pixels
      ensures width == 0 || height == 0 ==> unchanged(pixels)
      ensures calls == if width == 0 || height == 0 then old(calls)
                       else old(calls) + [PointCall(x, y, r1, r2, alpha, FillSquare(x, y, r1, r2))]
    {
      if width == 0 || height == 0 {
        return;
      }
      var fullRadius := Max(r1, r2);
      calls := calls + [PointCall(x, y, r1, r2, alpha, Rect(x - fullRadius, y - fullRadius, fullRadius * 2.0, fullRadius * 2.0))];
    }

    /** drawPointGrid: one drawPoint per cell, row after row, left to right. */
    method DrawPointGrid(data: seq<seq<real>>, options: GridOptions)
      modifies this`calls, pixels
      ensures width == 0 || height == 0 ==> unchanged(pixels)
      ensures GridCalls(data, options, width, height) == [] ==> unchanged(pixels)
      ensures calls == old(calls) + GridCalls(data, options, width, height)
    {
      if width == 0 || height == 0 {
        return;
      }
      var rows := |data|;
      var columns := if rows > 0 then |data[0]| else 0;
      if columns == 0 {
        // the cell width is width / 0 here, but neither loop body runs
        return;
      }
      var columnWidth := width as real / columns as real;
      var rowHeight := height as real / rows as real;
      var averageScale := (columnWidth + rowHeight) / 2.0;
      var r1 := averageScale * options.radius1.GetOr(0.25);
      var r2 := averageScale * options.radius2.GetOr(0.75);
      ghost var g := GridGeometry(columnWidth, rowHeight, r1, r2);
      assert g == Geometry(data, options, width, height);
      for r := 0 to rows
        invariant calls == old(calls) + RowsCalls(data, g, r, columns)
      {
        ghost var rowStart := calls;
        for c := 0 to columns
          invariant calls == rowStart + RowCalls(data, g, r, c)
        {
          var x := Centre(c, columnWidth);
          var y := Centre(r, rowHeight);
          var value := if c < |data[r]| then data[r][c] else 0.0;
          ghost var before := calls;
          assert CellCall(data, g, r, c) == PointCall(x, y, r1, r2, value, FillSquare(x, y, r1, r2));
          DrawPoint(x, y, r1, r2, value);
          assert calls == before + [CellCall(data, g, r, c)];
        }
        assert RowsCalls(data, g, r + 1, columns) == RowsCalls(data, g, r, columns) + RowCalls(data, g, r, columns);
      }
    }

    /** The table colorize colours with: the cached one, the one given, or one built from the stops given. */
    function ColorizeTable(gradient: Option<ColorizeSource>): (t: seq<Byte>)
      reads this
      requires Valid()
      ensures gradient.None? ==> t == GradientTable(userGradient)
      ensures gradient.Some? && gradient.value.TableSource? ==> t == gradient.value.table
      ensures gradient.Some? && gradient.value.StopsSource? ==> t == GradientTable(gradient.value.stops)
    {
      match gradient
      case None => gradientData
      case Some(TableSource(table)) => table
      case Some(StopsSource(stops)) => GradientTable(stops)
    }

    /**
     * colorize: every pixel's four bytes become the table entry its alpha
     * byte selects. The `transparent` option changes nothing, and neither
     * the stored gradient nor its table changes.
     */
    method Colorize(gradient: Option<ColorizeSource>, transparent: bool)
      requires Valid()
      modifies pixels
      ensures pixels[..] == Colorized(old(pixels[..]), ColorizeTable(gradient))
      decreases if gradient.Some? && gradient.value.StopsSource? then 1 else 0
    {
      if gradient.Some? && gradient.value.StopsSource? {
        var table := GenerateGradient(Some(gradient.value.stops));
        Colorize(Some(TableSource(table)), transparent);
        return;
      }
      var table := if gradient.None? then gradientData else gradient.value.table;
      if width == 0 || height == 0 {
        assert pixels.Length == 0;
        assert pixels[..] == [];
        return;
      }
      ColorizePixels(pixels, width * height, table);
    }

    /** makeOpaque: every alpha byte becomes 255 and nothing else changes. */
    method MakeOpaque()
      requires Valid()
      modifies pixels
      ensures pixels[..] == Opaque(old(pixels[..]))
    {
      if width == 0 || height == 0 {
        assert pixels.Length == 0;
        assert pixels[..] == [];
        return;
      }
      OpaquePixels(pixels, width * height);
    }
  }

  /** The pieces of a sequence made of three parts. */
  lemma Parts<T>(a: seq<T>, b: seq<T>, c: seq<T>)
    ensures (a + b + c)[..|a|] == a
    ensures (a + b + c)[|a| + |b|..] == c
  {
    assert (a + b + c)[..|a|] == a;
    assert (a + b + c)[|a| + |b|..] == c;
  }

  /** An update inside the middle part of a sequence made of three parts. */
  lemma UpdateMiddle<T>(a: seq<T>, b: seq<T>, c: seq<T>, j: nat, v: T)
    requires j < |b|
    ensures (a + b + c)[|a| + j := v] == a + b[j := v] + c
  {
  }

  /** One turn of the colorize loop: pixel p is replaced by its colour. */
  lemma ColorizeTurn(original: seq<Byte>, current: seq<Byte>, gradient: seq<Byte>, p: nat)
    requires 4 * p + 4 <= |original|
    requires current == Colorized(original[..4 * p], gradient) + original[4 * p..]
    ensures current[4 * p + 3] == original[4 * p + 3]
    ensures current[..4 * p] + PixelColor(gradient, current[4 * p + 3]) + current[4 * p + 4..]
         == Colorized(original[..4 * p + 4], gradient) + original[4 * p + 4..]
  {
    var done := Colorized(original[..4 * p], gradient);
    var pixel := original[4 * p..4 * p + 4];
    var rest := original[4 * p + 4..];
    assert original[..4 * p + 4] == original[..4 * p] + pixel;
    assert current == done + pixel + rest;
    Parts(done, pixel, rest);
    ColorizedStep(original[..4 * p], pixel, gradient);
  }

  /** One turn of the makeOpaque loop: the alpha byte of pixel p becomes 255. */
  lemma OpaqueTurn(original: seq<Byte>, current: seq<Byte>, p: nat)
    requires 4 * p + 4 <= |original|
    requires current == Opaque(original[..4 * p]) + original[4 * p..]
    ensures current[4 * p + 3 := 255] == Opaque(original[..4 * p + 4]) + original[4 * p + 4..]
  {
    var done := Opaque(original[..4 * p]);
    var pixel := original[4 * p..4 * p + 4];
    var rest := original[4 * p + 4..];
    assert original[..4 * p + 4] == original[..4 * p] + pixel;
    assert current == done + pixel + rest;
    UpdateMiddle(done, pixel, rest, 3, 255);
    assert pixel[3 := 255] == pixel[..3] + [255];
    OpaqueStep(original[..4 * p], pixel);
  }

  /**
   * The colorize loop over the bytes of a surface of `count` pixels: byte
   * index i = 4 * p runs over the pixels in steps of 4.
   */
  method ColorizePixels(data: array<Byte>, count: nat, gradient: seq<Byte>)
    requires data.Length == 4 * count
    modifies data
    ensures data[..] == Colorized(old(data[..]), gradient)
  {
    ghost var original := data[..];
    for p := 0 to count
      invariant data[..] == Colorized(original[..4 * p], gradient) + original[4 * p..]
    {
      var i := 4 * p;
      ghost var current := data[..];
      ColorizeTurn(original, current, gradient, p);
      var strength := data[i + 3];
      var red := Lookup(gradient, strength as int * 4 + 0);
      var green := Lookup(gradient, strength as int * 4 + 1);
      var blue := Lookup(gradient, strength as int * 4 + 2);
      var alpha := Lookup(gradient, strength as int * 4 + 3);
      assert [red, green, blue, alpha] == PixelColor(gradient, strength);
      StorePixel(data, i, red, green, blue, alpha);
      assert data[..] == current[..i] + PixelColor(gradient, current[i + 3]) + current[i + 4..];
    }
    assert original == original[..4 * count];
  }

  /** The four stores of one pixel's bytes, at i .. i + 3. */
  method StorePixel(data: array<Byte>, i: nat, red: Byte, green: Byte, blue: Byte, alpha: Byte)
    requires i + 4 <= data.Length
    modifies data
    ensures data[..] == old(data[..i]) + [red, green, blue, alpha] + old(data[i + 4..])
  {
    data[i + 0] := red;
    data[i + 1] := green;
    data[i + 2] := blue;
    data[i + 3] := alpha;
  }

  /** The makeOpaque loop over the bytes of a surface of `count` pixels. */
  method OpaquePixels(data: array<Byte>, count: nat)
    requires data.Length == 4 * count
    modifies data
    ensures data[..] == Opaque(old(data[..]))
  {
    ghost var original := data[..];
    for p := 0 to count
      invariant data[..] == Opaque(original[..4 * p]) + original[4 * p..]
    {
      var i := 4 * p;
      OpaqueTurn(original, data[..], p);
      data[i + 3] := 255;
    }
    assert original == original[..4 * count];
  }
}
