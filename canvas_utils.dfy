/** The canvas code of the meme generator (utils/canvasUtils.ts): shrinking an
    image before upload, and rendering a meme (the photo resized for storage,
    a top caption hung from the top edge and a bottom caption standing on the
    bottom edge). Image decoding, text measuring and encoding belong to the
    browser and are parameters. Sizes are exact rationals. */
module CanvasUtils {
  import opened MemeTypes
  import opened TextOps
  import opened Layout

  const Jpeg: string := "image/jpeg"
  /** Defaults of `compressImage`. */
  const CompressMaxWidth: nat := 800
  const CompressQuality: real := 0.7
  /** Default maximum width of `drawMemeOnCanvas`, and its JPEG quality. */
  const MemeMaxWidth: nat := 1200
  const MemeQuality: real := 0.8
  /** Horizontal room kept free beside a caption, in pixels. */
  const CaptionMargin: real := 40.0

  /** Pixel size of a decoded image. */
  datatype ImageSize = ImageSize(width: nat, height: nat)

  /** Size of a canvas. */
  datatype Size = Size(width: real, height: real)

  datatype Baseline = Alphabetic | Top | Bottom

  /** The drawing calls the code makes on a canvas, in order. */
  datatype DrawOp =
    | ImageDrawn(source: string, width: real, height: real)
    | TextFilled(text: string, x: real, y: real, baseline: Baseline)
    | TextStroked(text: string, x: real, y: real, baseline: Baseline)

  /** The text settings of a context: font size in pixels, fill and stroke
      colours, outline width and alignment. */
  datatype TextStyle = TextStyle(fontPx: nat, fill: string, stroke: string, lineWidth: real, align: string)

  /** The settings of a fresh 2D context. */
  const DefaultStyle := TextStyle(10, "#000000", "#000000", 1.0, "start")

  /** What `toDataURL(mime, quality)` encodes: the requested format, the
      canvas size, the final text settings and everything drawn. */
  datatype Picture = Picture(mime: string, quality: real, width: real, height: real,
                             style: TextStyle, ops: seq<DrawOp>)

  /** The browser facilities the canvas code relies on. */
  datatype Browser = Browser(
    /** Loading an image from a URL: its size, or None when `onerror` fires. */
    decode: string -> Option<ImageSize>,
    /** Whether `getContext("2d")` yields a context. */
    hasContext: bool,
    /** `measureText(text).width` under the bold caption font of the given size. */
    textWidth: (nat, string) -> real,
    /** `toDataURL`: the data URL of an encoded picture. */
    encode: Picture -> string)

  /** The value an image's `onerror` rejects with: an event, which has
      neither a name nor a message. */
  const ImageLoadError := Failure("", "")
  const CompressContextError := Failure("Error", "Failed to get canvas context")
  const MemeContextError := Failure("Error", "Could not get canvas context")

  function Min(a: nat, b: nat): nat
  {
    if a <= b then a else b
  }

  /** The resize rule shared by both operations: an image wider than
      `maxWidth` is narrowed to `maxWidth`, keeping its aspect ratio; any
      other image keeps its size. */
  function FitWidth(width: nat, height: nat, maxWidth: nat): (s: Size)
    ensures s.width == Min(width, maxWidth) as real
    ensures s.height * width as real == height as real * s.width
    ensures 0.0 <= s.height <= height as real
    ensures width <= maxWidth ==> s == Size(width as real, height as real)
  {
    if width > maxWidth then
      var h := (height as real * maxWidth as real) / width as real;
      assert h * width as real == height as real * maxWidth as real;
      ScaledDown(height as real, maxWidth as real, width as real);
      Size(maxWidth as real, h)
    else
      Size(width as real, height as real)
  }

  /** Scaling a length by `part / whole` with `part < whole` does not make it
      longer. */
  lemma ScaledDown(length: real, part: real, whole: real)
    requires 0.0 <= length && 0.0 <= part < whole
    ensures 0.0 <= (length * part) / whole <= length
  {
    var q := part / whole;
    assert 0.0 <= q < 1.0;
    assert (length * part) / whole == length * q;
    assert length * q <= length * 1.0;
  }

  /** Text metrics derived from the canvas size. */
  datatype Metrics = Metrics(fontSize: nat, strokeWidth: real, lineHeight: real, padding: real)

  /** Font size is a twelfth of the width rounded down; the outline is a
      fifteenth of the font size, a line 1.1 font sizes, the padding 5% of the
      height. */
  function MetricsFor(s: Size): Metrics
    requires s.width >= 0.0
  {
    var f := (s.width / 12.0).Floor;
    Metrics(f, f as real / 15.0, f as real * 1.1, s.height * 0.05)
  }

  /** The metrics in exact terms: the font size is the whole number of
      twelfths in the width, and the other three are fixed multiples. */
  lemma MetricsRule(s: Size)
    requires s.width >= 0.0
    ensures var m := MetricsFor(s);
            && 12.0 * m.fontSize as real <= s.width < 12.0 * (m.fontSize + 1) as real
            && 15.0 * m.strokeWidth == m.fontSize as real
            && 10.0 * m.lineHeight == 11.0 * m.fontSize as real
            && 20.0 * m.padding == s.height
  {
  }

  /** The text metric of a context whose font is `px` pixels. */
  function FontMeasure(textWidth: (nat, string) -> real, px: nat): string -> real
  {
    s => textWidth(px, s)
  }

  /** A caption's lines: its words, cut at single spaces, wrapped greedily. */
  function CaptionLines(measure: string -> real, maxWidth: real, text: string): seq<string>
  {
    Wrap(Split(text, ' '), measure, maxWidth)
  }

  /** The calls that draw `lines` one below the other from `y` on, `lineHeight`
      apart, each line filled and then outlined. */
  function LineOps(lines: seq<string>, x: real, y: real, lineHeight: real, base: Baseline): (ops: seq<DrawOp>)
    ensures |ops| == 2 * |lines|
    decreases |lines|
  {
    if lines == [] then []
    else
      var k := |lines| - 1;
      var yk := y + k as real * lineHeight;
      LineOps(lines[..k], x, y, lineHeight, base)
        + [TextFilled(lines[k], x, yk, base), TextStroked(lines[k], x, yk, base)]
  }

  /** Line `i` is filled and then outlined at height `y + i * lineHeight`. */
  lemma {:induction false} LineOpsAt(lines: seq<string>, x: real, y: real, lineHeight: real,
                                     base: Baseline, i: nat)
    requires i < |lines|
    ensures LineOps(lines, x, y, lineHeight, base)[2 * i]
              == TextFilled(lines[i], x, y + i as real * lineHeight, base)
    ensures LineOps(lines, x, y, lineHeight, base)[2 * i + 1]
              == TextStroked(lines[i], x, y + i as real * lineHeight, base)
    decreases |lines|
  {
    var k := |lines| - 1;
    if i < k {
      LineOpsAt(lines[..k], x, y, lineHeight, base, i);
    }
  }

  /** Drawing one more line appends its fill and its outline. */
  lemma LineOpsSnoc(lines: seq<string>, line: string, x: real, y: real, lineHeight: real, base: Baseline)
    ensures LineOps(lines + [line], x, y, lineHeight, base)
            == LineOps(lines, x, y, lineHeight, base)
               + [TextFilled(line, x, y + |lines| as real * lineHeight, base),
                  TextStroked(line, x, y + |lines| as real * lineHeight, base)]
  {
    var ls := lines + [line];
    assert ls[..|lines|] == lines && ls[|lines|] == line && |ls| - 1 == |lines|;
    var yk := y + |lines| as real * lineHeight;
    assert LineOps(ls, x, y, lineHeight, base)
           == LineOps(ls[..|lines|], x, y, lineHeight, base)
              + [TextFilled(ls[|lines|], x, yk, base), TextStroked(ls[|lines|], x, yk, base)];
  }

  /** A drawing log that ends with the calls for `lines`, extended by the
      calls for `line` at the next height, ends with the calls for
      `lines + [line]`. */
  lemma DrawNextLine(prefix: seq<DrawOp>, lines: seq<string>, line: string,
                     x: real, y: real, lineHeight: real, base: Baseline, yl: real)
    requires yl == y + |lines| as real * lineHeight
    ensures prefix + LineOps(lines, x, y, lineHeight, base)
              + [TextFilled(line, x, yl, base), TextStroked(line, x, yl, base)]
            == prefix + LineOps(lines + [line], x, y, lineHeight, base)
  {
    LineOpsSnoc(lines, line, x, y, lineHeight, base);
  }

  /** The height of line `k` when the first line is at `y`. */
  function LineY(y: real, lineHeight: real, k: nat): real
  {
    y + k as real * lineHeight
  }

  /** Moving down one line height from line `k` reaches line `k + 1`. */
  lemma NextLineY(y: real, lineHeight: real, lines: seq<string>, line: string)
    ensures LineY(y, lineHeight, |lines|) + lineHeight == LineY(y, lineHeight, |lines + [line]|)
  {
    assert |lines + [line]| == |lines| + 1;
  }

  /** One canvas with its 2D context: its size, its text settings and the
      drawing calls made on it so far. */
  class Canvas2D {
    const textWidth: (nat, string) -> real
    var width: real
    var height: real
    var fontPx: nat
    var fillStyle: string
    var strokeStyle: string
    var lineWidth: real
    var textAlign: string
    var baseline: Baseline
    var ops: seq<DrawOp>

    /** A fresh canvas: 300 by 150 pixels, default settings, nothing drawn. */
    constructor (textWidth: (nat, string) -> real)
      ensures this.textWidth == textWidth
      ensures width == 300.0 && height == 150.0
      ensures Style() == DefaultStyle && baseline == Alphabetic && ops == []
    {
      this.textWidth := textWidth;
      width, height := 300.0, 150.0;
      fontPx, fillStyle, strokeStyle, lineWidth, textAlign := 10, "#000000", "#000000", 1.0, "start";
      baseline := Alphabetic;
      ops := [];
    }

    function Style(): TextStyle
      reads this
    {
      TextStyle(fontPx, fillStyle, strokeStyle, lineWidth, textAlign)
    }

    /** What `toDataURL(mime, quality)` is given. */
    function Snapshot(mime: string, quality: real): Picture
      reads this
    {
      Picture(mime, quality, width, height, Style(), ops)
    }

    /** Setting `lineWidth`: a width that is not positive is ignored and
        the context keeps its current one. */
    method SetLineWidth(w: real)
      modifies this`lineWidth
      ensures lineWidth == if w > 0.0 then w else old(lineWidth)
    {
      if w > 0.0 {
        lineWidth := w;
      }
    }

    method DrawImage(source: string, w: real, h: real)
      modifies this`ops
      ensures ops == old(ops) + [ImageDrawn(source, w, h)]
    {
      ops := ops + [ImageDrawn(source, w, h)];
    }

    method FillText(text: string, x: real, y: real)
      modifies this`ops
      ensures ops == old(ops) + [TextFilled(text, x, y, baseline)]
    {
      ops := ops + [TextFilled(text, x, y, baseline)];
    }

    method StrokeText(text: string, x: real, y: real)
      modifies this`ops
      ensures ops == old(ops) + [TextStroked(text, x, y, baseline)]
    {
      ops := ops + [TextStroked(text, x, y, baseline)];
    }
  }

  /** The top-caption helper: wraps `text` word by word and draws each line
      as soon as it is closed, moving down one line height each time; the last
      line is drawn after the loop. */
  method WrapText(ctx: Canvas2D, text: string, x: real, y: real, maxWidth: real, lineHeight: real)
    modifies ctx`ops
    ensures ctx.ops == old(ctx.ops)
              + LineOps(CaptionLines(FontMeasure(ctx.textWidth, ctx.fontPx), maxWidth, text),
                        x, y, lineHeight, ctx.baseline)
  {
    var words := Split(text, ' ');
    ghost var measure := FontMeasure(ctx.textWidth, ctx.fontPx);
    ghost var closed: seq<string> := [];
    var line := "";
    var currentY := y;
    var n := 0;
    while n < |words|
      invariant 0 <= n <= |words|
      invariant Fold(words, measure, maxWidth, n).lines == closed
      invariant Fold(words, measure, maxWidth, n).line == line
      invariant currentY == LineY(y, lineHeight, |closed|)
      invariant ctx.ops == old(ctx.ops) + LineOps(closed, x, y, lineHeight, ctx.baseline)
    {
      var testLine := line + words[n] + " ";
      var testWidth := ctx.textWidth(ctx.fontPx, testLine);
      assert testWidth == measure(testLine);
      ghost var next := Fold(words, measure, maxWidth, n + 1);
      if testWidth > maxWidth && n > 0 {
        assert next.lines == closed + [line] && next.line == words[n] + " ";
        ghost var before := ctx.ops;
        ctx.FillText(line, x, currentY);
        ctx.StrokeText(line, x, currentY);
        assert ctx.ops == before + [TextFilled(line, x, currentY, ctx.baseline), TextStroked(line, x, currentY, ctx.baseline)];
        DrawNextLine(old(ctx.ops), closed, line, x, y, lineHeight, ctx.baseline, currentY);
        NextLineY(y, lineHeight, closed, line);
        closed := closed + [line];
        line := words[n] + " ";
        currentY := currentY + lineHeight;
      } else {
        assert next.lines == closed && next.line == testLine;
        line := testLine;
      }
      n := n + 1;
    }
    ghost var before := ctx.ops;
    ctx.FillText(line, x, currentY);
    ctx.StrokeText(line, x, currentY);
    assert ctx.ops == before + [TextFilled(line, x, currentY, ctx.baseline), TextStroked(line, x, currentY, ctx.baseline)];
    DrawNextLine(old(ctx.ops), closed, line, x, y, lineHeight, ctx.baseline, currentY);
  }

  /** The bottom-caption line builder: the same greedy loop, collecting the
      lines in a list instead of drawing them. */
  method CollectLines(ctx: Canvas2D, text: string, maxWidth: real) returns (lines: seq<string>)
    ensures lines == CaptionLines(FontMeasure(ctx.textWidth, ctx.fontPx), maxWidth, text)
  {
    var words := Split(text, ' ');
    ghost var measure := FontMeasure(ctx.textWidth, ctx.fontPx);
    lines := [];
    var currentLine := "";
    var n := 0;
    while n < |words|
      invariant 0 <= n <= |words|
      invariant Fold(words, measure, maxWidth, n).lines == lines
      invariant Fold(words, measure, maxWidth, n).line == currentLine
    {
      var testLine := currentLine + words[n] + " ";
      assert ctx.textWidth(ctx.fontPx, testLine) == measure(testLine);
      if ctx.textWidth(ctx.fontPx, testLine) > maxWidth && n > 0 {
        lines := lines + [currentLine];
        currentLine := words[n] + " ";
      } else {
        currentLine := testLine;
      }
      n := n + 1;
    }
    lines := lines + [currentLine];
  }

  /** Draws prepared lines from `startY` down, one line height apart. */
  method DrawLines(ctx: Canvas2D, lines: seq<string>, x: real, startY: real, lineHeight: real)
    modifies ctx`ops
    ensures ctx.ops == old(ctx.ops) + LineOps(lines, x, startY, lineHeight, ctx.baseline)
  {
    var i := 0;
    while i < |lines|
      invariant 0 <= i <= |lines|
      invariant ctx.ops == old(ctx.ops) + LineOps(lines[..i], x, startY, lineHeight, ctx.baseline)
    {
      var y := startY + i as real * lineHeight;
      ctx.FillText(lines[i], x, y);
      ctx.StrokeText(lines[i], x, y);
      DrawNextLine(old(ctx.ops), lines[..i], lines[i], x, startY, lineHeight, ctx.baseline, y);
      assert lines[..i] + [lines[i]] == lines[..i + 1];
      i := i + 1;
    }
    assert lines[..|lines|] == lines;
  }

  /** Where line `i` of `count` bottom lines stands: `count - 1 - i` line
      heights above the bottom padding. */
  function BottomLineY(height: real, m: Metrics, count: nat, i: nat): real
  {
    height - m.padding - (count - 1 - i) as real * m.lineHeight
  }

  /** Where the first of `count` bottom lines goes so that the last one sits
      on the bottom padding. */
  function BottomStart(height: real, m: Metrics, count: nat): real
  {
    height - m.padding - (count - 1) as real * m.lineHeight
  }

  /** The outcome of `compressImage`: the picture it encodes, or the failure
      it rejects with. */
  function CompressedPicture(b: Browser, dataUrl: string, maxWidth: nat, quality: real): (r: Result<Picture>)
    ensures r.Ok? <==> b.decode(dataUrl).Some? && b.hasContext
    ensures b.decode(dataUrl).None? ==> r == Err(ImageLoadError)
    ensures b.decode(dataUrl).Some? && !b.hasContext ==> r == Err(CompressContextError)
    ensures r.Ok? ==> r.value.mime == Jpeg && r.value.quality == quality
    ensures r.Ok? ==> r.value.width == Min(b.decode(dataUrl).value.width, maxWidth) as real
    ensures r.Ok? ==> Size(r.value.width, r.value.height)
                        == FitWidth(b.decode(dataUrl).value.width, b.decode(dataUrl).value.height, maxWidth)
    ensures r.Ok? ==> r.value.ops == [ImageDrawn(dataUrl, r.value.width, r.value.height)]
  {
    match b.decode(dataUrl)
    case None => Err(ImageLoadError)
    case Some(img) =>
      if !b.hasContext then Err(CompressContextError)
      else
        var s := FitWidth(img.width, img.height, maxWidth);
        Ok(Picture(Jpeg, quality, s.width, s.height, DefaultStyle, [ImageDrawn(dataUrl, s.width, s.height)]))
  }

  /** The data URL of a picture outcome, as `toDataURL` resolves it. */
  function Encoded(b: Browser, r: Result<Picture>): Result<string>
  {
    match r
    case Ok(p) => Ok(b.encode(p))
    case Err(e) => Err(e)
  }

  /** `compressImage`: the photo redrawn at most `maxWidth` wide and
      re-encoded as JPEG, whatever its original format. */
  method CompressImage(b: Browser, dataUrl: string, maxWidth: nat := CompressMaxWidth,
                       quality: real := CompressQuality) returns (r: Result<string>)
    ensures r == Encoded(b, CompressedPicture(b, dataUrl, maxWidth, quality))
  {
    var img := b.decode(dataUrl);
    if img.None? {
      return Err(ImageLoadError);
    }
    var canvas := new Canvas2D(b.textWidth);
    var size := FitWidth(img.value.width, img.value.height, maxWidth);
    canvas.width, canvas.height := size.width, size.height;
    if !b.hasContext {
      return Err(CompressContextError);
    }
    canvas.DrawImage(dataUrl, size.width, size.height);
    assert canvas.ops == [ImageDrawn(dataUrl, size.width, size.height)];
    r := Ok(b.encode(canvas.Snapshot(Jpeg, quality)));
  }

  /** Everything the meme layout derives from the decoded image. */
  datatype Geometry = Geometry(size: Size, metrics: Metrics, measure: string -> real,
                               textMaxWidth: real, centerX: real)

  function GeometryFor(b: Browser, img: ImageSize, maxWidth: nat): Geometry
  {
    var s := FitWidth(img.width, img.height, maxWidth);
    var m := MetricsFor(s);
    Geometry(s, m, FontMeasure(b.textWidth, m.fontSize), s.width - CaptionMargin, s.width / 2.0)
  }

  /** The lines of the top caption: the text upper-cased, then wrapped. */
  function TopLines(g: Geometry, captions: MemeCaptions): seq<string>
  {
    CaptionLines(g.measure, g.textMaxWidth, ToUpper(captions.topText))
  }

  /** The lines of the bottom caption: the text as given, wrapped. */
  function BottomLines(g: Geometry, captions: MemeCaptions): seq<string>
  {
    CaptionLines(g.measure, g.textMaxWidth, captions.bottomText)
  }

  function TopOps(g: Geometry, captions: MemeCaptions): seq<DrawOp>
  {
    if captions.topText == "" then []
    else LineOps(TopLines(g, captions), g.centerX, g.metrics.padding, g.metrics.lineHeight, Top)
  }

  function BottomOps(g: Geometry, captions: MemeCaptions): seq<DrawOp>
  {
    if captions.bottomText == "" then []
    else
      var lines := BottomLines(g, captions);
      LineOps(lines, g.centerX, BottomStart(g.size.height, g.metrics, |lines|), g.metrics.lineHeight, Bottom)
  }

  /** The caption style of a rendered meme. An outline width of zero (a
      photo under 12 pixels wide) is ignored by the context, which keeps its
      default width. */
  function MemeStyle(g: Geometry): TextStyle
  {
    var outline := if g.metrics.strokeWidth > 0.0 then g.metrics.strokeWidth else DefaultStyle.lineWidth;
    TextStyle(g.metrics.fontSize, "white", "black", outline, "center")
  }

  /** The outcome of `drawMemeOnCanvas`: the picture it encodes, or the
      failure it rejects with. */
  function MemePicture(b: Browser, imageUrl: string, captions: MemeCaptions, maxWidth: nat): (r: Result<Picture>)
    ensures r.Ok? <==> b.decode(imageUrl).Some? && b.hasContext
    ensures b.decode(imageUrl).None? ==> r == Err(ImageLoadError)
    ensures b.decode(imageUrl).Some? && !b.hasContext ==> r == Err(MemeContextError)
    ensures r.Ok? ==> r.value.mime == Jpeg && r.value.quality == MemeQuality
    ensures r.Ok? ==> r.value.width == Min(b.decode(imageUrl).value.width, maxWidth) as real
    ensures r.Ok? ==> |r.value.ops| >= 1 && r.value.ops[0] == ImageDrawn(imageUrl, r.value.width, r.value.height)
  {
    match b.decode(imageUrl)
    case None => Err(ImageLoadError)
    case Some(img) =>
      if !b.hasContext then Err(MemeContextError)
      else
        var g := GeometryFor(b, img, maxWidth);
        Ok(Picture(Jpeg, MemeQuality, g.size.width, g.size.height, MemeStyle(g),
                   [ImageDrawn(imageUrl, g.size.width, g.size.height)] + TopOps(g, captions) + BottomOps(g, captions)))
  }

  /** The canvas is sized and styled as the geometry says. */
  ghost predicate Prepared(canvas: Canvas2D, g: Geometry)
    reads canvas
  {
    && canvas.width >= 0.0
    && canvas.width == g.size.width && canvas.height == g.size.height
    && canvas.fontPx == g.metrics.fontSize
    && g.measure == FontMeasure(canvas.textWidth, canvas.fontPx)
    && g.textMaxWidth == canvas.width - CaptionMargin && g.centerX == canvas.width / 2.0
    && g.metrics == MetricsFor(Size(canvas.width, canvas.height))
  }

  /** Draws the top caption, upper-cased, hanging from the top padding; an
      empty caption draws nothing. */
  method DrawTopCaption(canvas: Canvas2D, ghost g: Geometry, captions: MemeCaptions)
    requires Prepared(canvas, g)
    modifies canvas`ops, canvas`baseline
    ensures canvas.ops == old(canvas.ops) + TopOps(g, captions)
    ensures canvas.baseline == if captions.topText != "" then Top else old(canvas.baseline)
  {
    if captions.topText != "" {
      canvas.baseline := Top;
      var m := MetricsFor(Size(canvas.width, canvas.height));
      WrapText(canvas, ToUpper(captions.topText), canvas.width / 2.0, m.padding,
               canvas.width - CaptionMargin, m.lineHeight);
    }
  }

  /** Draws the bottom caption as given, its last line standing on the
      bottom padding; an empty caption draws nothing. */
  method DrawBottomCaption(canvas: Canvas2D, ghost g: Geometry, captions: MemeCaptions)
    requires Prepared(canvas, g)
    modifies canvas`ops, canvas`baseline
    ensures canvas.ops == old(canvas.ops) + BottomOps(g, captions)
    ensures canvas.baseline == if captions.bottomText != "" then Bottom else old(canvas.baseline)
  {
    if captions.bottomText != "" {
      canvas.baseline := Bottom;
      var m := MetricsFor(Size(canvas.width, canvas.height));
      var lines := CollectLines(canvas, captions.bottomText, canvas.width - CaptionMargin);
      assert lines == BottomLines(g, captions);
      var startY := BottomStart(canvas.height, m, |lines|);
      assert startY == BottomStart(g.size.height, g.metrics, |lines|);
      DrawLines(canvas, lines, canvas.width / 2.0, startY, m.lineHeight);
    }
  }

  /** `drawMemeOnCanvas`: loads the image, resizes it, draws the captions and
      encodes the result as JPEG. */
  method DrawMemeOnCanvas(b: Browser, imageUrl: string, captions: MemeCaptions,
                          maxWidth: nat := MemeMaxWidth) returns (r: Result<string>)
    ensures r == Encoded(b, MemePicture(b, imageUrl, captions, maxWidth))
  {
    var img := b.decode(imageUrl);
    if img.None? {
      return Err(ImageLoadError);
    }
    var canvas := new Canvas2D(b.textWidth);
    if !b.hasContext {
      return Err(MemeContextError);
    }
    ghost var g := GeometryFor(b, img.value, maxWidth);
    var size := FitWidth(img.value.width, img.value.height, maxWidth);
    canvas.width, canvas.height := size.width, size.height;
    canvas.DrawImage(imageUrl, size.width, size.height);

    var m := MetricsFor(Size(canvas.width, canvas.height));
    canvas.fontPx := m.fontSize;
    canvas.fillStyle, canvas.strokeStyle := "white", "black";
    canvas.SetLineWidth(m.strokeWidth);
    canvas.textAlign := "center";
    canvas.baseline := Top;
    assert canvas.ops == [ImageDrawn(imageUrl, g.size.width, g.size.height)];
    assert canvas.Style() == MemeStyle(g);
    assert Prepared(canvas, g);

    DrawTopCaption(canvas, g, captions);
    DrawBottomCaption(canvas, g, captions);
    r := Ok(b.encode(canvas.Snapshot(Jpeg, MemeQuality)));
  }

  /** The lines a rendered picture shows for a caption text: the text wrapped
      under the picture's font to the picture's width less the margin. */
  function PictureLines(b: Browser, p: Picture, text: string): seq<string>
  {
    CaptionLines(FontMeasure(b.textWidth, p.style.fontPx), p.width - CaptionMargin, text)
  }

  /** A rendered picture in terms of the geometry of its photo. */
  lemma MemePictureGeometry(b: Browser, imageUrl: string, captions: MemeCaptions, maxWidth: nat)
    requires MemePicture(b, imageUrl, captions, maxWidth).Ok?
    ensures var p := MemePicture(b, imageUrl, captions, maxWidth).value;
            var g := GeometryFor(b, b.decode(imageUrl).value, maxWidth);
            && p.ops == [ImageDrawn(imageUrl, p.width, p.height)] + TopOps(g, captions) + BottomOps(g, captions)
            && g.size == Size(p.width, p.height)
            && g.metrics == MetricsFor(g.size)
            && p.style.fontPx == g.metrics.fontSize
            && g.centerX == p.width / 2.0
            && g.textMaxWidth == p.width - CaptionMargin
            && g.measure == FontMeasure(b.textWidth, p.style.fontPx)
  {
  }

  /** The caption style of a rendered meme: white text outlined in black,
      centred, in a font a twelfth of the width rounded down, with an outline
      a fifteenth of the font size; with a font size of zero the outline
      stays at the context's default of one pixel. */
  lemma MemePictureStyle(b: Browser, imageUrl: string, captions: MemeCaptions, maxWidth: nat)
    requires MemePicture(b, imageUrl, captions, maxWidth).Ok?
    ensures var p := MemePicture(b, imageUrl, captions, maxWidth).value;
            var st := p.style;
            && 12.0 * st.fontPx as real <= p.width < 12.0 * (st.fontPx + 1) as real
            && st.fill == "white" && st.stroke == "black" && st.align == "center"
            && (st.fontPx >= 1 ==> 15.0 * st.lineWidth == st.fontPx as real)
            && (st.fontPx == 0 ==> st.lineWidth == 1.0)
  {
    MemePictureGeometry(b, imageUrl, captions, maxWidth);
    var p := MemePicture(b, imageUrl, captions, maxWidth).value;
    MetricsRule(Size(p.width, p.height));
  }

  /** A meme with neither caption is the resized photo alone. */
  lemma NoCaptionsNoText(b: Browser, imageUrl: string, captions: MemeCaptions, maxWidth: nat)
    requires MemePicture(b, imageUrl, captions, maxWidth).Ok?
    requires captions.topText == "" && captions.bottomText == ""
    ensures var p := MemePicture(b, imageUrl, captions, maxWidth).value;
            p.ops == [ImageDrawn(imageUrl, p.width, p.height)]
  {
  }

  /** After the photo come two calls for each top line (when there is a top
      caption) and then two for each bottom line (when there is a bottom
      caption): nothing else is drawn. */
  lemma MemeOpsCount(b: Browser, imageUrl: string, captions: MemeCaptions, maxWidth: nat)
    requires MemePicture(b, imageUrl, captions, maxWidth).Ok?
    ensures var p := MemePicture(b, imageUrl, captions, maxWidth).value;
            var top := if captions.topText == "" then 0 else |PictureLines(b, p, ToUpper(captions.topText))|;
            var bottom := if captions.bottomText == "" then 0 else |PictureLines(b, p, captions.bottomText)|;
            |p.ops| == 1 + 2 * top + 2 * bottom
  {
    MemePictureGeometry(b, imageUrl, captions, maxWidth);
    var p := MemePicture(b, imageUrl, captions, maxWidth).value;
    var g := GeometryFor(b, b.decode(imageUrl).value, maxWidth);
    assert TopLines(g, captions) == PictureLines(b, p, ToUpper(captions.topText));
    assert BottomLines(g, captions) == PictureLines(b, p, captions.bottomText);
  }

  /** In the calls for the top caption, line `i` is filled and then
      outlined at the centre, `i` line heights below the top padding. */
  lemma TopOpsAt(g: Geometry, captions: MemeCaptions, i: nat)
    requires captions.topText != "" && i < |TopLines(g, captions)|
    ensures var line := TopLines(g, captions)[i];
            var y := g.metrics.padding + i as real * g.metrics.lineHeight;
            && TopOps(g, captions)[2 * i] == TextFilled(line, g.centerX, y, Top)
            && TopOps(g, captions)[2 * i + 1] == TextStroked(line, g.centerX, y, Top)
  {
    LineOpsAt(TopLines(g, captions), g.centerX, g.metrics.padding, g.metrics.lineHeight, Top, i);
  }

  /** Line `i` of the top caption is the upper-cased text's line `i`, filled
      and then outlined at the horizontal centre, hanging (top baseline) at
      the top padding (5% of the height) plus `i` line heights of 1.1 font
      sizes. */
  lemma TopCaptionPlacement(b: Browser, imageUrl: string, captions: MemeCaptions, maxWidth: nat, i: nat)
    requires MemePicture(b, imageUrl, captions, maxWidth).Ok? && captions.topText != ""
    requires i < |PictureLines(b, MemePicture(b, imageUrl, captions, maxWidth).value, ToUpper(captions.topText))|
    ensures var p := MemePicture(b, imageUrl, captions, maxWidth).value;
            var line := PictureLines(b, p, ToUpper(captions.topText))[i];
            var m := MetricsFor(Size(p.width, p.height));
            var y := m.padding + i as real * m.lineHeight;
            && 2 * i + 2 < |p.ops|
            && p.ops[2 * i + 1] == TextFilled(line, p.width / 2.0, y, Top)
            && p.ops[2 * i + 2] == TextStroked(line, p.width / 2.0, y, Top)
  {
    MemePictureGeometry(b, imageUrl, captions, maxWidth);
    var p := MemePicture(b, imageUrl, captions, maxWidth).value;
    var g := GeometryFor(b, b.decode(imageUrl).value, maxWidth);
    assert TopLines(g, captions) == PictureLines(b, p, ToUpper(captions.topText));
    TopPlacementIn(g, p.ops, ImageDrawn(imageUrl, p.width, p.height), captions, i);
  }

  /** In a drawing log made of one call followed by the calls for both
      captions, top line `i` is filled and then outlined right after the
      calls for the lines before it. */
  lemma TopPlacementIn(g: Geometry, ops: seq<DrawOp>, head: DrawOp, captions: MemeCaptions, i: nat)
    requires ops == [head] + TopOps(g, captions) + BottomOps(g, captions)
    requires captions.topText != "" && i < |TopLines(g, captions)|
    ensures var line := TopLines(g, captions)[i];
            var y := g.metrics.padding + i as real * g.metrics.lineHeight;
            && 2 * i + 2 < |ops|
            && ops[2 * i + 1] == TextFilled(line, g.centerX, y, Top)
            && ops[2 * i + 2] == TextStroked(line, g.centerX, y, Top)
  {
    TopOpsAt(g, captions, i);
    PairWithin([head], TopOps(g, captions), BottomOps(g, captions), 2 * i);
  }

  /** Going down `i` line heights from `k - 1` line heights above `base`
      leaves `k - 1 - i` line heights above it. */
  lemma RaisedLineY(base: real, lineHeight: real, k: int, i: int)
    ensures base - (k - 1) as real * lineHeight + i as real * lineHeight
            == base - (k - 1 - i) as real * lineHeight
  {
    var a, c := (k - 1) as real, i as real;
    assert (k - 1 - i) as real == a - c;
    assert (a - c) * lineHeight == a * lineHeight - c * lineHeight;
  }

  /** Line `i` of `k` bottom lines stands `k - 1 - i` line heights above
      the bottom padding. */
  lemma {:induction false} BottomLineAt(lines: seq<string>, x: real, height: real, m: Metrics, i: nat)
    requires i < |lines|
    ensures var ops := LineOps(lines, x, BottomStart(height, m, |lines|), m.lineHeight, Bottom);
            var y := BottomLineY(height, m, |lines|, i);
            ops[2 * i] == TextFilled(lines[i], x, y, Bottom) && ops[2 * i + 1] == TextStroked(lines[i], x, y, Bottom)
  {
    var k := |lines|;
    var start := BottomStart(height, m, k);
    var ops := LineOps(lines, x, start, m.lineHeight, Bottom);
    LineOpsAt(lines, x, start, m.lineHeight, Bottom, i);
    assert ops[2 * i] == TextFilled(lines[i], x, start + i as real * m.lineHeight, Bottom);
    RaisedLineY(height - m.padding, m.lineHeight, k, i);
    assert start + i as real * m.lineHeight == height - m.padding - (k - 1 - i) as real * m.lineHeight;
  }

  /** In the calls for the bottom caption, line `i` is filled and then
      outlined at the centre, at its height above the bottom padding. */
  lemma BottomOpsAt(g: Geometry, captions: MemeCaptions, i: nat)
    requires captions.bottomText != "" && i < |BottomLines(g, captions)|
    ensures var lines := BottomLines(g, captions);
            var y := BottomLineY(g.size.height, g.metrics, |lines|, i);
            && BottomOps(g, captions)[2 * i] == TextFilled(lines[i], g.centerX, y, Bottom)
            && BottomOps(g, captions)[2 * i + 1] == TextStroked(lines[i], g.centerX, y, Bottom)
  {
    BottomLineAt(BottomLines(g, captions), g.centerX, g.size.height, g.metrics, i);
  }

  /** Line `i` of `k` bottom-caption lines is the text's line `i`, filled and
      then outlined at the horizontal centre, standing (bottom baseline)
      `k - 1 - i` line heights above the bottom padding; so the last line
      stands exactly on the bottom padding. */
  lemma BottomCaptionPlacement(b: Browser, imageUrl: string, captions: MemeCaptions, maxWidth: nat, i: nat)
    requires MemePicture(b, imageUrl, captions, maxWidth).Ok? && captions.bottomText != ""
    requires i < |PictureLines(b, MemePicture(b, imageUrl, captions, maxWidth).value, captions.bottomText)|
    ensures var p := MemePicture(b, imageUrl, captions, maxWidth).value;
            var lines := PictureLines(b, p, captions.bottomText);
            var before := if captions.topText == "" then 0
                          else |PictureLines(b, p, ToUpper(captions.topText))|;
            var m := MetricsFor(Size(p.width, p.height));
            var y := BottomLineY(p.height, m, |lines|, i);
            && 2 * before + 2 * i + 2 < |p.ops|
            && p.ops[2 * before + 2 * i + 1] == TextFilled(lines[i], p.width / 2.0, y, Bottom)
            && p.ops[2 * before + 2 * i + 2] == TextStroked(lines[i], p.width / 2.0, y, Bottom)
  {
    MemePictureGeometry(b, imageUrl, captions, maxWidth);
    var p := MemePicture(b, imageUrl, captions, maxWidth).value;
    var g := GeometryFor(b, b.decode(imageUrl).value, maxWidth);
    assert BottomLines(g, captions) == PictureLines(b, p, captions.bottomText);
    assert TopLines(g, captions) == PictureLines(b, p, ToUpper(captions.topText));
    BottomOpsAt(g, captions, i);
    PairAfter([ImageDrawn(imageUrl, p.width, p.height)], TopOps(g, captions), BottomOps(g, captions), 2 * i);
  }

  /** Calls `k` and `k + 1` of the last block of a drawing log, counted
      from the log's start. */
  lemma PairAfter(head: seq<DrawOp>, middle: seq<DrawOp>, tail: seq<DrawOp>, k: nat)
    requires k + 1 < |tail|
    ensures var ops := head + middle + tail;
            && |head| + |middle| + k + 1 < |ops|
            && ops[|head| + |middle| + k] == tail[k]
            && ops[|head| + |middle| + k + 1] == tail[k + 1]
  {
  }

  /** Calls `k` and `k + 1` of the middle block of a drawing log, counted
      from the log's start. */
  lemma PairWithin(head: seq<DrawOp>, middle: seq<DrawOp>, tail: seq<DrawOp>, k: nat)
    requires k + 1 < |middle|
    ensures var ops := head + middle + tail;
            && |head| + k + 1 < |ops|
            && ops[|head| + k] == middle[k]
            && ops[|head| + k + 1] == middle[k + 1]
  {
  }

  /** The captions' words survive rendering: the top lines read back as the
      upper-cased top text and the bottom lines as the bottom text, each with
      one space appended. */
  lemma CaptionsKeepText(b: Browser, imageUrl: string, captions: MemeCaptions, maxWidth: nat)
    requires MemePicture(b, imageUrl, captions, maxWidth).Ok?
    ensures var p := MemePicture(b, imageUrl, captions, maxWidth).value;
            && Concat(PictureLines(b, p, ToUpper(captions.topText))) == ToUpper(captions.topText) + " "
            && Concat(PictureLines(b, p, captions.bottomText)) == captions.bottomText + " "
  {
    var p := MemePicture(b, imageUrl, captions, maxWidth).value;
    PictureLinesKeepText(b, p, ToUpper(captions.topText));
    PictureLinesKeepText(b, p, captions.bottomText);
  }

  /** The lines a picture shows for a text concatenate back to the text
      plus one space. */
  lemma PictureLinesKeepText(b: Browser, p: Picture, text: string)
    ensures Concat(PictureLines(b, p, text)) == text + " "
  {
    WrapKeepsText(text, FontMeasure(b.textWidth, p.style.fontPx), p.width - CaptionMargin);
  }

  /** No caption line holding two or more words is wider than the picture
      less the margin. */
  lemma CaptionLinesFit(b: Browser, p: Picture, text: string, i: nat)
    requires i < |PictureLines(b, p, text)|
    ensures var ws := Split(text, ' ');
            var starts := WrapStarts(ws, FontMeasure(b.textWidth, p.style.fontPx), p.width - CaptionMargin);
            i < |starts| &&
            (End(starts, |ws|, i) - starts[i] >= 2 ==>
               b.textWidth(p.style.fontPx, PictureLines(b, p, text)[i]) <= p.width - CaptionMargin)
  {
    WrapNoOverflow(Split(text, ' '), FontMeasure(b.textWidth, p.style.fontPx), p.width - CaptionMargin, i);
  }
}
