/**
 * Layers: the named, opacity- and transform-tagged drawables of a frame, and the
 * painter they draw into. Painting is an append-only log of draw operations, each
 * carrying the painter's opacity and transform at the moment it was issued.
 */
module Layers {
  import opened QtTypes

  /** Layer, ImageLayer and TitleLayer. The base fields are opacity and transform; the name is fixed per kind. */
  datatype Layer =
    | ImageLayer(opacity: real, transform: Transform, image: Option<Image>)
    | TitleLayer(opacity: real, transform: Transform, title: string, subTitle: string)
  {
    /**
     * Layer::name(): the name each subclass passes to the Layer constructor, the same for
     * every layer of a kind whatever name the scene files it under.
     */
    function Name(): (n: string)
      ensures n == "Image" <==> ImageLayer?
      ensures n == "Title" <==> TitleLayer?
    {
      if ImageLayer? then "Image" else "Title"
    }
  }

  datatype Color = Black | White | Red | Green

  /** One painter call, with the painter state it used. */
  datatype DrawOp =
    | FillRect(rect: Rect, color: Color, opacity: real, transform: Transform)
    | DrawImage(at: Point, image: Image, opacity: real, transform: Transform)
    | DrawText(x: int, y: int, text: string, pixelSize: int, bold: bool, pen: Color, opacity: real, transform: Transform)

  /** A painter on a canvas of a given size: its current opacity, transform, pen and font, and what it has drawn. */
  class Painter {
    const target: Size
    var opacity: real
    var transform: Transform
    var pen: Color
    var pixelSize: int
    var bold: bool
    var ops: seq<DrawOp>

    constructor (target: Size)
      ensures this.target == target
      ensures opacity == 1.0 && transform == Identity && pen == Black && ops == []
    {
      this.target := target;
      opacity := 1.0;
      transform := Identity;
      pen := Black;
      pixelSize := 12;
      bold := false;
      ops := [];
    }

    method SetOpacity(o: real)
      modifies this`opacity
      ensures opacity == o
    {
      opacity := o;
    }

    /** setTransform(t, false): replaces the transform rather than combining with it. */
    method SetTransform(t: Transform)
      modifies this`transform
      ensures transform == t
    {
      transform := t;
    }

    method SetPen(c: Color)
      modifies this`pen
      ensures pen == c
    {
      pen := c;
    }

    method SetFont(pixelSize: int, bold: bool)
      modifies this`pixelSize, this`bold
      ensures this.pixelSize == pixelSize && this.bold == bold
    {
      this.pixelSize := pixelSize;
      this.bold := bold;
    }

    method FillRect(r: Rect, c: Color)
      modifies this`ops
      ensures ops == old(ops) + [DrawOp.FillRect(r, c, opacity, transform)]
    {
      ops := ops + [DrawOp.FillRect(r, c, opacity, transform)];
    }

    method DrawImage(at: Point, image: Image)
      modifies this`ops
      ensures ops == old(ops) + [DrawOp.DrawImage(at, image, opacity, transform)]
    {
      ops := ops + [DrawOp.DrawImage(at, image, opacity, transform)];
    }

    method DrawText(x: int, y: int, text: string)
      modifies this`ops
      ensures ops == old(ops) + [DrawOp.DrawText(x, y, text, pixelSize, bold, pen, opacity, transform)]
    {
      ops := ops + [DrawOp.DrawText(x, y, text, pixelSize, bold, pen, opacity, transform)];
    }
  }

  /**
   * A canvas size the title arithmetic is defined for: non-negative, and small enough
   * that `width*8` does not overflow a C++ int.
   */
  ghost predicate PaintableSize(sz: Size)
  {
    0 <= sz.width && sz.width * 8 <= IntMax && 0 <= sz.height <= IntMax
  }

  /** The banner metrics TitleLayer::render derives from the scene size, all quint32. */
  datatype TitleMetrics = TitleMetrics(h: nat, w: nat, hh: nat, shadowOffset: nat, top: nat)

  /**
   * h = H/10, w = (W*8)/10, hh = trunc(h*1.5), shadowOffset = h/7, and the banner top H - 2h.
   * The banner and its shadow lie inside the canvas vertically: the top is not negative
   * and neither bottom edge passes H.
   */
  function Metrics(sz: Size): (m: TitleMetrics)
    requires PaintableSize(sz)
    ensures m.h == sz.height / 10 && m.w == (sz.width * 8) / 10
    ensures m.hh as real <= m.h as real * 1.5 < m.hh as real + 1.0
    ensures m.shadowOffset == m.h / 7
    ensures m.top as int == sz.height - 2 * m.h
    ensures m.top + m.hh <= sz.height
    ensures m.top + m.shadowOffset + m.hh <= sz.height
    ensures m.w <= sz.width
  {
    var h := sz.height / 10;
    var w := (sz.width * 8) / 10;
    var hh := Trunc(h as real * 1.5);
    assert hh == (3 * h) / 2 by {
      assert h as real * 1.5 == (3 * h) as real / 2.0;
    }
    TitleMetrics(h, w, hh, h / 7, sz.height - 2 * h)
  }

  /** The operations ImageLayer::render issues: nothing for a null image, else one draw at the origin. */
  function ImageOps(opacity: real, image: Option<Image>, t: Transform): (ops: seq<DrawOp>)
    ensures |ops| <= 1 && (ops == [] <==> image.None?)
    ensures forall i :: 0 <= i < |ops| ==> ops[i].DrawImage? && ops[i].at == Point(0, 0) && ops[i].opacity == opacity && ops[i].transform == t
  {
    match image
    case None => []
    case Some(img) => [DrawOp.DrawImage(Point(0, 0), img, opacity, t)]
  }

  /**
   * The operations TitleLayer::render issues: the black shadow at 0.2 opacity, the white
   * bar at full opacity, then title and subtitle text at x = hh. The y coordinates and
   * font sizes are truncated to int, 0.85 and 0.35 being read as the decimals they spell.
   */
  function TitleOps(opacity: real, title: string, subTitle: string, sz: Size, t: Transform): (ops: seq<DrawOp>)
    requires PaintableSize(sz)
    ensures |ops| == 4 && forall i :: 0 <= i < |ops| ==> ops[i].transform == t
    ensures ops[1].FillRect? && 0 <= ops[1].rect.y && ops[1].rect.y + ops[1].rect.height <= sz.height && ops[1].rect.width <= sz.width
  {
    var m := Metrics(sz);
    [ DrawOp.FillRect(Rect(0, m.top + m.shadowOffset, m.w + m.shadowOffset, m.hh), Black, opacity * 0.2, t),
      DrawOp.FillRect(Rect(0, m.top, m.w, m.hh), White, opacity, t),
      DrawOp.DrawText(m.hh, Trunc(m.top as real + m.hh as real * 0.5), title, Trunc(m.hh as real * 0.5), false, Black, opacity, t),
      DrawOp.DrawText(m.hh, Trunc(m.top as real + m.hh as real * 0.85), subTitle, Trunc(m.hh as real * 0.35), true, Black, opacity, t) ]
  }

  /** What rendering a layer appends to the painter's log under transform t. */
  function LayerOps(layer: Layer, sz: Size, t: Transform): (ops: seq<DrawOp>)
    requires PaintableSize(sz)
    ensures |ops| <= 4 && forall i :: 0 <= i < |ops| ==> ops[i].transform == t
    ensures layer.TitleLayer? ==> |ops| == 4
  {
    match layer
    case ImageLayer(o, _, img) => ImageOps(o, img, t)
    case TitleLayer(o, _, title, sub) => TitleOps(o, title, sub, sz, t)
  }

  /**
   * The title's operations: shadow first, then the white bar, then title before subtitle,
   * both texts at x = hh; text baselines lie inside the bar.
   */
  lemma TitleLayout(opacity: real, title: string, subTitle: string, sz: Size, t: Transform)
    requires PaintableSize(sz)
    ensures var ops := TitleOps(opacity, title, subTitle, sz, t);
            var m := Metrics(sz);
            && |ops| == 4
            && ops[0].FillRect? && ops[0].color == Black && ops[0].opacity == opacity * 0.2
            && ops[1].FillRect? && ops[1].color == White && ops[1].opacity == opacity
            && ops[1].rect.y >= 0 && ops[0].rect.y == ops[1].rect.y + m.shadowOffset
            && ops[2].DrawText? && ops[2].text == title && ops[2].x == m.hh
            && ops[3].DrawText? && ops[3].text == subTitle && ops[3].x == m.hh
            && ops[1].rect.y <= ops[2].y <= ops[3].y <= ops[1].rect.y + ops[1].rect.height
  {
    var m := Metrics(sz);
    assert m.hh as real * 0.5 <= m.hh as real * 0.85 <= m.hh as real;
  }

  /** ImageLayer::render with a null image draws nothing; otherwise it draws once, at the origin, with its opacity. */
  lemma ImageLayerDrawsOnce(layer: Layer, sz: Size, t: Transform)
    requires layer.ImageLayer? && PaintableSize(sz)
    ensures layer.image.None? <==> LayerOps(layer, sz, t) == []
    ensures layer.image.Some? ==>
      LayerOps(layer, sz, t) == [DrawOp.DrawImage(Point(0, 0), layer.image.value, layer.opacity, t)]
  {
  }

  /**
   * Layer::render on painter p: ImageLayer sets the painter opacity and draws, or only
   * warns on a null image; TitleLayer issues the banner calls.
   */
  method Render(layer: Layer, sz: Size, p: Painter) returns (warned: bool)
    requires PaintableSize(sz)
    modifies p
    ensures p.ops == old(p.ops) + LayerOps(layer, sz, old(p.transform))
    ensures p.transform == old(p.transform)
    ensures warned <==> layer.ImageLayer? && layer.image.None?
  {
    warned := false;
    match layer
    case ImageLayer(o, _, img) =>
      if img.Some? {
        p.SetOpacity(o);
        p.DrawImage(Point(0, 0), img.value);
      } else {
        warned := true;
      }
    case TitleLayer(o, _, title, sub) =>
      var m := Metrics(sz);
      p.SetOpacity(o * 0.2);
      p.FillRect(Rect(0, m.top + m.shadowOffset, m.w + m.shadowOffset, m.hh), Black);
      p.SetOpacity(o);
      p.FillRect(Rect(0, m.top, m.w, m.hh), White);
      p.SetPen(Black);
      p.SetFont(Trunc(m.hh as real * 0.5), false);
      p.DrawText(m.hh, Trunc(m.top as real + m.hh as real * 0.5), title);
      p.SetFont(Trunc(m.hh as real * 0.35), true);
      p.DrawText(m.hh, Trunc(m.top as real + m.hh as real * 0.85), sub);
  }
}
