/**
 * The renderer of TPO letters: it holds a reference to the render data the
 * pane view owns, a font and a text-width cache, fills in each visible
 * text's size when drawing, and hit-tests the visible items in order.
 */
module TposRenderer {
  import opened SeriesTpos

  /** A letter to draw, centred horizontally on `x`; width and height are filled in by drawing. */
  datatype Text = Text(content: string, x: real, y: real, width: real, height: real)

  /** The render item of one profile. */
  datatype Item = Item(
    time: int,
    x: real,
    y: real,
    internalId: int,
    externalId: Option<string>,
    texts: seq<Text>)

  /** A half-open range `[from, to)` of item indices. */
  datatype Range = Range(from: int, to: int)

  predicate RangeWithin(r: Range, n: int) {
    0 <= r.from <= r.to <= n
  }

  /** What a successful hit test reports: the internal id as hit-test data, and the external id. */
  datatype HoveredObject = HoveredObject(hitTestData: int, externalId: Option<string>)

  /** One call of the text primitive: `content` with its left edge at `left`, middle baseline at `y`. */
  datatype DrawCall = DrawCall(content: string, left: real, y: real)

  /**
   * The hit test of a single text, given the text's x, y, width, height and
   * the query point's x and y; it lives in a file that is not part of this model.
   */
  type TextHitTest = (real, real, real, real, real, real) -> bool

  /** The render data shared by the pane view (which writes it) and the renderer. */
  class RendererData {
    var items: seq<Item>
    var visibleRange: Option<Range>

    constructor ()
      ensures items == [] && visibleRange == None
    {
      items := [];
      visibleRange := None;
    }
  }

  /** Whether some text of `item` contains the point `(x, y)`. */
  function HitTestItem(item: Item, x: real, y: real, hit: TextHitTest): (r: bool)
    ensures r <==> (exists k :: 0 <= k < |item.texts| &&
                      hit(item.texts[k].x, item.texts[k].y, item.texts[k].width, item.texts[k].height, x, y))
    decreases |item.texts|
  {
    if item.texts == [] then false
    else
      var t := item.texts[0];
      hit(t.x, t.y, t.width, t.height, x, y) || HitTestItem(item.(texts := item.texts[1..]), x, y, hit)
  }

  /** The texts with every width measured under `font` and every height set to `height`. */
  function Sized(texts: seq<Text>, textWidth: (string, string) -> real, font: string, height: real): (r: seq<Text>)
    ensures |r| == |texts|
    ensures forall k :: 0 <= k < |r| ==>
      r[k] == texts[k].(width := textWidth(font, texts[k].content), height := height)
    decreases |texts|
  {
    if texts == [] then []
    else
      var first := texts[0].(width := textWidth(font, texts[0].content), height := height);
      [first] + Sized(texts[1..], textWidth, font, height)
  }

  /** The text-primitive calls that drawing `item` makes, one per text, in order. */
  function DrawItem(item: Item): (calls: seq<DrawCall>)
    ensures |calls| == |item.texts|
    ensures forall k :: 0 <= k < |calls| ==>
      && calls[k].content == item.texts[k].content
      && calls[k].left + item.texts[k].width / 2.0 == item.texts[k].x
      && calls[k].y == item.texts[k].y
    decreases |item.texts|
  {
    if item.texts == [] then []
    else
      var t := item.texts[0];
      [DrawCall(t.content, t.x - t.width / 2.0, t.y)] + DrawItem(item.(texts := item.texts[1..]))
  }

  /** The calls made by drawing the items with indices in `[lo, hi)`, in index order. */
  function Drawn(items: seq<Item>, lo: int, hi: int): seq<DrawCall>
    requires 0 <= lo <= hi <= |items|
    decreases hi - lo
  {
    if lo < hi then Drawn(items, lo, hi - 1) + DrawItem(items[hi - 1]) else []
  }

  /** Drawing a range depends only on the items inside it. */
  lemma {:induction false} DrawnDependsOnRangeOnly(a: seq<Item>, b: seq<Item>, lo: int, hi: int)
    requires 0 <= lo <= hi <= |a| && hi <= |b|
    requires forall i :: lo <= i < hi ==> a[i] == b[i]
    ensures Drawn(a, lo, hi) == Drawn(b, lo, hi)
    decreases hi - lo
  {
    if hi > lo {
      DrawnDependsOnRangeOnly(a, b, lo, hi - 1);
    }
  }

  /** The items with the texts of those in `[lo, hi)` sized under `font`; the rest untouched. */
  function SizedRange(
    items: seq<Item>, lo: int, hi: int,
    textWidth: (string, string) -> real, font: string, height: real): (r: seq<Item>)
    requires 0 <= lo <= hi <= |items|
    ensures |r| == |items|
    ensures forall i :: 0 <= i < |items| && !(lo <= i < hi) ==> r[i] == items[i]
    ensures forall i :: lo <= i < hi ==>
      r[i] == items[i].(texts := Sized(items[i].texts, textWidth, font, height))
    decreases hi - lo
  {
    if lo < hi then
      var sized := items[hi - 1].(texts := Sized(items[hi - 1].texts, textWidth, font, height));
      SizedRange(items, lo, hi - 1, textWidth, font, height)[hi - 1 := sized]
    else items
  }

  const InitialFontSize: real := -1.0

  /** Whether new font parameters differ from the stored ones, so that the cache is reset. */
  predicate FontChanges(fontSize: real, fontFamily: string, newSize: real, newFamily: string) {
    fontSize != newSize || fontFamily != newFamily
  }

  /** From the initial font parameters, any font of non-negative size is a change. */
  lemma FirstParamsReset(size: real, family: string)
    requires size >= 0.0
    ensures FontChanges(InitialFontSize, "", size, family)
  {
  }

  class SeriesTposRenderer {
    var data: RendererData?
    var fontSize: real
    var fontFamily: string
    var font: string
    /** The text-width cache: the width last measured for each content under `font`. */
    var widthCache: map<string, real>

    /** The drawing surface's measurement of a content's width under a font. */
    const textWidth: (string, string) -> real
    /** The font descriptor built from a size and a family. */
    const makeFont: (real, string) -> string

    /** Every cached width is the width of its content under the current font. */
    ghost predicate Valid()
      reads this
    {
      forall c :: c in widthCache ==> widthCache[c] == textWidth(font, c)
    }

    /** The visible range, when there is one, indexes the data's items. */
    predicate WindowFits()
      reads this, data
    {
      data != null && data.visibleRange.Some? ==> RangeWithin(data.visibleRange.value, |data.items|)
    }

    constructor (textWidth: (string, string) -> real, makeFont: (real, string) -> string)
      ensures Valid()
      ensures data == null && fontSize == InitialFontSize && fontFamily == "" && font == ""
      ensures widthCache == map[]
      ensures this.textWidth == textWidth && this.makeFont == makeFont
    {
      this.textWidth := textWidth;
      this.makeFont := makeFont;
      data := null;
      fontSize := InitialFontSize;
      fontFamily := "";
      font := "";
      widthCache := map[];
    }

    /** Keeps the given reference itself, not a copy. */
    method SetData(d: RendererData)
      modifies this`data
      ensures data == d
    {
      data := d;
    }

    method SetParams(size: real, family: string)
      requires Valid()
      modifies this`fontSize, this`fontFamily, this`font, this`widthCache
      ensures Valid()
      ensures fontSize == size && fontFamily == family
      ensures FontChanges(old(fontSize), old(fontFamily), size, family) ==>
        font == makeFont(size, family) && widthCache == map[]
      ensures !FontChanges(old(fontSize), old(fontFamily), size, family) ==>
        font == old(font) && widthCache == old(widthCache)
    {
      if fontSize != size || fontFamily != family {
        fontSize := size;
        fontFamily := family;
        font := makeFont(size, family);
        widthCache := map[];
      }
    }

    /** The cached measurement: whether it hits or misses, the width is the current font's. */
    method MeasureText(content: string) returns (w: real)
      requires Valid()
      modifies this`widthCache
      ensures Valid()
      ensures w == textWidth(font, content)
      ensures widthCache == old(widthCache)[content := w]
    {
      if content in widthCache {
        w := widthCache[content];
      } else {
        w := textWidth(font, content);
        widthCache := widthCache[content := w];
      }
    }

    /** Fills in the width and height of each text of one item, in order. */
    method MeasureTexts(texts: seq<Text>) returns (sized: seq<Text>)
      requires Valid()
      modifies this`widthCache
      ensures Valid()
      ensures sized == Sized(texts, textWidth, font, fontSize)
      ensures old(widthCache).Keys <= widthCache.Keys
    {
      sized := [];
      var k := 0;
      while k < |texts|
        invariant 0 <= k <= |texts|
        invariant Valid()
        invariant old(widthCache).Keys <= widthCache.Keys
        invariant |sized| == k
        invariant forall j :: 0 <= j < k ==>
          sized[j] == texts[j].(width := textWidth(font, texts[j].content), height := fontSize)
      {
        var w := MeasureText(texts[k].content);
        sized := sized + [texts[k].(width := w, height := fontSize)];
        k := k + 1;
      }
    }

    /**
     * The draw pass: each visible item's texts get their size in place and
     * are drawn centred on their x. Without data or range, nothing happens.
     */
    method Draw() returns (calls: seq<DrawCall>)
      requires Valid() && WindowFits()
      modifies this`widthCache, data
      ensures Valid()
      ensures old(widthCache).Keys <= widthCache.Keys
      ensures data == null || data.visibleRange.None? ==>
        calls == [] && widthCache == old(widthCache) && (data != null ==> unchanged(data))
      ensures data != null ==> data.visibleRange == old(data.visibleRange)
      ensures data != null && data.visibleRange.Some? ==>
        var r := data.visibleRange.value;
        && data.items == SizedRange(old(data.items), r.from, r.to, textWidth, font, fontSize)
        && calls == Drawn(data.items, r.from, r.to)
    {
      calls := [];
      if data == null || data.visibleRange.None? {
        return;
      }
      var r := data.visibleRange.value;
      ghost var pre := data.items;
      var i := r.from;
      while i < r.to
        invariant r.from <= i <= r.to
        invariant Valid()
        invariant old(widthCache).Keys <= widthCache.Keys
        invariant data.visibleRange == old(data.visibleRange)
        invariant data.items == SizedRange(pre, r.from, i, textWidth, font, fontSize)
        invariant calls == Drawn(data.items, r.from, i)
      {
        var item := data.items[i];
        var sized := MeasureTexts(item.texts);
        ghost var before := data.items;
        data.items := data.items[i := item.(texts := sized)];
        DrawnDependsOnRangeOnly(before, data.items, r.from, i);
        calls := calls + DrawItem(data.items[i]);
        i := i + 1;
      }
    }

    /**
     * The ids of the first visible item, in index order, that has a text
     * containing the point; None when there is none, no data or no range.
     */
    method HitTest(x: real, y: real, hit: TextHitTest) returns (r: Option<HoveredObject>)
      requires WindowFits()
      ensures data == null || data.visibleRange.None? ==> r == None
      ensures data != null && data.visibleRange.Some? ==>
        var w := data.visibleRange.value;
        && (r == None <==> forall i :: w.from <= i < w.to ==> !HitTestItem(data.items[i], x, y, hit))
        && (r != None ==>
              exists i :: (&& w.from <= i < w.to
                           && HitTestItem(data.items[i], x, y, hit)
                           && r == Some(HoveredObject(data.items[i].internalId, data.items[i].externalId))
                           && forall j :: w.from <= j < i ==> !HitTestItem(data.items[j], x, y, hit)))
    {
      if data == null || data.visibleRange.None? {
        return None;
      }
      var w := data.visibleRange.value;
      var i := w.from;
      while i < w.to
        invariant w.from <= i <= w.to
        invariant forall j :: w.from <= j < i ==> !HitTestItem(data.items[j], x, y, hit)
      {
        var item := data.items[i];
        if HitTestItem(item, x, y, hit) {
          return Some(HoveredObject(item.internalId, item.externalId));
        }
        i := i + 1;
      }
      return None;
    }
  }
}
