/**
 * The pane view of a series' TPO profiles: three staleness flags, a cached
 * auto-scale margin, and the validation pass that rebuilds the render items
 * and lays the visible profiles' letters out on a fixed column/row lattice.
 */
module TposPaneView {
  import opened SeriesTpos
  import opened TposRenderer

  /** The kind of update announced to the view; only a data update matters here. */
  datatype UpdateType = DataUpdate | OtherUpdate

  /** The time scale's strict visible range of bar indices. */
  datatype BarsRange = BarsRange(left: int, right: int)

  /** The room the profiles ask the price axis to reserve above and below the bars. */
  datatype Margins = Margins(above: real, below: real)

  /**
   * What the view reads from the chart at the time of a call: the series,
   * its time and price scales and the layout options.
   */
  datatype Chart = Chart(
    seriesVisible: bool,
    /** the series' indexed TPO profiles */
    profiles: seq<Profile>,
    /** the series' first value, if it has one */
    firstValue: Option<real>,
    barSpacing: real,
    visibleStrictRange: Option<BarsRange>,
    indexToCoordinate: int -> real,
    priceToCoordinate: (real, real) -> real,
    /** the index range of the timed values (given by their times) that the bars cover */
    visibleTimedValues: (seq<int>, BarsRange) -> Range,
    shapeMargin: real -> real,
    shapeHeight: real -> real,
    fontSize: real,
    fontFamily: string)

  /** The range lookup always answers with indices into the values it is given. */
  ghost predicate ChartValid(chart: Chart) {
    forall times: seq<int>, bars: BarsRange :: RangeWithin(chart.visibleTimedValues(times, bars), |times|)
  }

  /** The times of the items, which is all the range lookup reads of them. */
  function Times(items: seq<Item>): (times: seq<int>)
    ensures |times| == |items|
  {
    seq(|items|, i requires 0 <= i < |items| => items[i].time)
  }

  // ---------------------------------------------------------------------------
  // The letter lattice of one profile
  // ---------------------------------------------------------------------------

  /** A TPO gets a letter when it has a column and its period a non-empty letter. */
  predicate Lettered(period: Period, tpo: TpoEntry) {
    tpo.column.Some? && period.letter.Some? && |period.letter.value| > 0
  }

  /** The letter of a lettered TPO: ten pixels per column right of the bar, at the TPO's price. */
  function LatticeText(period: Period, tpo: TpoEntry, x0: real, toY: (real, real) -> real, firstValue: real): Text
    requires Lettered(period, tpo)
  {
    Text(period.letter.value, x0 + (tpo.column.value * 10) as real, toY(tpo.price, firstValue), 0.0, 0.0)
  }

  /** The letters of `tpos`, a prefix of `period`'s TPOs, in order. */
  function PeriodTexts(period: Period, tpos: seq<TpoEntry>, x0: real, toY: (real, real) -> real, firstValue: real): seq<Text>
    decreases |tpos|
  {
    if tpos == [] then []
    else
      var last := tpos[|tpos| - 1];
      PeriodTexts(period, tpos[..|tpos| - 1], x0, toY, firstValue)
        + (if Lettered(period, last) then [LatticeText(period, last, x0, toY, firstValue)] else [])
  }

  /** The letters of all periods, period by period and, within one, TPO by TPO. */
  function ProfileTexts(periods: seq<Period>, x0: real, toY: (real, real) -> real, firstValue: real): seq<Text>
    decreases |periods|
  {
    if periods == [] then []
    else
      var last := periods[|periods| - 1];
      ProfileTexts(periods[..|periods| - 1], x0, toY, firstValue) + PeriodTexts(last, last.tpos, x0, toY, firstValue)
  }

  /** A period without a (non-empty) letter contributes no text. */
  lemma {:induction false} UnletteredPeriodHasNoTexts(
    period: Period, tpos: seq<TpoEntry>, x0: real, toY: (real, real) -> real, firstValue: real)
    requires period.letter.None? || period.letter.value == ""
    ensures PeriodTexts(period, tpos, x0, toY, firstValue) == []
    decreases |tpos|
  {
    if tpos != [] {
      UnletteredPeriodHasNoTexts(period, tpos[..|tpos| - 1], x0, toY, firstValue);
    }
  }

  /** The texts of a period are exactly the lattice texts of its lettered TPOs. */
  lemma {:induction false} PeriodTextsExactly(
    period: Period, tpos: seq<TpoEntry>, x0: real, toY: (real, real) -> real, firstValue: real, t: Text)
    ensures t in PeriodTexts(period, tpos, x0, toY, firstValue) <==>
      exists k :: 0 <= k < |tpos| && Lettered(period, tpos[k]) && t == LatticeText(period, tpos[k], x0, toY, firstValue)
    decreases |tpos|
  {
    if tpos != [] {
      var n := |tpos| - 1;
      var init := tpos[..n];
      PeriodTextsExactly(period, init, x0, toY, firstValue, t);
      if t in PeriodTexts(period, init, x0, toY, firstValue) {
        var k :| 0 <= k < |init| && Lettered(period, init[k]) && t == LatticeText(period, init[k], x0, toY, firstValue);
        assert tpos[k] == init[k];
      }
      if exists k :: 0 <= k < |tpos| && Lettered(period, tpos[k]) && t == LatticeText(period, tpos[k], x0, toY, firstValue) {
        var k :| 0 <= k < |tpos| && Lettered(period, tpos[k]) && t == LatticeText(period, tpos[k], x0, toY, firstValue);
        if k < n {
          assert init[k] == tpos[k];
        }
      }
    }
  }

  /**
   * The texts of a profile are exactly the lattice texts of the lettered
   * TPOs of its periods: each sits `10 * column` right of the bar, at its
   * price, and carries its period's letter.
   */
  lemma {:induction false} ProfileTextsExactly(
    periods: seq<Period>, x0: real, toY: (real, real) -> real, firstValue: real, t: Text)
    ensures t in ProfileTexts(periods, x0, toY, firstValue) <==>
      exists p, k :: 0 <= p < |periods| && 0 <= k < |periods[p].tpos| && Lettered(periods[p], periods[p].tpos[k])
        && t == LatticeText(periods[p], periods[p].tpos[k], x0, toY, firstValue)
    decreases |periods|
  {
    if periods != [] {
      var n := |periods| - 1;
      var init := periods[..n];
      var last := periods[n];
      ProfileTextsExactly(init, x0, toY, firstValue, t);
      PeriodTextsExactly(last, last.tpos, x0, toY, firstValue, t);
      if t in ProfileTexts(init, x0, toY, firstValue) {
        var p, k :| 0 <= p < |init| && 0 <= k < |init[p].tpos| && Lettered(init[p], init[p].tpos[k])
          && t == LatticeText(init[p], init[p].tpos[k], x0, toY, firstValue);
        assert periods[p] == init[p];
      }
      if t in PeriodTexts(last, last.tpos, x0, toY, firstValue) {
        var k :| 0 <= k < |last.tpos| && Lettered(last, last.tpos[k]) && t == LatticeText(last, last.tpos[k], x0, toY, firstValue);
        assert periods[n] == last;
      }
      if exists p, k :: 0 <= p < |periods| && 0 <= k < |periods[p].tpos| && Lettered(periods[p], periods[p].tpos[k])
          && t == LatticeText(periods[p], periods[p].tpos[k], x0, toY, firstValue) {
        var p, k :| 0 <= p < |periods| && 0 <= k < |periods[p].tpos| && Lettered(periods[p], periods[p].tpos[k])
          && t == LatticeText(periods[p], periods[p].tpos[k], x0, toY, firstValue);
        if p < n {
          assert init[p] == periods[p];
        }
      }
    }
  }

  /** Lays out one profile's letters, pushing them period by period, TPO by TPO. */
  method LayOutProfile(periods: seq<Period>, x0: real, toY: (real, real) -> real, firstValue: real)
    returns (texts: seq<Text>)
    ensures texts == ProfileTexts(periods, x0, toY, firstValue)
  {
    texts := [];
    var p := 0;
    while p < |periods|
      invariant 0 <= p <= |periods|
      invariant texts == ProfileTexts(periods[..p], x0, toY, firstValue)
    {
      var period := periods[p];
      ghost var before := texts;
      var k := 0;
      while k < |period.tpos|
        invariant 0 <= k <= |period.tpos|
        invariant texts == before + PeriodTexts(period, period.tpos[..k], x0, toY, firstValue)
      {
        var tpo := period.tpos[k];
        if tpo.column.Some? && period.letter.Some? && |period.letter.value| > 0 {
          texts := texts + [Text(period.letter.value, x0 + (tpo.column.value * 10) as real, toY(tpo.price, firstValue), 0.0, 0.0)];
        }
        assert period.tpos[..k + 1][..k] == period.tpos[..k];
        k := k + 1;
      }
      assert period.tpos[..|period.tpos|] == period.tpos;
      assert periods[..p + 1][..p] == periods[..p];
      p := p + 1;
    }
    assert periods[..|periods|] == periods;
  }

  // ---------------------------------------------------------------------------
  // The validation pass as a function of the chart and the previous items
  // ---------------------------------------------------------------------------

  /** The letters of a profile on the current scales. */
  function BarTexts(chart: Chart, firstValue: real, profile: Profile): seq<Text> {
    ProfileTexts(profile.periods, chart.indexToCoordinate(profile.time), chart.priceToCoordinate, firstValue)
  }

  /** The data rebuild: one fresh item per profile, with no letters yet. */
  function RebuiltItems(profiles: seq<Profile>): seq<Item> {
    seq(|profiles|, i requires 0 <= i < |profiles| =>
      Item(profiles[i].time, 0.0, 0.0, profiles[i].internalId, profiles[i].id, []))
  }

  /** The items the layout pass starts from: rebuilt when the data is stale, the old ones otherwise. */
  function ItemsToLayOut(chart: Chart, items: seq<Item>, dataStale: bool): seq<Item> {
    if dataStale then RebuiltItems(chart.profiles) else items
  }

  /** The range laid out, or None when there are no visible bars, no first value or no items. */
  function Window(chart: Chart, items: seq<Item>): Option<Range> {
    if chart.visibleStrictRange.None? || chart.firstValue.None? || |items| == 0 then None
    else Some(chart.visibleTimedValues(Times(items), chart.visibleStrictRange.value))
  }

  /**
   * The caller's side of the contract: every index the layout pass will visit
   * has a profile. A rebuild makes this so; otherwise the caller announces a
   * change of the profile list with a data update.
   */
  predicate LayoutFits(chart: Chart, items: seq<Item>, dataStale: bool) {
    dataStale || (Window(chart, items).Some? ==> Window(chart, items).value.to <= |chart.profiles|)
  }

  /** The items with the letters of those in `[lo, hi)` laid out afresh from their profiles. */
  function LaidOut(items: seq<Item>, chart: Chart, firstValue: real, lo: int, hi: int): (r: seq<Item>)
    requires 0 <= lo <= hi <= |items| && hi <= |chart.profiles|
    ensures |r| == |items|
    ensures forall i :: 0 <= i < |items| ==> r[i] == items[i].(texts := r[i].texts)
    ensures forall i :: 0 <= i < |items| && !(lo <= i < hi) ==> r[i] == items[i]
    ensures forall i :: lo <= i < hi ==> r[i].texts == BarTexts(chart, firstValue, chart.profiles[i])
    decreases hi - lo
  {
    if lo < hi then
      var laid := items[hi - 1].(texts := BarTexts(chart, firstValue, chart.profiles[hi - 1]));
      LaidOut(items, chart, firstValue, lo, hi - 1)[hi - 1 := laid]
    else items
  }

  /** The render data after a validation pass. */
  datatype DataSnapshot = DataSnapshot(items: seq<Item>, visibleRange: Option<Range>)

  function Snapshot(data: RendererData): DataSnapshot
    reads data
  {
    DataSnapshot(data.items, data.visibleRange)
  }

  /**
   * The render data a validation pass leaves, from the chart, the previous
   * items and whether the data is stale.
   */
  function ValidatedData(chart: Chart, items: seq<Item>, dataStale: bool): (s: DataSnapshot)
    requires ChartValid(chart) && LayoutFits(chart, items, dataStale)
    // the items: one per profile after a rebuild, the old ones otherwise
    ensures |s.items| == if dataStale then |chart.profiles| else |items|
    ensures dataStale ==> forall i :: 0 <= i < |s.items| ==>
      && s.items[i].time == chart.profiles[i].time
      && s.items[i].x == 0.0 && s.items[i].y == 0.0
      && s.items[i].internalId == chart.profiles[i].internalId
      && s.items[i].externalId == chart.profiles[i].id
    ensures !dataStale ==> forall i :: 0 <= i < |s.items| ==> s.items[i] == items[i].(texts := s.items[i].texts)
    // the range: None exactly on an early return, else within the items
    ensures s.visibleRange.None? <==>
      chart.visibleStrictRange.None? || chart.firstValue.None? || |s.items| == 0
    ensures s.visibleRange.Some? ==>
      && RangeWithin(s.visibleRange.value, |s.items|)
      && s.visibleRange.value.to <= |chart.profiles|
      && s.visibleRange.value == chart.visibleTimedValues(Times(s.items), chart.visibleStrictRange.value)
    // the letters: laid out afresh inside the range, kept (or empty after a rebuild) outside it
    ensures s.visibleRange.Some? ==> forall i :: s.visibleRange.value.from <= i < s.visibleRange.value.to ==>
      s.items[i].texts == BarTexts(chart, chart.firstValue.value, chart.profiles[i])
    ensures forall i :: 0 <= i < |s.items| && (s.visibleRange.None? || !(s.visibleRange.value.from <= i < s.visibleRange.value.to)) ==>
      s.items[i].texts == if dataStale then [] else items[i].texts
  {
    var pre := ItemsToLayOut(chart, items, dataStale);
    match Window(chart, pre)
    case None => DataSnapshot(pre, None)
    case Some(r) =>
      var laid := LaidOut(pre, chart, chart.firstValue.value, r.from, r.to);
      assert Times(laid) == Times(pre);
      DataSnapshot(laid, Some(r))
  }

  /**
   * Validating again without an intervening change gives the same data:
   * the layout pass is a function of the profiles and the scales only.
   */
  lemma RevalidationIsIdempotent(chart: Chart, items: seq<Item>, dataStale: bool)
    requires ChartValid(chart) && LayoutFits(chart, items, dataStale)
    ensures LayoutFits(chart, ValidatedData(chart, items, dataStale).items, false)
    ensures var s := ValidatedData(chart, items, dataStale);
      ValidatedData(chart, s.items, false) == s
  {
  }

  /** The margin both sides get: one and a half shapes and two shape margins. */
  function MarginSize(chart: Chart): real {
    chart.shapeHeight(chart.barSpacing) * 1.5 + chart.shapeMargin(chart.barSpacing) * 2.0
  }

  // ---------------------------------------------------------------------------
  // The view
  // ---------------------------------------------------------------------------

  class SeriesTposPaneView {
    /** The render data, handed to the renderer by reference. */
    const data: RendererData
    const renderer: SeriesTposRenderer

    var invalidated: bool
    var dataInvalidated: bool
    var autoScaleMarginsInvalidated: bool
    var autoScaleMargins: Option<Margins>

    /**
     * The renderer's cache is consistent, it holds no data or this view's,
     * and the visible range indexes the items.
     */
    ghost predicate Valid()
      reads this, data, renderer
    {
      && renderer.Valid()
      && (renderer.data == null || renderer.data == data)
      && (data.visibleRange.Some? ==> RangeWithin(data.visibleRange.value, |data.items|))
    }

    constructor (textWidth: (string, string) -> real, makeFont: (real, string) -> string)
      ensures Valid() && fresh(data) && fresh(renderer)
      ensures invalidated && dataInvalidated && autoScaleMarginsInvalidated && autoScaleMargins == None
      ensures data.items == [] && data.visibleRange == None
      ensures renderer.data == null && renderer.fontSize == InitialFontSize && renderer.fontFamily == ""
      ensures renderer.textWidth == textWidth && renderer.makeFont == makeFont
    {
      data := new RendererData();
      renderer := new SeriesTposRenderer(textWidth, makeFont);
      invalidated := true;
      dataInvalidated := true;
      autoScaleMarginsInvalidated := true;
      autoScaleMargins := None;
    }

    /** Marks the layout and the margins stale, and the data too on a data update. */
    method Update(updateType: Option<UpdateType>)
      modifies this`invalidated, this`dataInvalidated, this`autoScaleMarginsInvalidated
      ensures invalidated && autoScaleMarginsInvalidated
      ensures dataInvalidated == (old(dataInvalidated) || updateType == Some(DataUpdate))
    {
      invalidated := true;
      autoScaleMarginsInvalidated := true;
      if updateType == Some(DataUpdate) {
        dataInvalidated := true;
      }
    }

    /** The cached margins, recomputed only when stale. */
    method AutoScaleMargins(chart: Chart) returns (m: Option<Margins>)
      modifies this`autoScaleMargins, this`autoScaleMarginsInvalidated
      ensures !autoScaleMarginsInvalidated && autoScaleMargins == m
      ensures old(autoScaleMarginsInvalidated) ==>
        m == if |chart.profiles| > 0 then Some(Margins(MarginSize(chart), MarginSize(chart))) else None
      ensures !old(autoScaleMarginsInvalidated) ==> m == old(autoScaleMargins)
    {
      if autoScaleMarginsInvalidated {
        if |chart.profiles| > 0 {
          var barSpacing := chart.barSpacing;
          var shapeMargin := chart.shapeMargin(barSpacing);
          var marginsAboveAndBelow := chart.shapeHeight(barSpacing) * 1.5 + shapeMargin * 2.0;
          autoScaleMargins := Some(Margins(marginsAboveAndBelow, marginsAboveAndBelow));
        } else {
          autoScaleMargins := None;
        }
        autoScaleMarginsInvalidated := false;
      }
      m := autoScaleMargins;
    }

    /**
     * The validation pass: rebuild the items when the data is stale, then lay
     * out the letters of the visible profiles. The layout is cleared only when
     * it ran to the end.
     */
    method MakeValid(chart: Chart)
      requires Valid() && ChartValid(chart) && LayoutFits(chart, data.items, dataInvalidated)
      modifies this`invalidated, this`dataInvalidated, data
      ensures Valid()
      ensures Snapshot(data) == ValidatedData(chart, old(data.items), old(dataInvalidated))
      ensures !dataInvalidated
      ensures invalidated == (old(invalidated) && data.visibleRange.None?)
    {
      var profiles := chart.profiles;
      if dataInvalidated {
        data.items := RebuiltItems(profiles);
        dataInvalidated := false;
      }
      ghost var pre := data.items;
      assert pre == ItemsToLayOut(chart, old(data.items), old(dataInvalidated));

      data.visibleRange := None;
      if chart.visibleStrictRange.None? {
        return;
      }
      var visibleBars := chart.visibleStrictRange.value;
      if chart.firstValue.None? {
        return;
      }
      var firstValue := chart.firstValue.value;
      if |data.items| == 0 {
        return;
      }
      // Per-bar stacking offsets: reset at each new time and never used otherwise.
      var prevTimeIndex: Option<int> := None;
      var shapeMargin := chart.shapeMargin(chart.barSpacing);
      var aboveBar, belowBar := shapeMargin, shapeMargin;
      var range := chart.visibleTimedValues(Times(data.items), visibleBars);
      data.visibleRange := Some(range);
      var index := range.from;
      while index < range.to
        modifies data
        invariant range.from <= index <= range.to
        invariant data.visibleRange == Some(range)
        invariant data.items == LaidOut(pre, chart, firstValue, range.from, index)
        invariant aboveBar == shapeMargin && belowBar == shapeMargin
        invariant index > range.from ==> prevTimeIndex == Some(profiles[index - 1].time)
      {
        var profile := profiles[index];
        if prevTimeIndex != Some(profile.time) {
          aboveBar := shapeMargin;
          belowBar := shapeMargin;
          prevTimeIndex := Some(profile.time);
        }
        var texts := LayOutProfile(profile.periods, chart.indexToCoordinate(profile.time), chart.priceToCoordinate, firstValue);
        data.items := data.items[index := data.items[index].(texts := texts)];
        index := index + 1;
      }
      assert Window(chart, pre) == Some(range);
      invalidated := false;
    }

    /**
     * The renderer for the current frame: none when the series is hidden;
     * otherwise, after validating if stale, the renderer with the current
     * font and this view's data itself.
     */
    method Renderer(chart: Chart) returns (r: SeriesTposRenderer?)
      requires Valid() && ChartValid(chart)
      requires chart.seriesVisible && invalidated ==> LayoutFits(chart, data.items, dataInvalidated)
      modifies this`invalidated, this`dataInvalidated, data, renderer
      ensures Valid()
      ensures !chart.seriesVisible ==> r == null && unchanged(this, data, renderer)
      ensures chart.seriesVisible ==>
        && r == renderer && renderer.data == data
        && renderer.fontSize == chart.fontSize && renderer.fontFamily == chart.fontFamily
        && (if FontChanges(old(renderer.fontSize), old(renderer.fontFamily), chart.fontSize, chart.fontFamily)
            then renderer.font == renderer.makeFont(chart.fontSize, chart.fontFamily) && renderer.widthCache == map[]
            else renderer.font == old(renderer.font) && renderer.widthCache == old(renderer.widthCache))
      ensures chart.seriesVisible && old(invalidated) ==>
        && Snapshot(data) == ValidatedData(chart, old(data.items), old(dataInvalidated))
        && !dataInvalidated
        && invalidated == data.visibleRange.None?
      ensures chart.seriesVisible && !old(invalidated) ==>
        && unchanged(data)
        && !invalidated && dataInvalidated == old(dataInvalidated)
    {
      if !chart.seriesVisible {
        return null;
      }
      if invalidated {
        MakeValid(chart);
      }
      renderer.SetParams(chart.fontSize, chart.fontFamily);
      renderer.SetData(data);
      return renderer;
    }
  }
}
