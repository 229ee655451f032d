/**
 * The TPO profile entities as the pane view reads them: a profile anchored
 * to a time index, holding periods, each period a letter and the TPOs
 * (price levels) it marks, each TPO optionally placed in a lattice column.
 */
module SeriesTpos {

  /** An optional value; `None` stands for JavaScript's `undefined`/`null`. */
  datatype Option<+T> = None | Some(value: T)

  /** Where a TPO sits relative to its bar; a closed set of three cases. */
  datatype Position = AboveBar | BelowBar | InBar

  /** One TPO of a period: a price level and, when placed, its lattice column. */
  datatype TpoEntry = TpoEntry(price: real, column: Option<int>)

  /** A period of a profile: the letter drawn for it and its TPOs. */
  datatype Period = Period(letter: Option<string>, tpos: seq<TpoEntry>)

  /**
   * A profile after ingestion: the caller's fields plus the internal id the
   * series assigns to it.
   */
  datatype Profile = Profile(
    time: int,
    position: Position,
    periods: seq<Period>,
    text: string,
    id: Option<string>,
    internalId: int)
}
