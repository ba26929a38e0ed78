/** The demo page's layout tables: the four viewports and the breakpoint classifier,
    the rack span per column class and breakpoint, the fixed rail widths and the
    centring positions of the 12-column grid, with their text renderings. */
module Demo {

  import opened Wrappers
  import opened Numerals

  datatype Breakpoint = Sm | Md | Lg | Xl

  /** Position of a breakpoint in the order sm < md < lg < xl. */
  function Rank(bp: Breakpoint): nat {
    match bp
    case Sm => 0
    case Md => 1
    case Lg => 2
    case Xl => 3
  }

  /** An upper width bound; `Unbounded` is JavaScript's `Infinity`. */
  datatype Bound = Upto(px: int) | Unbounded

  datatype Viewport = Viewport(minWidth: int, maxWidth: Bound, description: string)

  /** The VIEWPORTS table: every range is non-empty, and only xl is unbounded above. */
  function Viewports(bp: Breakpoint): (v: Viewport)
    ensures v.maxWidth.Unbounded? <==> bp == Xl
    ensures v.maxWidth.Upto? ==> v.minWidth < v.maxWidth.px
  {
    match bp
    case Sm => Viewport(375, Upto(767), "Small devices")
    case Md => Viewport(768, Upto(1023), "Medium devices")
    case Lg => Viewport(1024, Upto(1279), "Large devices")
    case Xl => Viewport(1280, Unbounded, "Extra large devices")
  }

  /** The width lies within the viewport's closed range [minWidth, maxWidth]. */
  predicate InRange(v: Viewport, width: int) {
    v.minWidth <= width && (v.maxWidth.Upto? ==> width <= v.maxWidth.px)
  }

  /** getCurrentBreakpoint: the largest breakpoint whose minimum width is reached,
      falling back to sm below md's minimum, including below sm's own minimum. */
  function CurrentBreakpoint(width: int): (bp: Breakpoint)
    ensures bp == Xl <==> width >= 1280
    ensures bp == Lg <==> 1024 <= width < 1280
    ensures bp == Md <==> 768 <= width < 1024
    ensures bp == Sm <==> width < 768
  {
    if width >= Viewports(Xl).minWidth then Xl
    else if width >= Viewports(Lg).minWidth then Lg
    else if width >= Viewports(Md).minWidth then Md
    else Sm
  }

  /** A wider window never yields an earlier breakpoint. */
  lemma ClassifierMonotone(w1: int, w2: int)
    requires w1 <= w2
    ensures Rank(CurrentBreakpoint(w1)) <= Rank(CurrentBreakpoint(w2))
  {
  }

  /** Each viewport's range ends one pixel before the next one starts; xl is unbounded. */
  lemma ViewportsContiguous()
    ensures forall a: Breakpoint, b: Breakpoint :: Rank(b) == Rank(a) + 1 ==>
      Viewports(a).maxWidth == Upto(Viewports(b).minWidth - 1)
    ensures Viewports(Xl).maxWidth == Unbounded
  {
  }

  /** The classifier agrees with the VIEWPORTS ranges: from sm's minimum upwards the
      chosen viewport contains the width, and a width inside a viewport's range is
      classified as that viewport; below sm's minimum the answer is still sm. */
  lemma ClassifierMatchesRanges(width: int, bp: Breakpoint)
    ensures width >= Viewports(Sm).minWidth ==> InRange(Viewports(CurrentBreakpoint(width)), width)
    ensures InRange(Viewports(bp), width) ==> CurrentBreakpoint(width) == bp
    ensures width < Viewports(Sm).minWidth ==>
      CurrentBreakpoint(width) == Sm && !InRange(Viewports(Sm), width)
  {
  }

  // ---------------------------------------------------------------------------
  // RACK_COLUMNS: the grid span of column class .col-n at each breakpoint

  function RackRow(bp: Breakpoint): (row: seq<nat>)
    ensures |row| == 12
  {
    match bp
    case Sm => [6, 6, 12, 12, 12, 12, 12, 12, 12, 12, 12, 12]
    case Md => [2, 3, 5, 7, 9, 10, 12, 12, 12, 12, 12, 12]
    case Lg => [1, 2, 3, 4, 5, 6, 7, 8, 9, 10, 11, 12]
    case Xl => [1, 2, 3, 4, 5, 6, 7, 8, 9, 10, 11, 12]
  }

  /** RACK_COLUMNS[bp][col]; a column outside 1..12 has no entry. */
  function RackSpan(bp: Breakpoint, col: int): (r: Option<nat>)
    ensures r.Some? <==> 1 <= col <= 12
  {
    if 1 <= col <= 12 then Some(RackRow(bp)[col - 1]) else None
  }

  /** Every span fits the grid, and a column class never spans fewer tracks than its number. */
  lemma RackSpanBounds(bp: Breakpoint, col: int)
    requires 1 <= col <= 12
    ensures col <= RackSpan(bp, col).value <= 12
  {
  }

  /** At lg and xl column n spans exactly n tracks. */
  lemma RackIdentityWide(bp: Breakpoint, col: int)
    requires bp == Lg || bp == Xl
    requires 1 <= col <= 12
    ensures RackSpan(bp, col) == Some(col)
  {
  }

  /** At sm columns 1 and 2 take half the grid and every other column the full grid. */
  lemma RackSmall(col: int)
    requires 1 <= col <= 12
    ensures RackSpan(Sm, col) == Some(if col <= 2 then 6 else 12)
  {
  }

  /** At md spans never decrease with the column number, and columns 7..12 are full width. */
  lemma RackMedium(c1: int, c2: int)
    requires 1 <= c1 <= c2 <= 12
    ensures RackSpan(Md, c1).value <= RackSpan(Md, c2).value
    ensures c1 >= 7 ==> RackSpan(Md, c1) == Some(12)
  {
  }

  /** Mobile first: moving to a larger breakpoint never widens a column. */
  lemma RackShrinksWithBreakpoint(a: Breakpoint, b: Breakpoint, col: int)
    requires Rank(a) <= Rank(b)
    requires 1 <= col <= 12
    ensures RackSpan(b, col).value <= RackSpan(a, col).value
  {
  }

  // ---------------------------------------------------------------------------
  // RAIL_WIDTHS: fixed widths of rail columns, the same at every breakpoint

  /** A rail column is a number of rem wide, or the full container (`100%`). */
  datatype RailWidth = Rem(rem: nat) | Full

  function RailRow(): (row: seq<RailWidth>)
    ensures |row| == 12
  {
    [Rem(16), Rem(20), Rem(24), Rem(28), Rem(32), Rem(36),
     Rem(40), Rem(44), Rem(48), Rem(52), Rem(56), Full]
  }

  /** RAIL_WIDTHS[col]; a column outside 1..12 has no entry. */
  function RailWidths(col: int): (r: Option<RailWidth>)
    ensures r.Some? <==> 1 <= col <= 12
  {
    if 1 <= col <= 12 then Some(RailRow()[col - 1]) else None
  }

  /** Columns 1..11 grow by 4rem from 16rem; column 12 fills the container. */
  lemma RailWidthFormula(col: int)
    requires 1 <= col <= 12
    ensures col <= 11 ==> RailWidths(col) == Some(Rem(16 + 4 * (col - 1)))
    ensures col == 12 ==> RailWidths(col) == Some(Full)
  {
  }

  /** Fixed rail widths strictly increase with the column number. */
  lemma RailWidthsIncreasing(c1: int, c2: int)
    requires 1 <= c1 < c2 <= 11
    ensures RailWidths(c1).value.rem < RailWidths(c2).value.rem
  {
  }

  // ---------------------------------------------------------------------------
  // CENTER_POSITIONS: grid placement that centres an n-column block

  /** A grid placement `start / span span`: first track and number of tracks. */
  datatype Placement = Placement(start: nat, span: nat)

  function CenterRow(): (row: seq<Placement>)
    ensures |row| == 11
  {
    [Placement(6, 1), Placement(6, 2), Placement(5, 3), Placement(5, 4),
     Placement(4, 5), Placement(4, 6), Placement(3, 7), Placement(3, 8),
     Placement(2, 9), Placement(2, 10), Placement(1, 11)]
  }

  /** CENTER_POSITIONS[n]; only blocks of 1..11 columns have a centring entry. */
  function CenterPosition(n: int): (r: Option<Placement>)
    ensures r.Some? <==> 1 <= n <= 11
  {
    if 1 <= n <= 11 then Some(CenterRow()[n - 1]) else None
  }

  /** The table follows the closed form start = 6 - (n-1) div 2, span = n. */
  lemma CenterFormula(n: int)
    requires 1 <= n <= 11
    ensures CenterPosition(n) == Some(Placement(6 - (n - 1) / 2, n))
  {
  }

  /** The centred block lies inside the grid and is balanced: the right margin equals
      the left margin for even n and exceeds it by one for odd n. */
  lemma CenterBalanced(n: int)
    requires 1 <= n <= 11
    ensures var p := CenterPosition(n).value;
      var left := p.start - 1;
      var right := 12 - (p.start + p.span - 1);
      && 1 <= p.start && p.start + p.span - 1 <= 12
      && right - left == n % 2
  {
  }

  // ---------------------------------------------------------------------------
  // The tables' text: "span n", "s / span n", "16rem" / "100%"

  function SpanText(span: nat): string {
    "span " + Digits(span)
  }

  function PlacementText(p: Placement): string {
    Digits(p.start) + " / span " + Digits(p.span)
  }

  function RailWidthText(w: RailWidth): string {
    match w
    case Rem(n) => Digits(n) + "rem"
    case Full => "100%"
  }

  /** RACK_COLUMNS[bp][col] as the string the table holds. */
  function RackColumnText(bp: Breakpoint, col: int): Option<string> {
    match RackSpan(bp, col)
    case Some(s) => Some(SpanText(s))
    case None => None
  }

  /** CENTER_POSITIONS[n] as the string the table holds. */
  function CenterPositionText(n: int): Option<string> {
    match CenterPosition(n)
    case Some(p) => Some(PlacementText(p))
    case None => None
  }

  /** RAIL_WIDTHS[col] as the string the table holds. */
  function RailWidthsText(col: int): Option<string> {
    match RailWidths(col)
    case Some(w) => Some(RailWidthText(w))
    case None => None
  }

  /** Every string of RACK_COLUMNS is the rendering of its span: `span 1` … `span 12`. */
  lemma SpanTextsWritten()
    ensures SpanText(1) == "span 1"
    ensures SpanText(2) == "span 2"
    ensures SpanText(3) == "span 3"
    ensures SpanText(4) == "span 4"
    ensures SpanText(5) == "span 5"
    ensures SpanText(6) == "span 6"
    ensures SpanText(7) == "span 7"
    ensures SpanText(8) == "span 8"
    ensures SpanText(9) == "span 9"
    ensures SpanText(10) == "span 10"
    ensures SpanText(11) == "span 11"
    ensures SpanText(12) == "span 12"
  {
    DigitsToTwelve();
  }

  /** Every string of RAIL_WIDTHS is the rendering of its width: `16rem` … `56rem`, `100%`. */
  lemma RailWidthTextsWritten()
    ensures RailWidthText(Rem(16)) == "16rem"
    ensures RailWidthText(Rem(20)) == "20rem"
    ensures RailWidthText(Rem(24)) == "24rem"
    ensures RailWidthText(Rem(28)) == "28rem"
    ensures RailWidthText(Rem(32)) == "32rem"
    ensures RailWidthText(Rem(36)) == "36rem"
    ensures RailWidthText(Rem(40)) == "40rem"
    ensures RailWidthText(Rem(44)) == "44rem"
    ensures RailWidthText(Rem(48)) == "48rem"
    ensures RailWidthText(Rem(52)) == "52rem"
    ensures RailWidthText(Rem(56)) == "56rem"
    ensures RailWidthText(Full) == "100%"
  {
    DigitsBelowHundred(16);
    DigitsBelowHundred(20);
    DigitsBelowHundred(24);
    DigitsBelowHundred(28);
    DigitsBelowHundred(32);
    DigitsBelowHundred(36);
    DigitsBelowHundred(40);
    DigitsBelowHundred(44);
    DigitsBelowHundred(48);
    DigitsBelowHundred(52);
    DigitsBelowHundred(56);
  }

  /** The strings of CENTER_POSITIONS for blocks of 1..6 columns are the renderings of
      their placements. */
  lemma NarrowPlacementTextsWritten()
    ensures PlacementText(Placement(6, 1)) == "6 / span 1"
    ensures PlacementText(Placement(6, 2)) == "6 / span 2"
    ensures PlacementText(Placement(5, 3)) == "5 / span 3"
    ensures PlacementText(Placement(5, 4)) == "5 / span 4"
    ensures PlacementText(Placement(4, 5)) == "4 / span 5"
    ensures PlacementText(Placement(4, 6)) == "4 / span 6"
  {
    DigitsToTwelve();
  }

  /** The strings of CENTER_POSITIONS for blocks of 7..11 columns are the renderings of
      their placements. */
  lemma WidePlacementTextsWritten()
    ensures PlacementText(Placement(3, 7)) == "3 / span 7"
    ensures PlacementText(Placement(3, 8)) == "3 / span 8"
    ensures PlacementText(Placement(2, 9)) == "2 / span 9"
    ensures PlacementText(Placement(2, 10)) == "2 / span 10"
    ensures PlacementText(Placement(1, 11)) == "1 / span 11"
  {
    DigitsToTwelve();
  }

  /** Reads "span n". */
  function ParseSpan(s: string): Option<nat> {
    if |s| >= 5 && s[..5] == "span " then ParseNat(s[5..]) else None
  }

  /** Reads "s / span n". */
  function ParsePlacement(s: string): Option<Placement> {
    var k := DigitRun(s);
    var rest := s[k..];
    if |rest| >= 8 && rest[..8] == " / span " then
      match (ParseNat(s[..k]), ParseNat(rest[8..]))
      case (Some(start), Some(span)) => Some(Placement(start, span))
      case _ => None
    else None
  }

  /** Reads "nrem" or "100%". */
  function ParseRailWidth(s: string): Option<RailWidth> {
    if s == "100%" then Some(Full)
    else
      var k := DigitRun(s);
      if s[k..] == "rem" then
        match ParseNat(s[..k])
        case Some(n) => Some(Rem(n))
        case None => None
      else None
  }

  lemma SpanTextRoundTrip(span: nat)
    ensures ParseSpan(SpanText(span)) == Some(span)
  {
    var s := SpanText(span);
    assert s[..5] == "span " && s[5..] == Digits(span);
    ParseDigits(span);
  }

  lemma PlacementTextRoundTrip(p: Placement)
    ensures ParsePlacement(PlacementText(p)) == Some(p)
  {
    var d, t := Digits(p.start), " / span " + Digits(p.span);
    var s := PlacementText(p);
    assert s == d + t;
    DigitRunOfDigits(d, t);
    assert s[..|d|] == d && s[|d|..] == t;
    assert t[..8] == " / span " && t[8..] == Digits(p.span);
    ParseDigits(p.start);
    ParseDigits(p.span);
  }

  lemma RailWidthTextRoundTrip(w: RailWidth)
    ensures ParseRailWidth(RailWidthText(w)) == Some(w)
  {
    match w
    case Full =>
    case Rem(n) =>
      var d := Digits(n);
      var s := d + "rem";
      assert s != "100%" by { assert s[|s| - 1] == 'm'; }
      DigitRunOfDigits(d, "rem");
      assert s[..|d|] == d && s[|d|..] == "rem";
      ParseDigits(n);
  }

  /** The rendered tables read back as the integer tables: the text of every entry
      determines its span, placement or width. */
  lemma TablesTextRoundTrip(bp: Breakpoint, col: int)
    ensures RackColumnText(bp, col).Some? ==> ParseSpan(RackColumnText(bp, col).value) == RackSpan(bp, col)
    ensures CenterPositionText(col).Some? ==> ParsePlacement(CenterPositionText(col).value) == CenterPosition(col)
    ensures RailWidthsText(col).Some? ==> ParseRailWidth(RailWidthsText(col).value) == RailWidths(col)
  {
    if 1 <= col <= 12 {
      SpanTextRoundTrip(RackSpan(bp, col).value);
      RailWidthTextRoundTrip(RailWidths(col).value);
    }
    if 1 <= col <= 11 {
      PlacementTextRoundTrip(CenterPosition(col).value);
    }
  }
}
