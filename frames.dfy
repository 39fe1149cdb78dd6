/** The frame shapes of the estimator and their cutting lists. Each shape
    turns its captured dimensions, collar type and flags into a map from
    section name to required length in inches; the lengths are fixed linear
    combinations of the dimensions plus small joint allowances. */
module Frames {
  import opened Rounding
  import opened Pricing

  /** One window or door, with the fields its dialogue captures and the
      flags its constructor fixes. Lengths are in inches. */
  datatype Window =
    | FlexiblePanel(height: real, width: real, collar: int,
                    includeD29: bool, useMSeries: bool)
    | ThreePanel3Glass(height: real, width: real, netWidth: real, collar: int, net: int,
                       includeD29: bool, prefix30: string, prefix26: string)
    | Fix(height: real, width: real, collar: int, includeTee: bool, tee: real)
    | RandomFix(length: real, includeTee: bool, tee: real)
    | Openable(height: real, width: real, collar: int, hasNet: bool)
    | Door(height: real, width: real, collar: int, includeD46: bool,
           includeTee: bool, tee: real, isDouble: bool)
    | QadialArch(height: real, width: real, collar: int, includeTee: bool, tee: real)
    | RoundArch(arch: real, width: real, height: real, hasCollar: bool,
                includeTee: bool, tee: real)
    | FixCorner(height: real, leftWidth: real, rightWidth: real, hasCollar: bool,
                includeTee: bool, tee: real)
    | SlideCorner(height: real, leftWidth: real, rightWidth: real, d29Width: real,
                  subtype: int, useCollar: bool, includeD29: bool,
                  sec30: string, sec26: string)

  /** What the input dialogues guarantee before a window is used: positive
      dimensions, a collar type in the shape's range, a positive tee when a
      tee is chosen, and a positive custom net or D29 width where one is asked
      for. The net style and the slide-corner subtype are read unchecked. */
  predicate Valid(w: Window)
  {
    match w
    case FlexiblePanel(h, wd, c, _, _) => 1 <= c <= 14 && h > 0.0 && wd > 0.0
    case ThreePanel3Glass(h, wd, n, c, net, d29, _, _) =>
      1 <= c <= 14 && h > 0.0 && wd > 0.0 && (d29 && (net == 3 || net == 4) ==> n > 0.0)
    case Fix(h, wd, c, t, tee) => 1 <= c <= 14 && h > 0.0 && wd > 0.0 && (t ==> tee > 0.0)
    case RandomFix(l, t, tee) => l > 0.0 && (t ==> tee > 0.0)
    case Openable(h, wd, c, _) => 1 <= c <= 14 && h > 0.0 && wd > 0.0
    case Door(h, wd, c, _, t, tee, _) => 1 <= c <= 8 && h > 0.0 && wd > 0.0 && (t ==> tee > 0.0)
    case QadialArch(h, wd, c, t, tee) => 1 <= c <= 8 && h > 0.0 && wd > 0.0 && (t ==> tee > 0.0)
    case RoundArch(a, wd, h, _, t, tee) => a > 0.0 && wd > 0.0 && h > 0.0 && (t ==> tee > 0.0)
    case FixCorner(h, l, r, _, t, tee) => h > 0.0 && l > 0.0 && r > 0.0 && (t ==> tee > 0.0)
    case SlideCorner(h, l, r, d, s, _, d29, _, _) =>
      h > 0.0 && l > 0.0 && r > 0.0 && (s == 4 && d29 ==> d > 0.0)
  }

  /** The four section names a panel collar table writes to: the 30-series
      frame and coupled sections and the 26-series frame and coupled ones. */
  datatype PanelNames = PanelNames(frame30: string, coupled30: string,
                                   frame26: string, coupled26: string)

  /** The flexible panel's names: the DC series, or the M series when the
      window is built with M-series naming. */
  function FlexibleNames(useMSeries: bool): PanelNames
  {
    if useMSeries then PanelNames("M30F", "M30", "M26F", "M26")
    else PanelNames("DC30F", "DC30C", "DC26F", "DC26C")
  }

  /** The triple-glass panel's names: a 30 and a 26 prefix with suffix F
      for frame and C for coupled. */
  function PrefixNames(prefix30: string, prefix26: string): PanelNames
  {
    PanelNames(prefix30 + "F", prefix30 + "C", prefix26 + "F", prefix26 + "C")
  }

  /** The 14-row collar table shared by both panel windows. A collar type
      outside 1..14 writes nothing. */
  function PanelCollarRows(h: real, w: real, collar: int, n: PanelNames): (rows: map<string, real>)
    ensures rows.Keys <= {n.frame30, n.coupled30, n.frame26, n.coupled26}
    ensures 1 <= collar <= 14 ==> n.frame26 in rows || n.coupled26 in rows
    ensures !(1 <= collar <= 14) ==> rows == map[]
  {
    match collar
    case 1 => map[n.frame30 := 2.0 * h + w + 9.0, n.frame26 := w + 3.0]
    case 2 => map[n.coupled30 := 2.0 * h + w, n.coupled26 := w]
    case 3 => map[n.coupled30 := w, n.frame30 := 2.0 * h + 6.0, n.frame26 := w + 3.0]
    case 4 => map[n.coupled30 := h, n.frame30 := h + w + 6.0, n.frame26 := w + 3.0]
    case 5 => map[n.frame30 := 2.0 * h + w + 9.0, n.coupled26 := w]
    case 6 => map[n.coupled30 := h, n.frame30 := h + w + 6.0, n.frame26 := w + 3.0]
    case 7 => map[n.coupled30 := h + w, n.frame30 := h + 3.0, n.frame26 := w + 3.0]
    case 8 => map[n.coupled30 := h, n.frame30 := h + w + 6.0, n.coupled26 := w]
    case 9 => map[n.coupled30 := 2.0 * h, n.frame30 := w + 3.0, n.frame26 := w + 3.0]
    case 10 => map[n.coupled30 := w, n.frame30 := 2.0 * h + 6.0, n.coupled26 := w]
    case 11 => map[n.coupled30 := 2.0 * h, n.frame30 := w + 3.0, n.coupled26 := w]
    case 12 => map[n.coupled30 := w + h, n.frame30 := h + 3.0, n.coupled26 := w]
    case 13 => map[n.coupled30 := 2.0 * h + w, n.frame26 := w + 3.0]
    case 14 => map[n.coupled30 := h + w, n.frame30 := h + 3.0, n.frame26 := w]
    case _ => map[]
  }

  /** The 14-row D54 collar table of the fixed and the openable window. */
  function D54CollarRows(h: real, w: real, collar: int): (rows: map<string, real>)
    ensures rows.Keys <= {"D54F", "D54A"}
    ensures 1 <= collar <= 14 <==> "D54F" in rows || "D54A" in rows
    ensures "D54A" in rows <==> 2 <= collar <= 14
  {
    match collar
    case 1 => map["D54F" := (h + w) * 2.0 + 12.0]
    case 2 => map["D54A" := (h + w) * 2.0]
    case 3 => map["D54F" := 2.0 * h + w + 9.0, "D54A" := w]
    case 4 => map["D54F" := 2.0 * w + h + 9.0, "D54A" := h]
    case 5 => map["D54F" := 2.0 * h + w + 9.0, "D54A" := w]
    case 6 => map["D54F" := 2.0 * w + h + 9.0, "D54A" := h]
    case 7 => map["D54F" := h + w + 6.0, "D54A" := h + w]
    case 8 => map["D54F" := h + w + 6.0, "D54A" := h + w]
    case 9 => map["D54F" := 2.0 * h + 6.0, "D54A" := 2.0 * w]
    case 10 => map["D54F" := 2.0 * w + 6.0, "D54A" := 2.0 * h]
    case 11 => map["D54F" := w + 3.0, "D54A" := 2.0 * h + w]
    case 12 => map["D54F" := 3.0 * h, "D54A" := 2.0 * w + h]
    case 13 => map["D54F" := w + 3.0, "D54A" := 2.0 * h + w]
    case 14 => map["D54F" := h + 3.0, "D54A" := 2.0 * w + h]
    case _ => map[]
  }

  /** The 8-row D54 collar table of the doors. */
  function DoorCollarRows(h: real, w: real, collar: int): (rows: map<string, real>)
    ensures rows.Keys <= {"D54F", "D54A"}
    ensures 1 <= collar <= 8 <==> "D54F" in rows || "D54A" in rows
    ensures "D54F" in rows <==> collar == 1 || 3 <= collar <= 8
  {
    match collar
    case 1 => map["D54F" := 2.0 * h + w + 9.0]
    case 2 => map["D54A" := 2.0 * h + w]
    case 3 => map["D54F" := h + w + 6.0, "D54A" := h]
    case 4 => map["D54F" := 2.0 * h + 6.0, "D54A" := w]
    case 5 => map["D54F" := h + w + 6.0, "D54A" := h]
    case 6 => map["D54F" := h + 3.0, "D54A" := h + w]
    case 7 => map["D54F" := h + 3.0, "D54A" := h + w]
    case 8 => map["D54F" := w + 3.0, "D54A" := 2.0 * h]
    case _ => map[]
  }

  /** The 8-row D50 collar table of the quadrant arch. */
  function QadialCollarRows(h: real, w: real, collar: int): (rows: map<string, real>)
    ensures rows.Keys <= {"D50F", "D50A"}
    ensures "D50A" in rows <==> 1 <= collar <= 8
    ensures "D50F" in rows <==> collar == 1 || 3 <= collar <= 8
  {
    match collar
    case 1 => map["D50F" := 2.0 * h + w + 9.0, "D50A" := w]
    case 2 => map["D50A" := (h + w) * 2.0]
    case 3 => map["D50F" := w + h + 6.0, "D50A" := w + h]
    case 4 => map["D50F" := 2.0 * h + 6.0, "D50A" := 2.0 * w]
    case 5 => map["D50F" := w + h + 6.0, "D50A" := w]
    case 6 => map["D50F" := w + 3.0, "D50A" := 3.0 * h + w]
    case 7 => map["D50F" := h + 3.0, "D50A" := 2.0 * w + h]
    case 8 => map["D50F" := h + 3.0, "D50A" := 2.0 * w + h]
    case _ => map[]
  }

  /** The divider rows: with a tee, the tee section of the tee's length and a
      D41 bead that runs the frame plus both sides of the tee; without, the
      D41 bead alone. */
  function TeeRows(teeKey: string, frame: real, includeTee: bool, tee: real): (rows: map<string, real>)
    ensures rows.Keys == if includeTee then {teeKey, "D41"} else {"D41"}
    ensures teeKey != "D41" && includeTee ==> rows[teeKey] == tee && rows["D41"] == frame + 2.0 * tee
    ensures !includeTee ==> rows["D41"] == frame
  {
    if includeTee then map[teeKey := tee, "D41" := frame + tee * 2.0]
    else map["D41" := frame]
  }

  /** D29 of the triple-glass panel by net style: single or double net
      sized from the window, or single or double custom net. */
  function NetD29Rows(h: real, w: real, netWidth: real, net: int): (rows: map<string, real>)
    ensures rows.Keys == if 1 <= net <= 4 then {"D29"} else {}
    ensures net == 3 ==> rows["D29"] == 2.0 * (h + netWidth)
    ensures net == 4 ==> rows["D29"] == 4.0 * (h + netWidth)
  {
    match net
    case 1 => map["D29" := (h + w / 3.0) * 2.0]
    case 2 => map["D29" := 4.0 * h + w]
    case 3 => map["D29" := 2.0 * h + netWidth * 2.0]
    case 4 => map["D29" := 4.0 * h + netWidth * 4.0]
    case _ => map[]
  }

  /** The rows the flexible panel writes after its collar rows: the
      mullion and rail sections, and D29 when the window has it. */
  function FlexibleCommonRows(h: real, w: real, includeD29: bool): map<string, real>
  {
    map["M23" := h * 2.0, "M28" := h * 2.0, "M24" := w * 2.0]
      + (if includeD29 then map["D29" := h * 2.0 + w] else map[])
  }

  /** The rows the triple-glass panel writes after its collar rows; its
      M28 runs four heights for the extra glass part. */
  function TripleGlassCommonRows(h: real, w: real, netWidth: real, net: int,
                                 includeD29: bool): map<string, real>
  {
    map["M23" := h * 2.0, "M28" := h * 4.0, "M24" := w * 2.0]
      + (if includeD29 then NetD29Rows(h, w, netWidth, net) else map[])
  }

  /** The slide corner's 30/26 rows and D29 by subtype; an unknown subtype
      writes none of them. */
  function SlideSubtypeRows(h: real, wl: real, wr: real, d29Width: real, subtype: int,
                            useCollar: bool, includeD29: bool,
                            sec30: string, sec26: string): map<string, real>
  {
    var s30 := sec30 + (if useCollar then "F" else "A");
    var s26 := sec26 + (if useCollar then "F" else "A");
    var c30 := if useCollar then 12.0 else 0.0;
    var c26 := if useCollar then 6.0 else 0.0;
    if 1 <= subtype <= 5 then
      var long30 := if subtype <= 2 then (h + wl + wr) * 2.0 + c30 else 2.0 * h + wl + wr + c30;
      var d29 :=
        if subtype == 1 then 2.0 * h + wr
        else if subtype == 2 then 2.0 * h + wl
        else if subtype == 4 then 4.0 * h + d29Width * 4.0
        else 4.0 * h + wl + wr;
      map[s30 := long30, s26 := wl + wr + c26]
        + (if includeD29 then map["D29" := d29] else map[])
    else map[]
  }

  /** The cutting list of a window: collar rows first, then the rows every
      window of the shape has, then the optional rows. */
  function Sections(w: Window): map<string, real>
  {
    match w
    case FlexiblePanel(h, wd, c, d29, m) =>
      PanelCollarRows(h, wd, c, FlexibleNames(m)) + FlexibleCommonRows(h, wd, d29)
    case ThreePanel3Glass(h, wd, n, c, net, d29, p30, p26) =>
      PanelCollarRows(h, wd, c, PrefixNames(p30, p26)) + TripleGlassCommonRows(h, wd, n, net, d29)
    case Fix(h, wd, c, t, tee) =>
      D54CollarRows(h, wd, c) + TeeRows("D52", (h + wd) * 2.0, t, tee)
    case RandomFix(l, t, tee) =>
      map["D54" := l] + TeeRows("D52", l, t, tee)
    case Openable(h, wd, c, net) =>
      D54CollarRows(h, wd, c) + map["D50" := (h + wd) * 2.0]
        + (if net then map["D29" := (h + wd) * 2.0] else map[])
    case Door(h, wd, c, d46, t, tee, double) =>
      DoorCollarRows(h, wd, c)
        + (if d46 then map["D46" := wd, "D50" := if double then 4.0 * h + wd else 2.0 * h + wd]
           else map["D50" := if double then 4.0 * h + 2.0 * wd else (h + wd) * 2.0])
        + (if t then map["D52" := tee] else map[])
    case QadialArch(h, wd, c, t, tee) =>
      QadialCollarRows(h, wd, c) + TeeRows("D40", (h + wd) * 2.0, t, tee)
    case RoundArch(a, wd, _, collar, t, tee) =>
      (if collar then map["D50F" := a + 12.0, "D50A" := wd] else map["D50A" := a + wd + 12.0])
        + TeeRows("D40", a + wd + 12.0, t, tee)
    case FixCorner(h, l, r, collar, t, tee) =>
      (if collar then map["D54F" := 2.0 * h + (l + r) * 2.0 + 18.0]
       else map["D54A" := 2.0 * h + (l + r) * 2.0])
        + TeeRows("D40", 2.0 * h + (l + r) * 2.0, t, tee)
    case SlideCorner(h, l, r, d, s, collar, d29, s30, s26) =>
      SlideSubtypeRows(h, l, r, d, s, collar, d29, s30, s26)
        + map["M23" := h * (if s == 5 then 4.0 else 2.0),
              "M28" := h * (if s == 1 || s == 2 then 2.0 else 4.0),
              "M24" := (l + r) * 2.0]
  }

  /** Glass area in square feet: height by width (the two widths together
      for corner shapes); a random fixed window has none. */
  function Area(w: Window): (a: real)
    ensures Valid(w) ==> a >= 0.0
    ensures w.RandomFix? ==> a == 0.0
  {
    match w
    case RandomFix(_, _, _) => 0.0
    case FixCorner(h, l, r, _, _, _) => SquareFeet(h, l + r)
    case SlideCorner(h, l, r, _, _, _, _, _, _) => SquareFeet(h, l + r)
    case _ => SquareFeet(w.height, w.width)
  }

  /** Square feet of a height by a width given in inches. */
  function SquareFeet(height: real, width: real): (a: real)
    ensures height >= 0.0 && width >= 0.0 ==> a >= 0.0
    ensures 144.0 * a == height * width
  {
    (height / 12.0) * (width / 12.0)
  }

  /** The flexible panel bills exact feet unrounded; every other shape
      always adds a tier. */
  function RuleOf(w: Window): RoundingRule
  {
    if w.FlexiblePanel? then ExactFootUnrounded else HalfOrFullFoot
  }

  /** The fixed, random-fixed and openable windows skip a section without a
      rate; the others stop. */
  function PolicyOf(w: Window): RatePolicy
  {
    if w.Fix? || w.RandomFix? || w.Openable? then SkipMissingRate else EveryRateRequired
  }

  /** Price one window: its cutting list, rounded by its rule, against the
      rate table, under its missing-rate policy. */
  method CalculateTotalPrice(w: Window, rates: map<string, real>) returns (outcome: PriceOutcome)
    ensures PolicyOf(w) == SkipMissingRate ==> outcome.Priced?
    ensures outcome.MissingRate? <==> PolicyOf(w) == EveryRateRequired && !(Sections(w).Keys <= rates.Keys)
    ensures outcome.MissingRate? ==> outcome.section in Sections(w) && outcome.section !in rates
    ensures outcome.Priced? ==> outcome.total == LineSum(Sections(w), rates, RuleOf(w), Sections(w).Keys)
    ensures outcome.Priced? ==> outcome.unpriced == Sections(w).Keys - rates.Keys
  {
    outcome := PriceSections(Sections(w), rates, RuleOf(w), PolicyOf(w));
  }
}
