/** Properties of the cutting lists: which rows every shape always has, how
    the flags switch rows on and off, how M-series naming renames rows, what
    a tee adds, and that a validated window never asks for a non-positive
    length or a negative price. */
module FrameProperties {
  import opened Rounding
  import opened Pricing
  import opened Frames

  /** A section name of the DC series. */
  predicate StartsWithDC(name: string)
  {
    |name| >= 2 && name[0] == 'D' && name[1] == 'C'
  }

  /** The M-series name the flexible panel uses in place of a DC name. */
  function MSeriesName(name: string): string
  {
    if name == "DC30F" then "M30F"
    else if name == "DC30C" then "M30"
    else if name == "DC26F" then "M26F"
    else if name == "DC26C" then "M26"
    else name
  }

  /** The DC name an M-series name of the flexible panel stands for. */
  function DCSeriesName(name: string): string
  {
    if name == "M30F" then "DC30F"
    else if name == "M30" then "DC30C"
    else if name == "M26F" then "DC26F"
    else if name == "M26" then "DC26C"
    else name
  }

  /** Two names that end in different characters differ. */
  lemma SuffixesDiffer(p: string, q: string, a: char, b: char)
    requires a != b
    ensures p + [a] != q + [b]
  {
    assert (p + [a])[|p|] == a;
    assert (q + [b])[|q|] == b;
  }

  /** Two names with the same suffix differ when their stems differ. */
  lemma StemsDiffer(p: string, q: string, a: char)
    requires p != q
    ensures p + [a] != q + [a]
  {
    if |p| == |q| {
      var i :| 0 <= i < |p| && p[i] != q[i];
      assert (p + [a])[i] == p[i];
      assert (q + [a])[i] == q[i];
    }
  }

  // ----- panel collar table -----

  /** The panel collar table only writes its four names; every collar type
      in 1..14 has a 26-series row, and any other collar type writes
      nothing. */
  lemma PanelRowsNames(h: real, w: real, collar: int, n: PanelNames)
    ensures PanelCollarRows(h, w, collar, n).Keys <= {n.frame30, n.coupled30, n.frame26, n.coupled26}
    ensures 1 <= collar <= 14 ==> n.frame26 in PanelCollarRows(h, w, collar, n)
                                  || n.coupled26 in PanelCollarRows(h, w, collar, n)
    ensures !(1 <= collar <= 14) ==> PanelCollarRows(h, w, collar, n) == map[]
  {
  }

  /** The name that takes the place of `k` when a panel table is written
      with the names `m` instead of `n`. */
  function RenamePanel(n: PanelNames, m: PanelNames, k: string): string
  {
    if k == n.frame30 then m.frame30
    else if k == n.coupled30 then m.coupled30
    else if k == n.frame26 then m.frame26
    else if k == n.coupled26 then m.coupled26
    else k
  }

  /** The four names of a panel table are pairwise different. */
  predicate DistinctNames(n: PanelNames)
  {
    && n.frame30 != n.coupled30 && n.frame30 != n.frame26 && n.frame30 != n.coupled26
    && n.coupled30 != n.frame26 && n.coupled30 != n.coupled26 && n.frame26 != n.coupled26
  }

  /** Writing the panel table under other (distinct) names renames its rows
      and keeps every length. */
  lemma PanelRowsRename(h: real, w: real, collar: int, n: PanelNames, m: PanelNames)
    requires DistinctNames(n) && DistinctNames(m)
    ensures var a := PanelCollarRows(h, w, collar, n);
            var b := PanelCollarRows(h, w, collar, m);
      forall k :: k in a ==> RenamePanel(n, m, k) in b && b[RenamePanel(n, m, k)] == a[k]
  {
  }

  /** The flexible panel always has M23 = 2h, M28 = 2h and M24 = 2w, and has
      D29 = 2h + w exactly when it is built with D29; a collar type in 1..14
      adds that collar's table rows and nothing else. */
  lemma FlexiblePanelRows(w: Window)
    requires w.FlexiblePanel?
    ensures var s := Sections(w);
      && "M23" in s && s["M23"] == 2.0 * w.height
      && "M28" in s && s["M28"] == 2.0 * w.height
      && "M24" in s && s["M24"] == 2.0 * w.width
    ensures "D29" in Sections(w) <==> w.includeD29
    ensures w.includeD29 ==> Sections(w)["D29"] == 2.0 * w.height + w.width
    ensures var rows := PanelCollarRows(w.height, w.width, w.collar, FlexibleNames(w.useMSeries));
      && Sections(w).Keys == rows.Keys + {"M23", "M28", "M24"} + (if w.includeD29 then {"D29"} else {})
      && forall k :: k in rows ==> Sections(w)[k] == rows[k]
  {
    PanelRowsNames(w.height, w.width, w.collar, FlexibleNames(w.useMSeries));
  }

  /** A collar type outside 1..14 gives the flexible panel only its common
      rows and, if built with it, D29. */
  lemma FlexiblePanelUnknownCollar(w: Window)
    requires w.FlexiblePanel? && !(1 <= w.collar <= 14)
    ensures Sections(w).Keys == {"M23", "M28", "M24"} + (if w.includeD29 then {"D29"} else {})
  {
    FlexiblePanelRows(w);
    PanelRowsNames(w.height, w.width, w.collar, FlexibleNames(w.useMSeries));
  }

  /** MSeriesName and DCSeriesName are the renamings between the flexible
      panel's two name sets. */
  lemma SeriesNamesAreRenamings(k: string)
    ensures MSeriesName(k) == RenamePanel(FlexibleNames(false), FlexibleNames(true), k)
    ensures DCSeriesName(k) == RenamePanel(FlexibleNames(true), FlexibleNames(false), k)
  {
  }

  /** Rows written after a renamed panel table keep the renaming intact,
      as long as they use none of the renamed names. */
  lemma RenameUnderCommonRows(a: map<string, real>, b: map<string, real>, c: map<string, real>,
                              n: PanelNames, m: PanelNames)
    requires forall k :: k in a ==> RenamePanel(n, m, k) in b && b[RenamePanel(n, m, k)] == a[k]
    requires a.Keys <= {n.frame30, n.coupled30, n.frame26, n.coupled26}
    requires b.Keys <= {m.frame30, m.coupled30, m.frame26, m.coupled26}
    requires forall k :: k in c ==> k !in {n.frame30, n.coupled30, n.frame26, n.coupled26}
    requires forall k :: k in c ==> k !in {m.frame30, m.coupled30, m.frame26, m.coupled26}
    ensures forall k :: k in a + c ==> RenamePanel(n, m, k) in b + c && (b + c)[RenamePanel(n, m, k)] == (a + c)[k]
  {
    forall k | k in a + c
      ensures RenamePanel(n, m, k) in b + c && (b + c)[RenamePanel(n, m, k)] == (a + c)[k]
    {
      if k in c {
        assert RenamePanel(n, m, k) == k;
      }
    }
  }

  /** The flexible panel's common rows use none of its collar-table names,
      in either series. */
  lemma FlexibleCommonRowsAvoidPanelNames(h: real, w: real, includeD29: bool, useMSeries: bool)
    ensures var n := FlexibleNames(useMSeries);
      forall k :: k in FlexibleCommonRows(h, w, includeD29) ==>
        k !in {n.frame30, n.coupled30, n.frame26, n.coupled26} && !StartsWithDC(k)
  {
    assert FlexibleCommonRows(h, w, includeD29).Keys <= {"M23", "M28", "M24", "D29"};
  }

  /** M-series naming renames DC30F, DC30C, DC26F and DC26C to M30F, M30,
      M26F and M26 and changes no length. */
  lemma FlexiblePanelMSeries(w: Window)
    requires w.FlexiblePanel?
    ensures var plain := Sections(w.(useMSeries := false));
            var mSeries := Sections(w.(useMSeries := true));
      forall k :: k in plain ==> MSeriesName(k) in mSeries && mSeries[MSeriesName(k)] == plain[k]
    ensures var plain := Sections(w.(useMSeries := false));
            var mSeries := Sections(w.(useMSeries := true));
      forall k :: k in mSeries ==> DCSeriesName(k) in plain && plain[DCSeriesName(k)] == mSeries[k]
  {
    var dc, ms := FlexibleNames(false), FlexibleNames(true);
    var h, wd, c := w.height, w.width, w.collar;
    var common := FlexibleCommonRows(h, wd, w.includeD29);
    var plainRows := PanelCollarRows(h, wd, c, dc);
    var mRows := PanelCollarRows(h, wd, c, ms);
    assert Sections(w.(useMSeries := false)) == plainRows + common;
    assert Sections(w.(useMSeries := true)) == mRows + common;
    FlexibleCommonRowsAvoidPanelNames(h, wd, w.includeD29, false);
    FlexibleCommonRowsAvoidPanelNames(h, wd, w.includeD29, true);
    PanelRowsNames(h, wd, c, dc);
    PanelRowsNames(h, wd, c, ms);
    PanelRowsRename(h, wd, c, dc, ms);
    PanelRowsRename(h, wd, c, ms, dc);
    RenameUnderCommonRows(plainRows, mRows, common, dc, ms);
    RenameUnderCommonRows(mRows, plainRows, common, ms, dc);
    forall k ensures MSeriesName(k) == RenamePanel(dc, ms, k) && DCSeriesName(k) == RenamePanel(ms, dc, k) {
      SeriesNamesAreRenamings(k);
    }
  }

  /** The M-series collar rows of the flexible panel have no DC name. */
  lemma MSeriesRowsHaveNoDCName(h: real, w: real, collar: int)
    ensures forall k :: k in PanelCollarRows(h, w, collar, FlexibleNames(true)) ==> !StartsWithDC(k)
  {
    var n := FlexibleNames(true);
    PanelRowsNames(h, w, collar, n);
    assert forall k :: k in {n.frame30, n.coupled30, n.frame26, n.coupled26} ==> k[0] == 'M';
  }

  /** A flexible panel with M-series naming has no section name starting
      with DC. */
  lemma FlexiblePanelMSeriesHasNoDCName(w: Window)
    requires w.FlexiblePanel? && w.useMSeries
    ensures forall k :: k in Sections(w) ==> !StartsWithDC(k)
  {
    MSeriesRowsHaveNoDCName(w.height, w.width, w.collar);
    FlexibleCommonRowsAvoidPanelNames(w.height, w.width, w.includeD29, true);
  }

  /** The triple-glass panel always has M23 = 2h, M28 = 4h and M24 = 2w; it
      has D29 exactly when it is built with D29 and the net style is 1..4,
      with the length that net style calls for. */
  lemma ThreePanel3GlassRows(w: Window)
    requires w.ThreePanel3Glass?
    ensures var s := Sections(w);
      && "M23" in s && s["M23"] == 2.0 * w.height
      && "M28" in s && s["M28"] == 4.0 * w.height
      && "M24" in s && s["M24"] == 2.0 * w.width
    ensures "D29" in Sections(w) <==> w.includeD29 && 1 <= w.net <= 4
    ensures "D29" in Sections(w) && w.net == 1 ==> Sections(w)["D29"] == 2.0 * w.height + 2.0 * w.width / 3.0
    ensures "D29" in Sections(w) && w.net == 2 ==> Sections(w)["D29"] == 4.0 * w.height + w.width
    ensures "D29" in Sections(w) && w.net == 3 ==> Sections(w)["D29"] == 2.0 * (w.height + w.netWidth)
    ensures "D29" in Sections(w) && w.net == 4 ==> Sections(w)["D29"] == 4.0 * (w.height + w.netWidth)
  {
    var n := PrefixNames(w.prefix30, w.prefix26);
    PanelRowsNames(w.height, w.width, w.collar, n);
    var names := ["M23", "M28", "M24", "D29"];
    forall k | k in names ensures k !in PanelCollarRows(w.height, w.width, w.collar, n) {
      SuffixesDiffer(w.prefix30, k[..2], 'F', k[2]);
      SuffixesDiffer(w.prefix30, k[..2], 'C', k[2]);
      SuffixesDiffer(w.prefix26, k[..2], 'F', k[2]);
      SuffixesDiffer(w.prefix26, k[..2], 'C', k[2]);
      assert k == k[..2] + [k[2]];
    }
  }

  // ----- tee / divider -----

  /** The shapes whose tee adds a divider section and widens the D41 bead. */
  predicate HasTeeDivider(w: Window)
  {
    w.Fix? || w.RandomFix? || w.QadialArch? || w.RoundArch? || w.FixCorner?
  }

  /** The divider section of a tee shape: D52 on the fixed windows, D40 on
      the arches and the fixed corner. */
  function TeeKey(w: Window): string
    requires HasTeeDivider(w)
  {
    if w.Fix? || w.RandomFix? then "D52" else "D40"
  }

  /** The rows a tee shape writes before its divider rows. */
  function FrameRows(w: Window): map<string, real>
    requires HasTeeDivider(w)
  {
    match w
    case Fix(h, wd, c, _, _) => D54CollarRows(h, wd, c)
    case RandomFix(l, _, _) => map["D54" := l]
    case QadialArch(h, wd, c, _, _) => QadialCollarRows(h, wd, c)
    case RoundArch(a, wd, _, collar, _, _) =>
      if collar then map["D50F" := a + 12.0, "D50A" := wd] else map["D50A" := a + wd + 12.0]
    case FixCorner(h, l, r, collar, _, _) =>
      if collar then map["D54F" := 2.0 * h + (l + r) * 2.0 + 18.0]
      else map["D54A" := 2.0 * h + (l + r) * 2.0]
  }

  /** The same tee shape with the tee choice and tee length replaced. */
  function WithTee(w: Window, includeTee: bool, tee: real): (r: Window)
    requires HasTeeDivider(w)
    ensures HasTeeDivider(r) && r.includeTee == includeTee && r.tee == tee
    ensures r.Fix? == w.Fix? && r.RandomFix? == w.RandomFix? && r.QadialArch? == w.QadialArch?
         && r.RoundArch? == w.RoundArch? && r.FixCorner? == w.FixCorner?
    ensures FrameRows(r) == FrameRows(w) && BeadFrame(r) == BeadFrame(w) && TeeKey(r) == TeeKey(w)
    ensures Area(r) == Area(w)
    ensures includeTee == w.includeTee && tee == w.tee ==> r == w
  {
    match w
    case Fix(h, wd, c, _, _) => Fix(h, wd, c, includeTee, tee)
    case RandomFix(l, _, _) => RandomFix(l, includeTee, tee)
    case QadialArch(h, wd, c, _, _) => QadialArch(h, wd, c, includeTee, tee)
    case RoundArch(a, wd, h, collar, _, _) => RoundArch(a, wd, h, collar, includeTee, tee)
    case FixCorner(h, l, r, collar, _, _) => FixCorner(h, l, r, collar, includeTee, tee)
  }

  /** The frame length the D41 bead of a tee shape runs before any tee. */
  function BeadFrame(w: Window): real
    requires HasTeeDivider(w)
  {
    match w
    case Fix(h, wd, _, _, _) => (h + wd) * 2.0
    case RandomFix(l, _, _) => l
    case QadialArch(h, wd, _, _, _) => (h + wd) * 2.0
    case RoundArch(a, wd, _, _, _, _) => a + wd + 12.0
    case FixCorner(h, l, r, _, _, _) => 2.0 * h + (l + r) * 2.0
  }

  /** A tee shape's list is its frame rows followed by its divider rows. */
  lemma TeeShapeSections(w: Window)
    requires HasTeeDivider(w)
    ensures Sections(w) == FrameRows(w) + TeeRows(TeeKey(w), BeadFrame(w), w.includeTee, w.tee)
  {
  }

  /** No collar or frame row of a tee shape uses the divider names. */
  lemma FrameRowsAvoidDividerNames(w: Window)
    requires HasTeeDivider(w)
    ensures TeeKey(w) !in FrameRows(w) && "D41" !in FrameRows(w)
  {
  }

  /** Adding a divider to rows that end with a D41 bead: the divider row is
      set and the bead replaced, whatever came before. */
  lemma AddDividerToRows(rows: map<string, real>, teeKey: string, frame: real, tee: real)
    ensures var plain := rows + TeeRows(teeKey, frame, false, tee);
      rows + TeeRows(teeKey, frame, true, tee) == plain[teeKey := tee]["D41" := plain["D41"] + 2.0 * tee]
  {
  }

  /** A tee of length t adds the divider section, of length t, and makes the
      D41 bead exactly 2t longer; every other row is the same as without the
      tee. */
  lemma TeeAddsDivider(w: Window)
    requires HasTeeDivider(w) && w.includeTee
    ensures var plain := Sections(WithTee(w, false, w.tee));
      && "D41" in plain
      && Sections(w) == plain[TeeKey(w) := w.tee]["D41" := plain["D41"] + 2.0 * w.tee]
  {
    var wp := WithTee(w, false, w.tee);
    TeeShapeSections(w);
    TeeShapeSections(wp);
    assert FrameRows(wp) == FrameRows(w) && BeadFrame(wp) == BeadFrame(w) && TeeKey(wp) == TeeKey(w);
    AddDividerToRows(FrameRows(w), TeeKey(w), BeadFrame(w), w.tee);
  }

  /** Without a tee there is no divider section, and the length given for the
      tee plays no part. */
  lemma NoTeeNoDivider(w: Window, otherTee: real)
    requires HasTeeDivider(w) && !w.includeTee
    ensures TeeKey(w) !in Sections(w) && "D41" in Sections(w)
    ensures Sections(WithTee(w, false, otherTee)) == Sections(w)
  {
    var wt := WithTee(w, false, otherTee);
    TeeShapeSections(w);
    TeeShapeSections(wt);
    assert FrameRows(wt) == FrameRows(w) && BeadFrame(wt) == BeadFrame(w) && TeeKey(wt) == TeeKey(w);
    FrameRowsAvoidDividerNames(w);
  }

  // ----- openable window and doors -----

  /** The openable window always has the D50 sash, running its perimeter,
      and has a D29 net section of the same length exactly when it has a
      net. */
  lemma OpenableRows(w: Window)
    requires w.Openable?
    ensures "D50" in Sections(w) && Sections(w)["D50"] == 2.0 * (w.height + w.width)
    ensures "D29" in Sections(w) <==> w.hasNet
    ensures w.hasNet ==> Sections(w)["D29"] == Sections(w)["D50"]
  {
  }

  /** A door has the D46 bottom section, one width long, exactly when it is
      built with it, and the D52 tee exactly when it has a tee; a single door
      without D46 runs D50 round its whole perimeter. */
  lemma DoorRows(w: Window)
    requires w.Door?
    ensures "D46" in Sections(w) <==> w.includeD46
    ensures w.includeD46 ==> Sections(w)["D46"] == w.width
    ensures "D52" in Sections(w) <==> w.includeTee
    ensures w.includeTee ==> Sections(w)["D52"] == w.tee
    ensures "D50" in Sections(w)
    ensures !w.includeD46 && !w.isDouble ==> Sections(w)["D50"] == 2.0 * (w.height + w.width)
  {
  }

  /** The four D50 formulas of a door: the D46 bottom section takes one
      width off D50, and a double door adds two heights to it. */
  lemma DoorD50Variants(w: Window)
    requires w.Door?
    ensures Sections(w.(includeD46 := true))["D50"] + w.width == Sections(w.(includeD46 := false))["D50"]
    ensures Sections(w.(isDouble := true))["D50"] == Sections(w.(isDouble := false))["D50"] + 2.0 * w.height
  {
  }

  // ----- slide corner -----

  /** The slide corner always has M23, M28 and M24: M23 runs four heights
      only for the centre slide (subtype 5), M28 two heights only for the
      side-fix subtypes 1 and 2, M24 both widths twice. D29 is there exactly
      when the window is built with it and the subtype is known. */
  lemma SlideCornerRows(w: Window)
    requires w.SlideCorner? && w.height > 0.0
    ensures "M23" in Sections(w) && "M28" in Sections(w) && "M24" in Sections(w)
    ensures Sections(w)["M23"] == 4.0 * w.height <==> w.subtype == 5
    ensures Sections(w)["M23"] == 2.0 * w.height <==> w.subtype != 5
    ensures Sections(w)["M28"] == 2.0 * w.height <==> w.subtype == 1 || w.subtype == 2
    ensures Sections(w)["M28"] == 4.0 * w.height <==> !(w.subtype == 1 || w.subtype == 2)
    ensures Sections(w)["M24"] == 2.0 * (w.leftWidth + w.rightWidth)
    ensures "D29" in Sections(w) <==> w.includeD29 && 1 <= w.subtype <= 5
  {
    var sub := SlideSubtypeRows(w.height, w.leftWidth, w.rightWidth, w.d29Width, w.subtype,
                                w.useCollar, w.includeD29, w.sec30, w.sec26);
    var suffix := if w.useCollar then 'F' else 'A';
    assert w.sec30 + (if w.useCollar then "F" else "A") == w.sec30 + [suffix];
    assert w.sec26 + (if w.useCollar then "F" else "A") == w.sec26 + [suffix];
    assert "D29" == "D2" + ['9'];
    SuffixesDiffer(w.sec30, "D2", suffix, '9');
    SuffixesDiffer(w.sec26, "D2", suffix, '9');
  }

  /** The slide corner's own rows with and without the collar style: the
      collar style adds 12 inches to the 30 section and 6 to the 26 one and
      renames both from suffix A to suffix F. */
  lemma SlideRowsCollarStyle(h: real, l: real, r: real, d: real, subtype: int, includeD29: bool,
                             s30: string, s26: string)
    requires 1 <= subtype <= 5 && s30 != s26
    ensures var on := SlideSubtypeRows(h, l, r, d, subtype, true, includeD29, s30, s26);
            var off := SlideSubtypeRows(h, l, r, d, subtype, false, includeD29, s30, s26);
      && s30 + "F" in on && s30 + "A" in off && on[s30 + "F"] == off[s30 + "A"] + 12.0
      && s26 + "F" in on && s26 + "A" in off && on[s26 + "F"] == off[s26 + "A"] + 6.0
      && s30 + "A" !in on && s26 + "A" !in on
  {
    assert s30 + "F" == s30 + ['F'] && s30 + "A" == s30 + ['A'];
    assert s26 + "F" == s26 + ['F'] && s26 + "A" == s26 + ['A'];
    assert "D29" == "D2" + ['9'];
    StemsDiffer(s30, s26, 'F');
    StemsDiffer(s30, s26, 'A');
    SuffixesDiffer(s30, s26, 'A', 'F');
    SuffixesDiffer(s26, s30, 'A', 'F');
    SuffixesDiffer(s30, s30, 'A', 'F');
    SuffixesDiffer(s26, s26, 'A', 'F');
    SuffixesDiffer(s30, "D2", 'F', '9');
    SuffixesDiffer(s26, "D2", 'F', '9');
    SuffixesDiffer(s30, "D2", 'A', '9');
    SuffixesDiffer(s26, "D2", 'A', '9');
  }

  /** A name ending in F or A is none of the rail names M23, M28, M24. */
  lemma NotARailName(stem: string, suffix: char)
    requires suffix == 'F' || suffix == 'A'
    ensures stem + [suffix] != "M23" && stem + [suffix] != "M28" && stem + [suffix] != "M24"
  {
    assert "M23" == "M2" + ['3'] && "M28" == "M2" + ['8'] && "M24" == "M2" + ['4'];
    SuffixesDiffer(stem, "M2", suffix, '3');
    SuffixesDiffer(stem, "M2", suffix, '8');
    SuffixesDiffer(stem, "M2", suffix, '4');
  }

  /** With the collar style, the slide corner's 30 and 26 sections take
      suffix F and are 12 and 6 inches longer than the suffix-A sections of
      the same window without it; the A sections are then absent. */
  lemma SlideCornerCollarStyle(w: Window)
    requires w.SlideCorner? && 1 <= w.subtype <= 5 && w.sec30 != w.sec26
    ensures var on := Sections(w.(useCollar := true));
            var off := Sections(w.(useCollar := false));
      && w.sec30 + "F" in on && w.sec30 + "A" in off && on[w.sec30 + "F"] == off[w.sec30 + "A"] + 12.0
      && w.sec26 + "F" in on && w.sec26 + "A" in off && on[w.sec26 + "F"] == off[w.sec26 + "A"] + 6.0
      && w.sec30 + "A" !in on && w.sec26 + "A" !in on
  {
    SlideRowsCollarStyle(w.height, w.leftWidth, w.rightWidth, w.d29Width, w.subtype,
                         w.includeD29, w.sec30, w.sec26);
    assert w.sec30 + "F" == w.sec30 + ['F'] && w.sec30 + "A" == w.sec30 + ['A'];
    assert w.sec26 + "F" == w.sec26 + ['F'] && w.sec26 + "A" == w.sec26 + ['A'];
    NotARailName(w.sec30, 'F');
    NotARailName(w.sec30, 'A');
    NotARailName(w.sec26, 'F');
    NotARailName(w.sec26, 'A');
  }

  // ----- validated windows -----

  /** Every length in a map is positive. */
  ghost predicate AllPositive(rows: map<string, real>)
  {
    forall k :: k in rows ==> rows[k] > 0.0
  }

  lemma UnionPositive(a: map<string, real>, b: map<string, real>)
    requires AllPositive(a) && AllPositive(b)
    ensures AllPositive(a + b)
  {
  }

  lemma PanelRowsPositive(h: real, w: real, collar: int, n: PanelNames)
    requires h > 0.0 && w > 0.0
    ensures AllPositive(PanelCollarRows(h, w, collar, n))
  {
  }

  lemma D54RowsPositive(h: real, w: real, collar: int)
    requires h > 0.0 && w > 0.0
    ensures AllPositive(D54CollarRows(h, w, collar))
  {
  }

  lemma DoorRowsPositive(h: real, w: real, collar: int)
    requires h > 0.0 && w > 0.0
    ensures AllPositive(DoorCollarRows(h, w, collar))
  {
  }

  lemma QadialRowsPositive(h: real, w: real, collar: int)
    requires h > 0.0 && w > 0.0
    ensures AllPositive(QadialCollarRows(h, w, collar))
  {
  }

  lemma TeeRowsPositive(teeKey: string, frame: real, includeTee: bool, tee: real)
    requires frame > 0.0 && (includeTee ==> tee > 0.0)
    ensures AllPositive(TeeRows(teeKey, frame, includeTee, tee))
  {
  }

  lemma PanelLengthsPositive(w: Window)
    requires Valid(w) && (w.FlexiblePanel? || w.ThreePanel3Glass?)
    ensures AllPositive(Sections(w))
  {
    match w
    case FlexiblePanel(h, wd, c, d29, m) =>
      PanelRowsPositive(h, wd, c, FlexibleNames(m));
      UnionPositive(PanelCollarRows(h, wd, c, FlexibleNames(m)), FlexibleCommonRows(h, wd, d29));
    case ThreePanel3Glass(h, wd, n, c, net, d29, p30, p26) =>
      PanelRowsPositive(h, wd, c, PrefixNames(p30, p26));
      UnionPositive(PanelCollarRows(h, wd, c, PrefixNames(p30, p26)), TripleGlassCommonRows(h, wd, n, net, d29));
  }

  lemma FixedLengthsPositive(w: Window)
    requires Valid(w) && (w.Fix? || w.RandomFix? || w.Openable?)
    ensures AllPositive(Sections(w))
  {
    match w
    case Fix(h, wd, c, t, tee) =>
      D54RowsPositive(h, wd, c);
      TeeRowsPositive("D52", (h + wd) * 2.0, t, tee);
      UnionPositive(D54CollarRows(h, wd, c), TeeRows("D52", (h + wd) * 2.0, t, tee));
    case RandomFix(l, t, tee) =>
      TeeRowsPositive("D52", l, t, tee);
      UnionPositive(map["D54" := l], TeeRows("D52", l, t, tee));
    case Openable(h, wd, c, net) =>
      D54RowsPositive(h, wd, c);
  }

  lemma DoorAndArchLengthsPositive(w: Window)
    requires Valid(w) && (w.Door? || w.QadialArch? || w.RoundArch?)
    ensures AllPositive(Sections(w))
  {
    match w
    case Door(h, wd, c, d46, t, tee, double) =>
      DoorRowsPositive(h, wd, c);
    case QadialArch(h, wd, c, t, tee) =>
      QadialRowsPositive(h, wd, c);
      TeeRowsPositive("D40", (h + wd) * 2.0, t, tee);
      UnionPositive(QadialCollarRows(h, wd, c), TeeRows("D40", (h + wd) * 2.0, t, tee));
    case RoundArch(a, wd, _, collar, t, tee) =>
      TeeRowsPositive("D40", a + wd + 12.0, t, tee);
  }

  lemma CornerLengthsPositive(w: Window)
    requires Valid(w) && (w.FixCorner? || w.SlideCorner?)
    ensures AllPositive(Sections(w))
  {
    match w
    case FixCorner(h, l, r, collar, t, tee) =>
      TeeRowsPositive("D40", 2.0 * h + (l + r) * 2.0, t, tee);
    case SlideCorner(h, l, r, d, st, collar, d29, s30, s26) =>
  }

  /** A window whose dialogue accepted its inputs never asks for a section
      of zero or negative length. */
  lemma ValidLengthsPositive(w: Window)
    requires Valid(w)
    ensures AllPositive(Sections(w))
  {
    if w.FlexiblePanel? || w.ThreePanel3Glass? {
      PanelLengthsPositive(w);
    } else if w.Fix? || w.RandomFix? || w.Openable? {
      FixedLengthsPositive(w);
    } else if w.Door? || w.QadialArch? || w.RoundArch? {
      DoorAndArchLengthsPositive(w);
    } else {
      CornerLengthsPositive(w);
    }
  }

  /** With non-negative rates, a validated window never gets a negative
      price. */
  lemma ValidWindowPriceNonNegative(w: Window, rates: map<string, real>)
    requires Valid(w)
    requires forall k :: k in rates ==> rates[k] >= 0.0
    ensures LineSum(Sections(w), rates, RuleOf(w), Sections(w).Keys) >= 0.0
  {
    ValidLengthsPositive(w);
    LineSumNonNegative(Sections(w), rates, RuleOf(w), Sections(w).Keys);
  }

  /** Area times 144 is height times width in square inches; the corner
      shapes count both widths, and a random fixed window has no area. */
  lemma AreaInSquareInches(w: Window)
    ensures 144.0 * Area(w) == match w
      case RandomFix(_, _, _) => 0.0
      case FixCorner(h, l, r, _, _, _) => h * (l + r)
      case SlideCorner(h, l, r, _, _, _, _, _, _) => h * (l + r)
      case _ => w.height * w.width
  {
  }

  /** A three-panel window 48 inches high and 36 wide with collar type 1:
      its cutting list, and its 141-inch frame section billed as 12 feet
      (9 inches past 11 feet is more than six). */
  lemma ThreePanelExample()
    ensures Sections(FlexiblePanel(48.0, 36.0, 1, true, false))
         == map["DC30F" := 141.0, "DC26F" := 39.0, "M23" := 96.0, "M28" := 96.0,
                "M24" := 72.0, "D29" := 132.0]
    ensures ExactFootMarketFeet(141.0) == 12.0
  {
    VariantsAgreeOffFoot(141.0);
    FullTier(141.0, 11);
  }
}
