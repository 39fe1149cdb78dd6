/** The window factory: a menu selector 1..14 picks a shape together with the
    flags its constructor is given (whether D29 is cut, the section name
    series, single or double door); every other selector yields nothing. */
module Factory {
  import opened Frames
  import opened FrameProperties

  datatype Option<T> = None | Some(value: T)

  /** A shape as the factory builds it, before its dimensions are entered:
      the constructor flags and nothing else. */
  datatype Kind =
    | FlexiblePanelKind(includeD29: bool, useMSeries: bool)
    | ThreePanel3GlassKind(includeD29: bool, prefix30: string, prefix26: string)
    | FixKind
    | RandomFixKind
    | OpenableKind
    | DoorKind(isDouble: bool)
    | QadialArchKind
    | RoundArchKind
    | FixCornerKind
    | SlideCornerKind(includeD29: bool, sec30: string, sec26: string)

  /** The kind a window with entered dimensions was built from. */
  function KindOf(w: Window): Kind
  {
    match w
    case FlexiblePanel(_, _, _, d29, m) => FlexiblePanelKind(d29, m)
    case ThreePanel3Glass(_, _, _, _, _, d29, p30, p26) => ThreePanel3GlassKind(d29, p30, p26)
    case Fix(_, _, _, _, _) => FixKind
    case RandomFix(_, _, _) => RandomFixKind
    case Openable(_, _, _, _) => OpenableKind
    case Door(_, _, _, _, _, _, double) => DoorKind(double)
    case QadialArch(_, _, _, _, _) => QadialArchKind
    case RoundArch(_, _, _, _, _, _) => RoundArchKind
    case FixCorner(_, _, _, _, _, _) => FixCornerKind
    case SlideCorner(_, _, _, _, _, _, d29, s30, s26) => SlideCornerKind(d29, s30, s26)
  }

  /** The factory: selectors 1 and 2 are the three- and two-panel windows,
      3 and 4 the triple-glass panels in the DC and M series, 5 to 12 the
      fixed, random, openable, single and double door, quadrant arch, round
      arch and fixed corner shapes, 13 and 14 the slide corner in the DC and
      M series. */
  function CreateComponent(selector: int): (k: Option<Kind>)
    ensures k.Some? <==> 1 <= selector <= 14
    ensures k.Some? && (k.value.FlexiblePanelKind? || k.value.ThreePanel3GlassKind?
                        || k.value.SlideCornerKind?)
            ==> (k.value.includeD29 <==> selector in {1, 3, 13})
  {
    if selector == 1 then Some(FlexiblePanelKind(true, false))
    else if selector == 2 then Some(FlexiblePanelKind(false, true))
    else if selector == 3 then Some(ThreePanel3GlassKind(true, "DC30", "DC26"))
    else if selector == 4 then Some(ThreePanel3GlassKind(false, "M30", "M26"))
    else if selector == 5 then Some(FixKind)
    else if selector == 6 then Some(RandomFixKind)
    else if selector == 7 then Some(OpenableKind)
    else if selector == 8 then Some(DoorKind(false))
    else if selector == 9 then Some(DoorKind(true))
    else if selector == 10 then Some(QadialArchKind)
    else if selector == 11 then Some(RoundArchKind)
    else if selector == 12 then Some(FixCornerKind)
    else if selector == 13 then Some(SlideCornerKind(true, "DC30", "DC26"))
    else if selector == 14 then Some(SlideCornerKind(false, "M30", "M26"))
    else None
  }

  /** No two selectors build the same kind of window. */
  lemma CreateComponentInjective(s: int, t: int)
    requires CreateComponent(s).Some? && CreateComponent(s) == CreateComponent(t)
    ensures s == t
  {
  }

  /** The window a selector builds: its shape and the constructor flags it
      is given, for every selector from 1 to 14. */
  lemma KindDeterminesShape(selector: int, w: Window)
    requires CreateComponent(selector) == Some(KindOf(w))
    ensures w.FlexiblePanel? <==> selector == 1 || selector == 2
    ensures w.ThreePanel3Glass? <==> selector == 3 || selector == 4
    ensures w.Door? <==> selector == 8 || selector == 9
    ensures w.Door? ==> (w.isDouble <==> selector == 9)
    ensures w.SlideCorner? <==> selector == 13 || selector == 14
    ensures w.Fix? <==> selector == 5
    ensures w.RandomFix? <==> selector == 6
    ensures w.Openable? <==> selector == 7
    ensures w.QadialArch? <==> selector == 10
    ensures w.RoundArch? <==> selector == 11
    ensures w.FixCorner? <==> selector == 12
    ensures w.FlexiblePanel? ==> (w.includeD29 <==> selector == 1) && (w.useMSeries <==> selector == 2)
    ensures w.ThreePanel3Glass? ==> (w.includeD29 <==> selector == 3)
    ensures w.ThreePanel3Glass? && selector == 3 ==> w.prefix30 == "DC30" && w.prefix26 == "DC26"
    ensures w.ThreePanel3Glass? && selector == 4 ==> w.prefix30 == "M30" && w.prefix26 == "M26"
    ensures w.SlideCorner? ==> (w.includeD29 <==> selector == 13)
    ensures w.SlideCorner? && selector == 13 ==> w.sec30 == "DC30" && w.sec26 == "DC26"
    ensures w.SlideCorner? && selector == 14 ==> w.sec30 == "M30" && w.sec26 == "M26"
  {
  }

  /** The triple-glass panel built in the M series names no DC section. */
  lemma MSeriesTripleGlassHasNoDCName(w: Window)
    requires w.ThreePanel3Glass? && w.prefix30 == "M30" && w.prefix26 == "M26"
    ensures forall k :: k in Sections(w) ==> !StartsWithDC(k)
  {
    var n := PrefixNames("M30", "M26");
    PanelRowsNames(w.height, w.width, w.collar, n);
    assert n == PanelNames("M30F", "M30C", "M26F", "M26C");
    assert forall k :: k in {n.frame30, n.coupled30, n.frame26, n.coupled26} ==> k[0] == 'M';
  }

  /** The slide corner built in the M series names no DC section. */
  lemma MSeriesSlideCornerHasNoDCName(w: Window)
    requires w.SlideCorner? && w.sec30 == "M30" && w.sec26 == "M26"
    ensures forall k :: k in Sections(w) ==> !StartsWithDC(k)
  {
    assert ("M30" + "F")[0] == 'M' && ("M30" + "A")[0] == 'M';
    assert ("M26" + "F")[0] == 'M' && ("M26" + "A")[0] == 'M';
  }

  /** The M-series selectors 2, 4 and 14 build windows that cut no D29 and
      name no DC section, whatever dimensions are entered. */
  lemma MSeriesSelectors(selector: int, w: Window)
    requires selector == 2 || selector == 4 || selector == 14
    requires CreateComponent(selector) == Some(KindOf(w))
    ensures "D29" !in Sections(w)
    ensures forall k :: k in Sections(w) ==> !StartsWithDC(k)
  {
    if selector == 2 {
      FlexiblePanelRows(w);
      FlexiblePanelMSeriesHasNoDCName(w);
    } else if selector == 4 {
      ThreePanel3GlassRows(w);
      MSeriesTripleGlassHasNoDCName(w);
    } else {
      MSeriesSlideCornerHasNoDCName(w);
    }
  }
}
