/** The estimate the main menu builds: "Estimate Price" adds a batch of
    windows of one kind, asking once for the rate of every section any of
    them needs and adding their prices and glass areas to the running
    totals; "Final Summary" turns the totals into the bill. */
module Batch {
  import opened Rounding
  import opened Pricing
  import opened Frames
  import opened FrameProperties
  import opened Factory

  /** The union of the section names a batch of windows needs. */
  function NeededNames(batch: seq<Window>): set<string>
  {
    if |batch| == 0 then {}
    else NeededNames(batch[..|batch| - 1]) + Sections(batch[|batch| - 1]).Keys
  }

  /** Every name a window of the batch needs is needed by the batch. */
  lemma {:induction false} WindowNamesAreNeeded(batch: seq<Window>, i: int)
    requires 0 <= i < |batch|
    ensures Sections(batch[i]).Keys <= NeededNames(batch)
    decreases |batch|
  {
    var last := |batch| - 1;
    if i < last {
      WindowNamesAreNeeded(batch[..last], i);
      assert batch[..last][i] == batch[i];
    }
  }

  /** A name is needed only when some window of the batch needs it. */
  lemma {:induction false} NeededNamesComeFromWindows(batch: seq<Window>, n: string)
    requires n in NeededNames(batch)
    ensures exists i :: 0 <= i < |batch| && n in Sections(batch[i])
    decreases |batch|
  {
    var last := |batch| - 1;
    if n !in Sections(batch[last]) {
      NeededNamesComeFromWindows(batch[..last], n);
      var i :| 0 <= i < last && n in Sections(batch[..last][i]);
      assert batch[..last][i] == batch[i];
    }
  }

  /** The glass area of a batch in square feet. */
  function TotalArea(batch: seq<Window>): (a: real)
    ensures (forall i :: 0 <= i < |batch| ==> Valid(batch[i])) ==> a >= 0.0
  {
    if |batch| == 0 then 0.0
    else TotalArea(batch[..|batch| - 1]) + Area(batch[|batch| - 1])
  }

  /** The price of every window of a batch against one rate table, all
      sections of each window priced. */
  ghost function BatchPrice(batch: seq<Window>, rates: map<string, real>): real
  {
    if |batch| == 0 then 0.0
    else
      var w := batch[|batch| - 1];
      BatchPrice(batch[..|batch| - 1], rates) + LineSum(Sections(w), rates, RuleOf(w), Sections(w).Keys)
  }

  /** The rate table made from the answers to the rate prompts, one per
      name asked for. */
  function RatesFor(names: set<string>, quote: string -> real): map<string, real>
  {
    map n | n in names :: quote(n)
  }

  /** The running totals of the estimate: the windows added so far, their
      aluminium price and their glass area. */
  datatype Estimate = Estimate(windows: seq<Window>, totalAluminium: real, totalSqFt: real)

  /** What "Estimate Price" does with one request: an unknown window type
      or a quantity that is not positive adds nothing. */
  datatype BatchOutcome =
    | InvalidType
    | InvalidQuantity
    | Added(estimate: Estimate)

  /** The first loop over a batch: collect every section name the windows
      need and add their glass areas to the area total. */
  method CollectNeededSections(batch: seq<Window>, totalSqFt: real)
    returns (needed: set<string>, newSqFt: real)
    ensures needed == NeededNames(batch)
    ensures newSqFt == totalSqFt + TotalArea(batch)
  {
    needed := {};
    newSqFt := totalSqFt;
    var i := 0;
    while i < |batch|
      invariant 0 <= i <= |batch|
      invariant needed == NeededNames(batch[..i])
      invariant newSqFt == totalSqFt + TotalArea(batch[..i])
    {
      assert batch[..i + 1][..i] == batch[..i];
      needed := needed + Sections(batch[i]).Keys;
      newSqFt := newSqFt + Area(batch[i]);
      i := i + 1;
    }
    assert batch[..|batch|] == batch;
  }

  /** The rate prompts: one rate for each needed name, and for no other. */
  method EnterRates(needed: set<string>, quote: string -> real) returns (rates: map<string, real>)
    ensures rates.Keys == needed
    ensures forall n :: n in rates ==> rates[n] == quote(n)
    ensures rates == RatesFor(needed, quote)
  {
    rates := map[];
    var remaining := needed;
    while remaining != {}
      invariant remaining <= needed
      invariant rates.Keys == needed - remaining
      invariant forall n :: n in rates ==> rates[n] == quote(n)
      decreases remaining
    {
      var name :| name in remaining;
      rates := rates[name := quote(name)];
      remaining := remaining - {name};
    }
  }

  /** The last loop over a batch: price every window, add the price to the
      aluminium total and keep the window. No window meets a section
      without a rate, since the rates cover every needed name. */
  method PriceBatch(batch: seq<Window>, rates: map<string, real>,
                    windows: seq<Window>, totalAluminium: real)
    returns (newWindows: seq<Window>, newAluminium: real)
    requires NeededNames(batch) <= rates.Keys
    ensures newWindows == windows + batch
    ensures newAluminium == totalAluminium + BatchPrice(batch, rates)
  {
    newWindows := windows;
    newAluminium := totalAluminium;
    var i := 0;
    while i < |batch|
      invariant 0 <= i <= |batch|
      invariant newWindows == windows + batch[..i]
      invariant newAluminium == totalAluminium + BatchPrice(batch[..i], rates)
    {
      assert batch[..i + 1][..i] == batch[..i];
      WindowNamesAreNeeded(batch, i);
      var outcome := CalculateTotalPrice(batch[i], rates);
      assert outcome.Priced?;
      newAluminium := newAluminium + outcome.total;
      newWindows := newWindows + [batch[i]];
      i := i + 1;
    }
    assert batch[..|batch|] == batch;
  }

  /** "Estimate Price": check the window type and the quantity, then run the
      three loops over the windows entered. */
  method AddBatch(est: Estimate, selector: int, qty: int, entered: seq<Window>,
                  quote: string -> real)
    returns (outcome: BatchOutcome)
    requires CreateComponent(selector).Some? && qty > 0 ==>
               |entered| == qty
               && forall i :: 0 <= i < |entered| ==> CreateComponent(selector) == Some(KindOf(entered[i]))
    ensures outcome.InvalidType? <==> !(1 <= selector <= 14)
    ensures outcome.InvalidQuantity? <==> 1 <= selector <= 14 && qty <= 0
    ensures outcome.Added? ==>
              outcome.estimate == Estimate(est.windows + entered,
                                           est.totalAluminium + BatchPrice(entered, RatesFor(NeededNames(entered), quote)),
                                           est.totalSqFt + TotalArea(entered))
  {
    if CreateComponent(selector).None? {
      return InvalidType;
    }
    if qty <= 0 {
      return InvalidQuantity;
    }
    var needed, sqFt := CollectNeededSections(entered, est.totalSqFt);
    var rates := EnterRates(needed, quote);
    var windows, aluminium := PriceBatch(entered, rates, est.windows, est.totalAluminium);
    outcome := Added(Estimate(windows, aluminium, sqFt));
  }

  // ----- properties of a batch -----

  /** The names needed by two batches together are those each needs. */
  lemma {:induction false} NeededNamesAppend(a: seq<Window>, b: seq<Window>)
    ensures NeededNames(a + b) == NeededNames(a) + NeededNames(b)
    decreases |b|
  {
    if |b| == 0 {
      assert a + b == a;
    } else {
      var front := b[..|b| - 1];
      assert (a + b)[..|a + b| - 1] == a + front;
      NeededNamesAppend(a, front);
    }
  }

  /** The price of a window alone, against rates asked for its own
      sections only. */
  ghost function PricedAlone(w: Window, quote: string -> real): real
  {
    LineSum(Sections(w), RatesFor(Sections(w).Keys, quote), RuleOf(w), Sections(w).Keys)
  }

  ghost function SumPricedAlone(batch: seq<Window>, quote: string -> real): real
  {
    if |batch| == 0 then 0.0
    else SumPricedAlone(batch[..|batch| - 1], quote) + PricedAlone(batch[|batch| - 1], quote)
  }

  /** One rate table shared by the batch prices each window exactly as it
      would be priced alone: the shared table holds the same rate for every
      name a window needs. */
  lemma {:induction false} SharedRatesPriceEachWindowAlone(batch: seq<Window>, names: set<string>,
                                                           quote: string -> real)
    requires NeededNames(batch) <= names
    ensures BatchPrice(batch, RatesFor(names, quote)) == SumPricedAlone(batch, quote)
    decreases |batch|
  {
    if |batch| > 0 {
      var w := batch[|batch| - 1];
      var front := batch[..|batch| - 1];
      assert NeededNames(front) <= names;
      SharedRatesPriceEachWindowAlone(front, names, quote);
      assert RatesAgreeOn(RatesFor(names, quote), RatesFor(Sections(w).Keys, quote), Sections(w).Keys);
      LineSumRatesAgree(Sections(w), RatesFor(names, quote), RatesFor(Sections(w).Keys, quote),
                        RuleOf(w), Sections(w).Keys);
    }
  }

  /** Every window entered is one the dialogues accept. */
  ghost predicate AllValid(batch: seq<Window>)
  {
    forall i :: 0 <= i < |batch| ==> Valid(batch[i])
  }

  /** With non-negative rates, a batch of accepted windows adds a
      non-negative price. */
  lemma {:induction false} BatchPriceNonNegative(batch: seq<Window>, rates: map<string, real>)
    requires AllValid(batch)
    requires forall n :: n in rates ==> rates[n] >= 0.0
    ensures BatchPrice(batch, rates) >= 0.0
    decreases |batch|
  {
    if |batch| > 0 {
      var front := batch[..|batch| - 1];
      assert AllValid(front);
      BatchPriceNonNegative(front, rates);
      ValidWindowPriceNonNegative(batch[|batch| - 1], rates);
    }
  }

  /** The totals of an estimate never go negative. */
  ghost predicate Sound(est: Estimate)
  {
    AllValid(est.windows) && est.totalAluminium >= 0.0 && est.totalSqFt >= 0.0
  }

  /** Adding a batch of accepted windows priced with non-negative rates
      keeps the estimate sound: the new estimate that "Estimate Price"
      produces is sound again. */
  lemma AddBatchKeepsSound(est: Estimate, entered: seq<Window>, quote: string -> real)
    requires Sound(est) && AllValid(entered)
    requires forall n :: quote(n) >= 0.0
    ensures Sound(Estimate(est.windows + entered,
                           est.totalAluminium + BatchPrice(entered, RatesFor(NeededNames(entered), quote)),
                           est.totalSqFt + TotalArea(entered)))
  {
    BatchPriceNonNegative(entered, RatesFor(NeededNames(entered), quote));
    assert AllValid(est.windows + entered) by {
      forall i | 0 <= i < |est.windows + entered|
        ensures Valid((est.windows + entered)[i])
      {
        if i >= |est.windows| {
          assert (est.windows + entered)[i] == entered[i - |est.windows|];
        }
      }
    }
  }

  // ----- the final summary -----

  /** The bill: aluminium before and after the discount, glass, labour and
      hardware, and the net total. */
  datatype CostSummary = CostSummary(aluminium: real, discount: real, discountedAluminium: real,
                                     glass: real, labor: real, hardware: real, net: real)

  /** "Final Summary": nothing when no window was added yet; otherwise the
      discount is a percentage of the aluminium only, glass and labour are
      charged per square foot and hardware per window. */
  function FinalSummary(est: Estimate, glassRate: real, laborRate: real, hardwareRate: real,
                        discountPercent: real): (s: Option<CostSummary>)
    ensures s.None? <==> |est.windows| == 0
    ensures s.Some? ==> s.value.aluminium == est.totalAluminium
    ensures s.Some? ==> s.value.discountedAluminium + s.value.discount == est.totalAluminium
  {
    if |est.windows| == 0 then None
    else
      var glass := glassRate * est.totalSqFt;
      var labor := laborRate * est.totalSqFt;
      var hardware := hardwareRate * |est.windows| as real;
      var discount := (discountPercent / 100.0) * est.totalAluminium;
      var discountedAluminium := est.totalAluminium - discount;
      Some(CostSummary(est.totalAluminium, discount, discountedAluminium, glass, labor, hardware,
                       discountedAluminium + glass + labor + hardware))
  }

  /** A discount between 0 and 100 percent of a sound estimate leaves the
      aluminium between nothing and its full price, and with non-negative
      rates the net total is at least the discounted aluminium. */
  lemma DiscountBounds(est: Estimate, glassRate: real, laborRate: real, hardwareRate: real,
                       discountPercent: real)
    requires Sound(est) && |est.windows| > 0
    requires 0.0 <= discountPercent <= 100.0
    requires glassRate >= 0.0 && laborRate >= 0.0 && hardwareRate >= 0.0
    ensures var s := FinalSummary(est, glassRate, laborRate, hardwareRate, discountPercent).value;
      && 0.0 <= s.discountedAluminium <= s.aluminium
      && s.net >= s.discountedAluminium
      && s.net == s.aluminium * (1.0 - discountPercent / 100.0)
                  + (glassRate + laborRate) * est.totalSqFt + hardwareRate * |est.windows| as real
  {
    var a := est.totalAluminium;
    var p := discountPercent / 100.0;
    assert 0.0 <= p <= 1.0;
    assert p * a <= a by {
      assert (1.0 - p) * a >= 0.0;
    }
    assert glassRate * est.totalSqFt >= 0.0;
    assert laborRate * est.totalSqFt >= 0.0;
    assert hardwareRate * |est.windows| as real >= 0.0;
  }
}
