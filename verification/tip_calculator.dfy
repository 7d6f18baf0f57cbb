/** The tip calculation run when the calculate button is pressed: a cost, a
    service-quality tier and two rounding switches go in; the tip and total
    that are displayed, and the switches as the calculation leaves them,
    come out. */
module TipCalculator {
  import opened Ceiling

  /** The parsed cost of service: `None` when the text field does not hold
      a number. */
  datatype Option<+T> = None | Some(value: T)

  /** The service-quality radio buttons; `Unselected` is any other checked
      id, including no selection at all. */
  datatype Tier = Poor | Average | Good | Excellent | Unselected

  /** The "Round Tip" and "Round Total Bill" switches. */
  datatype Switches = Switches(roundTip: bool, roundTotal: bool)

  /** The pair handed to the display: tip and total bill. */
  datatype Bill = Bill(tip: real, total: real)

  /** What one press of the calculate button produces. */
  datatype Outcome = Outcome(bill: Bill, switches: Switches)

  /** The rounding rule a switch setting selects. */
  datatype RoundingMode = NoRounding | RoundTip | RoundTotal

  /** Tip percentage for a tier; no selection falls back to average service. */
  function Percentage(tier: Tier): (p: real)
    ensures 0.10 <= p <= 0.20
    ensures tier == Unselected ==> p == 0.15
  {
    match tier
    case Poor => 0.10
    case Average => 0.15
    case Good => 0.18
    case Excellent => 0.20
    case Unselected => 0.15
  }

  /** Position of a tier on the service-quality scale; no selection counts
      as average service. */
  function Rank(tier: Tier): nat {
    match tier
    case Poor => 0
    case Average => 1
    case Unselected => 1
    case Good => 2
    case Excellent => 3
  }

  /** Better service never earns a smaller percentage, and tiers at the
      same position earn the same one. */
  lemma PercentageMonotone(a: Tier, b: Tier)
    ensures Rank(a) <= Rank(b) ==> Percentage(a) <= Percentage(b)
    ensures Rank(a) == Rank(b) ==> Percentage(a) == Percentage(b)
  {
  }

  /** A cost that leads past the early return: present and not zero. */
  predicate HasCost(cost: Option<real>) {
    cost.Some? && cost.value != 0.0
  }

  /** At most one of the two switches is on. */
  predicate AtMostOne(sw: Switches) {
    !(sw.roundTip && sw.roundTotal)
  }

  /** The switches are read in order and the first one that is on wins. */
  function ModeOf(sw: Switches): RoundingMode {
    if sw.roundTip then RoundTip
    else if sw.roundTotal then RoundTotal
    else NoRounding
  }

  /** The switch setting that shows a rounding rule, with at most one
      switch on. */
  function SwitchesOf(mode: RoundingMode): (sw: Switches)
    ensures AtMostOne(sw)
    ensures ModeOf(sw) == mode
  {
    match mode
    case NoRounding => Switches(false, false)
    case RoundTip => Switches(true, false)
    case RoundTotal => Switches(false, true)
  }

  /** A setting with at most one switch on is the setting of the rule it
      selects: together with `ModeOf(SwitchesOf(m)) == m`, such settings
      and rounding rules correspond one to one. */
  lemma SwitchesOfModeOf(sw: Switches)
    requires AtMostOne(sw)
    ensures SwitchesOf(ModeOf(sw)) == sw
  {
  }

  /** What a displayed bill must satisfy for cost `c`, tier and rounding
      rule, stated without reference to how it is computed: the unrounded
      tip is `pct * c`; rounding the tip makes it the whole number within
      one unit above that and the total follows the rounded tip; rounding
      the total leaves the tip alone and makes the total the whole number
      within one unit above `c + tip`. */
  ghost predicate BillMeets(c: real, tier: Tier, mode: RoundingMode, b: Bill) {
    var raw := Percentage(tier) * c;
    match mode
    case NoRounding =>
      b.tip == raw && b.total == c + raw
    case RoundTip =>
      IsIntegral(b.tip) && raw <= b.tip < raw + 1.0 && b.total == c + b.tip
    case RoundTotal =>
      b.tip == raw && IsIntegral(b.total) && c + raw <= b.total < c + raw + 1.0
  }

  /** One press of the calculate button. */
  function CalculateTip(cost: Option<real>, tier: Tier, sw: Switches): (o: Outcome)
    // absent or zero cost: zero bill, no rounding, switches untouched
    ensures !HasCost(cost) ==> o == Outcome(Bill(0.0, 0.0), sw)
    // otherwise the bill follows the rule the first switch that is on selects
    ensures cost.Some? ==> BillMeets(cost.value, tier, ModeOf(sw), o.bill)
    // and the taken branch switches the other one off
    ensures HasCost(cost) ==> o.switches == SwitchesOf(ModeOf(sw))
    ensures HasCost(cost) ==> AtMostOne(o.switches)
  {
    if cost.None? || cost.value == 0.0 then
      Outcome(Bill(0.0, 0.0), sw)
    else
      var c := cost.value;
      var tip := Percentage(tier) * c;
      var total := c + tip;
      if sw.roundTip then
        var rounded := Ceil(tip);
        Outcome(Bill(rounded, c + rounded), sw.(roundTotal := false))
      else if sw.roundTotal then
        Outcome(Bill(tip, Ceil(total)), sw.(roundTip := false))
      else
        Outcome(Bill(tip, total), sw)
  }

  /** `BillMeets` has exactly one solution, and the calculation finds it:
      any bill meeting the description for a cost is the one displayed
      when the switches show that rounding rule. */
  lemma BillMeetsDeterminesBill(c: real, tier: Tier, mode: RoundingMode, b: Bill)
    requires BillMeets(c, tier, mode, b)
    ensures b == CalculateTip(Some(c), tier, SwitchesOf(mode)).bill
  {
    var raw := Percentage(tier) * c;
    match mode
    case NoRounding =>
    case RoundTip =>
      CeilUnique(raw, b.tip);
    case RoundTotal =>
      CeilUnique(c + raw, b.total);
  }

  /** Switch precedence: with both switches on, the tip is rounded and the
      total switch is turned off; the tip switch alone behaves the same. */
  lemma RoundTipWins(c: real, tier: Tier)
    requires c != 0.0
    ensures CalculateTip(Some(c), tier, Switches(true, true))
         == CalculateTip(Some(c), tier, Switches(true, false))
    ensures CalculateTip(Some(c), tier, Switches(true, true)).switches == Switches(true, false)
  {
  }

  /** For a non-negative cost the tip is non-negative and the total covers
      the cost, whatever the switches say. */
  lemma NonNegativeCost(c: real, tier: Tier, sw: Switches)
    requires 0.0 <= c
    ensures var b := CalculateTip(Some(c), tier, sw).bill;
      0.0 <= b.tip && c <= b.total
  {
  }

  /** Rounding never lowers the total below the unrounded `cost + pct * cost`,
      whatever the sign of the cost. */
  lemma RoundingNeverLowersTotal(c: real, tier: Tier, sw: Switches)
    ensures c + Percentage(tier) * c <= CalculateTip(Some(c), tier, sw).bill.total
  {
  }

  /** Pressing calculate again with the same cost and tier changes nothing:
      the first press already leaves the switches showing the rule it
      applied. */
  lemma CalculateTipIdempotent(cost: Option<real>, tier: Tier, sw: Switches)
    ensures var o := CalculateTip(cost, tier, sw);
      CalculateTip(cost, tier, o.switches) == o
  {
  }

  /** The outcome of pressing calculate `n` times in a row. */
  function Presses(cost: Option<real>, tier: Tier, sw: Switches, n: nat): Outcome
    requires 1 <= n
  {
    if n == 1 then CalculateTip(cost, tier, sw)
    else CalculateTip(cost, tier, Presses(cost, tier, sw, n - 1).switches)
  }

  /** Any number of presses shows what the first press showed. */
  lemma {:induction false} RepeatedPresses(cost: Option<real>, tier: Tier, sw: Switches, n: nat)
    requires 1 <= n
    ensures Presses(cost, tier, sw, n) == CalculateTip(cost, tier, sw)
  {
    if n > 1 {
      RepeatedPresses(cost, tier, sw, n - 1);
      CalculateTipIdempotent(cost, tier, sw);
    }
  }

  /** Worked cases: 15% of 100 unrounded; 20% of 100 with the tip rounded
      (already whole); 10% of 51 with the tip rounded and with the total
      rounded. */
  lemma Examples()
    ensures CalculateTip(Some(100.0), Average, Switches(false, false)).bill == Bill(15.0, 115.0)
    ensures CalculateTip(Some(100.0), Excellent, Switches(true, false)).bill == Bill(20.0, 120.0)
    ensures CalculateTip(Some(51.0), Poor, Switches(true, false)).bill == Bill(6.0, 57.0)
    ensures CalculateTip(Some(51.0), Poor, Switches(false, true)).bill == Bill(5.1, 57.0)
    ensures CalculateTip(None, Good, Switches(true, false)) == Outcome(Bill(0.0, 0.0), Switches(true, false))
  {
  }
}
