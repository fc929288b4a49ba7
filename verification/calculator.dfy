/**
 * The energy calculator of the dashboard: from the accommodation size and
 * the three tracked appliances to a daily total in kWh and an ordered
 * breakdown of labelled contributions (p2.py, calculate_daily_energy).
 *
 * All quantities are exact reals; the unit counts, the 0.4 and 0.8 kWh per
 * unit and the nominal 3 kWh per 24 hours of each appliance are the
 * source's constants.
 */
module Calculator {
  import opened Wrappers
  import opened Series

  /** Whether an appliance was switched on today, and for how many hours. */
  datatype Usage = NotUsed | Used(hours: real)

  /** One labelled line of the breakdown. */
  type Line = (string, real)

  /** The widgets that read appliance hours accept only [0, 24]. */
  predicate HoursInRange(u: Usage)
  {
    u.Used? ==> 0.0 <= u.hours <= 24.0
  }

  /** The labels of a breakdown, in order. */
  function Labels(b: seq<Line>): seq<string>
  {
    seq(|b|, i requires 0 <= i < |b| => b[i].0)
  }

  /** The kWh values of a breakdown, in order. */
  function Values(b: seq<Line>): seq<real>
  {
    seq(|b|, i requires 0 <= i < |b| => b[i].1)
  }

  /** The total of a breakdown: the sum of its values. */
  function Total(b: seq<Line>): real
  {
    Sum(Values(b))
  }

  lemma TotalAppend(a: seq<Line>, b: seq<Line>)
    ensures Total(a + b) == Total(a) + Total(b)
  {
    assert Values(a + b) == Values(a) + Values(b);
    SumAppend(Values(a), Values(b));
  }

  lemma TotalSingle(x: Line)
    ensures Total([x]) == x.1
  {
    var vs := Values([x]);
    assert vs == [x.1];
    assert vs[1..] == [];
    assert Sum(vs) == vs[0] + Sum(vs[1..]);
  }

  /** Appending one line adds its value to the total. */
  lemma TotalAddLine(b: seq<Line>, x: Line)
    ensures Total(b + [x]) == Total(b) + x.1
  {
    TotalAppend(b, [x]);
    TotalSingle(x);
  }

  lemma TotalPair(x: Line, y: Line)
    ensures Total([x, y]) == x.1 + y.1
  {
    assert [x, y] == [x] + [y];
    TotalAppend([x], [y]);
    TotalSingle(x);
    TotalSingle(y);
  }

  /** Number of lighting/basic-appliance units of a recognised facility. */
  function UnitCount(facility: string): Option<nat>
  {
    if facility == "1BHK" then Some(2)
    else if facility == "2BHK" then Some(3)
    else if facility == "3BHK" then Some(4)
    else None
  }

  /** The label of the lighting line for n units, for a one-digit n. */
  function LightsLabel(n: nat): string
    requires n < 10
  {
    "Lights (" + [('0' as int + n) as char] + " units)"
  }

  /** The base-load lines a facility contributes: lights, then basic appliances. */
  function BaseEntries(facility: string): seq<Line>
  {
    if facility == "1BHK" then [("Lights (2 units)", 2.0 * 0.4), ("Basic appliances", 2.0 * 0.8)]
    else if facility == "2BHK" then [("Lights (3 units)", 3.0 * 0.4), ("Basic appliances", 3.0 * 0.8)]
    else if facility == "3BHK" then [("Lights (4 units)", 4.0 * 0.4), ("Basic appliances", 4.0 * 0.8)]
    else []
  }

  /** The consumption of an appliance rated 3 kWh per 24 hours, run for `hours`. */
  function Consumption(hours: real): (kwh: real)
    ensures 0.0 <= hours <= 24.0 ==> 0.0 <= kwh <= 3.0
    ensures kwh * 8.0 == hours
  {
    3.0 * (hours / 24.0)
  }

  /** The line an appliance contributes: none when it was not used. */
  function ApplianceEntries(name: string, u: Usage): seq<Line>
  {
    match u
    case NotUsed => []
    case Used(h) => [(name, Consumption(h))]
  }

  /** The full breakdown, in the order the calculator inserts its lines. */
  function BreakdownOf(facility: string, ac: Usage, fridge: Usage, wm: Usage): seq<Line>
  {
    BaseEntries(facility)
      + ApplianceEntries("Air Conditioner", ac)
      + ApplianceEntries("Refrigerator", fridge)
      + ApplianceEntries("Washing Machine", wm)
  }

  /**
   * calculate_daily_energy: accumulates the running total and appends each
   * line to the breakdown as it goes. The returned total is the sum of the
   * breakdown it returns.
   */
  method CalculateDailyEnergy(facility: string, ac: Usage, fridge: Usage, wm: Usage)
    returns (calEnergy: real, breakdown: seq<Line>)
    ensures breakdown == BreakdownOf(facility, ac, fridge, wm)
    ensures calEnergy == Total(breakdown)
  {
    calEnergy := 0.0;
    breakdown := [];

    if facility == "1BHK" {
      var lights, basic := 2.0 * 0.4, 2.0 * 0.8;
      breakdown := breakdown + [("Lights (2 units)", lights)];
      breakdown := breakdown + [("Basic appliances", basic)];
      calEnergy := calEnergy + (lights + basic);
      TotalPair(breakdown[0], breakdown[1]);
    } else if facility == "2BHK" {
      var lights, basic := 3.0 * 0.4, 3.0 * 0.8;
      breakdown := breakdown + [("Lights (3 units)", lights)];
      breakdown := breakdown + [("Basic appliances", basic)];
      calEnergy := calEnergy + (lights + basic);
      TotalPair(breakdown[0], breakdown[1]);
    } else if facility == "3BHK" {
      var lights, basic := 4.0 * 0.4, 4.0 * 0.8;
      breakdown := breakdown + [("Lights (4 units)", lights)];
      breakdown := breakdown + [("Basic appliances", basic)];
      calEnergy := calEnergy + (lights + basic);
      TotalPair(breakdown[0], breakdown[1]);
    }
    assert breakdown == BaseEntries(facility) && calEnergy == Total(breakdown);

    calEnergy, breakdown := AddAppliance(calEnergy, breakdown, "Air Conditioner", ac);
    calEnergy, breakdown := AddAppliance(calEnergy, breakdown, "Refrigerator", fridge);
    calEnergy, breakdown := AddAppliance(calEnergy, breakdown, "Washing Machine", wm);
  }

  /**
   * One of the three identical appliance blocks of calculate_daily_energy:
   * when the appliance was used, adds 3 * (hours / 24) to the running total
   * and appends the line under the appliance's name.
   */
  method AddAppliance(calEnergy: real, breakdown: seq<Line>, name: string, u: Usage)
    returns (calEnergy': real, breakdown': seq<Line>)
    requires calEnergy == Total(breakdown)
    ensures breakdown' == breakdown + ApplianceEntries(name, u)
    ensures calEnergy' == Total(breakdown')
  {
    calEnergy', breakdown' := calEnergy, breakdown;
    if u.Used? {
      var consumption := 3.0 * (u.hours / 24.0);
      TotalAddLine(breakdown, (name, consumption));
      calEnergy' := calEnergy' + consumption;
      breakdown' := breakdown' + [(name, consumption)];
    }
  }

  // ---------------------------------------------------------------------
  // Properties of the breakdown

  /** The base load of a facility: 1.2 kWh per unit, nothing when unrecognised. */
  function BaseLoad(facility: string): real
  {
    match UnitCount(facility)
    case None => 0.0
    case Some(n) => n as real * 0.4 + n as real * 0.8
  }

  /** What an appliance adds to the total: nothing when unused. */
  function Contribution(u: Usage): real
  {
    match u
    case NotUsed => 0.0
    case Used(h) => Consumption(h)
  }

  /**
   * A recognised facility with n units contributes exactly the lines
   * "Lights (n units)" = n*0.4 and "Basic appliances" = n*0.8, in that
   * order; any other facility string contributes none.
   */
  lemma BaseEntriesByUnits(facility: string)
    ensures UnitCount(facility).None? ==> BaseEntries(facility) == []
    ensures UnitCount(facility).Some? ==>
      var n := UnitCount(facility).value;
      n < 10 && BaseEntries(facility)
        == [(LightsLabel(n), n as real * 0.4), ("Basic appliances", n as real * 0.8)]
  {
    assert LightsLabel(2) == "Lights (2 units)";
    assert LightsLabel(3) == "Lights (3 units)";
    assert LightsLabel(4) == "Lights (4 units)";
  }

  /** The total splits into the base load plus each appliance's contribution. */
  lemma TotalIsSumOfParts(facility: string, ac: Usage, fridge: Usage, wm: Usage)
    ensures Total(BreakdownOf(facility, ac, fridge, wm))
         == BaseLoad(facility) + Contribution(ac) + Contribution(fridge) + Contribution(wm)
  {
    var base := BaseEntries(facility);
    var a := ApplianceEntries("Air Conditioner", ac);
    var f := ApplianceEntries("Refrigerator", fridge);
    var w := ApplianceEntries("Washing Machine", wm);
    TotalAppend(base, a);
    TotalAppend(base + a, f);
    TotalAppend(base + a + f, w);
    if base != [] {
      TotalPair(base[0], base[1]);
    }
    if ac.Used? { TotalSingle(a[0]); }
    if fridge.Used? { TotalSingle(f[0]); }
    if wm.Used? { TotalSingle(w[0]); }
  }

  /** The labels a breakdown carries, in the calculator's fixed order. */
  function ExpectedLabels(facility: string, ac: Usage, fridge: Usage, wm: Usage): seq<string>
  {
    (match UnitCount(facility)
     case None => []
     case Some(n) => if n < 10 then [LightsLabel(n), "Basic appliances"] else [])
    + (if ac.Used? then ["Air Conditioner"] else [])
    + (if fridge.Used? then ["Refrigerator"] else [])
    + (if wm.Used? then ["Washing Machine"] else [])
  }

  /**
   * Breakdown labels appear in the order Lights, Basic appliances, Air
   * Conditioner, Refrigerator, Washing Machine, with a line for an
   * appliance exactly when it was used.
   */
  lemma LabelsInOrder(facility: string, ac: Usage, fridge: Usage, wm: Usage)
    ensures Labels(BreakdownOf(facility, ac, fridge, wm)) == ExpectedLabels(facility, ac, fridge, wm)
  {
    BaseEntriesByUnits(facility);
    var base := BaseEntries(facility);
    var a := ApplianceEntries("Air Conditioner", ac);
    var f := ApplianceEntries("Refrigerator", fridge);
    var w := ApplianceEntries("Washing Machine", wm);
    LabelsAppend(base, a);
    LabelsAppend(base + a, f);
    LabelsAppend(base + a + f, w);
  }

  lemma LabelsAppend(a: seq<Line>, b: seq<Line>)
    ensures Labels(a + b) == Labels(a) + Labels(b)
  {
  }

  /** An appliance has a line in the breakdown if and only if it was used. */
  lemma ApplianceLinePresence(facility: string, ac: Usage, fridge: Usage, wm: Usage)
    ensures "Air Conditioner" in Labels(BreakdownOf(facility, ac, fridge, wm)) <==> ac.Used?
    ensures "Refrigerator" in Labels(BreakdownOf(facility, ac, fridge, wm)) <==> fridge.Used?
    ensures "Washing Machine" in Labels(BreakdownOf(facility, ac, fridge, wm)) <==> wm.Used?
  {
    LabelsInOrder(facility, ac, fridge, wm);
  }

  /** No label occurs twice, so the ordered breakdown is a faithful dictionary. */
  lemma LabelsDistinct(facility: string, ac: Usage, fridge: Usage, wm: Usage)
    ensures var ls := Labels(BreakdownOf(facility, ac, fridge, wm));
      forall i, j :: 0 <= i < j < |ls| ==> ls[i] != ls[j]
  {
    LabelsInOrder(facility, ac, fridge, wm);
  }

  /** A recognised facility yields between 2 and 5 lines, one per used appliance beyond the base two. */
  lemma EntryCount(facility: string, ac: Usage, fridge: Usage, wm: Usage)
    requires UnitCount(facility).Some?
    ensures |BreakdownOf(facility, ac, fridge, wm)|
         == 2 + (if ac.Used? then 1 else 0) + (if fridge.Used? then 1 else 0) + (if wm.Used? then 1 else 0)
    ensures 2 <= |BreakdownOf(facility, ac, fridge, wm)| <= 5
  {
    LabelsInOrder(facility, ac, fridge, wm);
    assert |Labels(BreakdownOf(facility, ac, fridge, wm))| == |BreakdownOf(facility, ac, fridge, wm)|;
  }

  /** With hours in [0, 24], a recognised facility's daily total lies in [2.4, 13.8] kWh. */
  lemma TotalRange(facility: string, ac: Usage, fridge: Usage, wm: Usage)
    requires UnitCount(facility).Some?
    requires HoursInRange(ac) && HoursInRange(fridge) && HoursInRange(wm)
    ensures 2.4 <= Total(BreakdownOf(facility, ac, fridge, wm)) <= 13.8
  {
    TotalIsSumOfParts(facility, ac, fridge, wm);
  }

  /** With hours in [0, 24], any facility string gives a total in [0, 13.8] kWh. */
  lemma TotalNonNegative(facility: string, ac: Usage, fridge: Usage, wm: Usage)
    requires HoursInRange(ac) && HoursInRange(fridge) && HoursInRange(wm)
    ensures 0.0 <= Total(BreakdownOf(facility, ac, fridge, wm)) <= 13.8
  {
    TotalIsSumOfParts(facility, ac, fridge, wm);
  }

  /** 1BHK with no appliance: lights 0.8 and basic appliances 1.6, total 2.4 kWh. */
  lemma OneBhkNoAppliances()
    ensures BreakdownOf("1BHK", NotUsed, NotUsed, NotUsed)
         == [("Lights (2 units)", 0.8), ("Basic appliances", 1.6)]
    ensures Total(BreakdownOf("1BHK", NotUsed, NotUsed, NotUsed)) == 2.4
  {
    TotalIsSumOfParts("1BHK", NotUsed, NotUsed, NotUsed);
  }

  /** 2BHK with the AC on for 8 hours and the fridge for 24: four lines, total 7.6 kWh. */
  lemma TwoBhkAcAndFridge()
    ensures Labels(BreakdownOf("2BHK", Used(8.0), Used(24.0), NotUsed))
         == ["Lights (3 units)", "Basic appliances", "Air Conditioner", "Refrigerator"]
    ensures Total(BreakdownOf("2BHK", Used(8.0), Used(24.0), NotUsed)) == 7.6
  {
    LabelsInOrder("2BHK", Used(8.0), Used(24.0), NotUsed);
    TotalIsSumOfParts("2BHK", Used(8.0), Used(24.0), NotUsed);
  }
}
