/**
 * The session's record store: the list of saved daily records and the
 * day-name map of the most recent total, with the guarded submission
 * that appends to both and the "clear all" that empties both
 * (p2.py, the energy_records and weekly_data session entries).
 */
module Records {
  import opened Wrappers
  import opened Calculator

  /** Cost per kWh, in rupees. */
  const Rate: real := 5.0

  /** The placeholder shown by a selection box before the user picks a value. */
  const Unselected: string := "Select..."

  /** The values of the entry form at the moment "Calculate" is pressed. */
  datatype Entry = Entry(
    date: string,
    day: string,
    name: string,
    age: int,
    city: string,
    area: string,
    housing: string,
    facility: string,
    ac: Usage,
    fridge: Usage,
    wm: Usage)

  /** How a record stores one appliance: whether it was used, and its hours. */
  datatype ApplianceRecord = ApplianceRecord(used: bool, hours: real)

  /** A saved daily record. */
  datatype Record = Record(
    date: string,
    day: string,
    name: string,
    age: int,
    city: string,
    area: string,
    housing: string,
    facility: string,
    ac: ApplianceRecord,
    fridge: ApplianceRecord,
    wm: ApplianceRecord,
    totalEnergy: real,
    breakdown: seq<Line>,
    cost: real)

  /** The form's hours fields only accept values in [0, 24]. */
  predicate EntryHoursInRange(e: Entry)
  {
    HoursInRange(e.ac) && HoursInRange(e.fridge) && HoursInRange(e.wm)
  }

  /** A submission is accepted when a facility is chosen and a name is given. */
  predicate Accepts(e: Entry)
  {
    e.facility != Unselected && e.name != ""
  }

  /** The stored form of an appliance's usage: hours are 0 when it was not used. */
  function Stored(u: Usage): (a: ApplianceRecord)
    ensures a.used <==> u.Used?
    ensures a.used ==> a.hours == u.hours
    ensures !a.used ==> a.hours == 0.0
  {
    match u
    case NotUsed => ApplianceRecord(false, 0.0)
    case Used(h) => ApplianceRecord(true, h)
  }

  /** Reading a stored appliance back as a usage. */
  function UsageOf(a: ApplianceRecord): Usage
  {
    if a.used then Used(a.hours) else NotUsed
  }

  /** Storing a usage loses nothing: it reads back as the same usage. */
  lemma StoredRoundTrip(u: Usage)
    ensures UsageOf(Stored(u)) == u
  {
  }

  /** The record that the submission of entry `e` saves. */
  ghost predicate BuiltFrom(r: Record, e: Entry)
  {
    && r.date == e.date && r.day == e.day && r.name == e.name && r.age == e.age
    && r.city == e.city && r.area == e.area && r.housing == e.housing
    && r.facility == e.facility
    && r.ac == Stored(e.ac) && r.fridge == Stored(e.fridge) && r.wm == Stored(e.wm)
    && r.breakdown == BreakdownOf(e.facility, e.ac, e.fridge, e.wm)
    && r.totalEnergy == Total(r.breakdown)
    && r.cost == r.totalEnergy * Rate
  }

  /** An appliance record keeps the 0-hours convention and the form's range. */
  predicate StoredWellFormed(a: ApplianceRecord)
  {
    (!a.used ==> a.hours == 0.0) && 0.0 <= a.hours <= 24.0
  }

  /**
   * The invariant of every saved record: its breakdown is the calculator's
   * for its own facility and appliances, its total is the sum of the
   * breakdown and its cost is the total at the fixed rate.
   */
  predicate WellFormed(r: Record)
  {
    && StoredWellFormed(r.ac) && StoredWellFormed(r.fridge) && StoredWellFormed(r.wm)
    && r.breakdown == BreakdownOf(r.facility, UsageOf(r.ac), UsageOf(r.fridge), UsageOf(r.wm))
    && r.totalEnergy == Total(r.breakdown)
    && r.cost == r.totalEnergy * Rate
  }

  /** A record built from a form within range is well formed. */
  lemma BuiltIsWellFormed(r: Record, e: Entry)
    requires BuiltFrom(r, e) && EntryHoursInRange(e)
    ensures WellFormed(r)
  {
    StoredRoundTrip(e.ac);
    StoredRoundTrip(e.fridge);
    StoredRoundTrip(e.wm);
  }

  /**
   * A well-formed record costs 5 per kWh, and its total is in [0, 13.8]
   * kWh, in [2.4, 13.8] when its facility is a recognised one.
   */
  lemma WellFormedBounds(r: Record)
    requires WellFormed(r)
    ensures r.cost == 5.0 * r.totalEnergy
    ensures 0.0 <= r.totalEnergy <= 13.8
    ensures UnitCount(r.facility).Some? ==> 2.4 <= r.totalEnergy
  {
    var ac, fridge, wm := UsageOf(r.ac), UsageOf(r.fridge), UsageOf(r.wm);
    assert HoursInRange(ac) && HoursInRange(fridge) && HoursInRange(wm);
    TotalNonNegative(r.facility, ac, fridge, wm);
    if UnitCount(r.facility).Some? {
      TotalRange(r.facility, ac, fridge, wm);
    }
  }

  /**
   * The record construction of the submit path: runs the calculator and
   * stores its total, its breakdown, the cost at the fixed rate and, for
   * an unused appliance, 0 hours.
   */
  method BuildRecord(e: Entry) returns (r: Record)
    ensures BuiltFrom(r, e)
    ensures r.cost == 5.0 * r.totalEnergy
  {
    var totalEnergy, breakdown := CalculateDailyEnergy(e.facility, e.ac, e.fridge, e.wm);
    r := Record(
      e.date, e.day, e.name, e.age, e.city, e.area, e.housing, e.facility,
      Stored(e.ac), Stored(e.fridge), Stored(e.wm),
      totalEnergy, breakdown, totalEnergy * Rate);
  }

  /**
   * The day-name map the submissions leave behind: each submission writes
   * its total under its day, overwriting what an earlier one wrote.
   */
  function LatestTotals(rs: seq<Record>): map<string, real>
  {
    if rs == [] then map[]
    else
      var last := rs[|rs| - 1];
      LatestTotals(rs[..|rs| - 1])[last.day := last.totalEnergy]
  }

  /**
   * A day is a key exactly when some record has that day, and its value is
   * the total of the newest such record.
   */
  lemma {:induction false} LatestTotalsNewestWins(rs: seq<Record>, d: string)
    ensures d in LatestTotals(rs) <==> exists i :: 0 <= i < |rs| && rs[i].day == d
    ensures d in LatestTotals(rs) ==>
      exists i :: 0 <= i < |rs| && rs[i].day == d && LatestTotals(rs)[d] == rs[i].totalEnergy
        && forall j :: i < j < |rs| ==> rs[j].day != d
  {
    if rs != [] {
      var n := |rs| - 1;
      var init := rs[..n];
      LatestTotalsNewestWins(init, d);
      if rs[n].day != d {
        if d in LatestTotals(init) {
          var i :| 0 <= i < |init| && init[i].day == d && LatestTotals(init)[d] == init[i].totalEnergy
            && forall j :: i < j < |init| ==> init[j].day != d;
          assert rs[i] == init[i];
        }
        forall i | 0 <= i < |rs| && rs[i].day == d
          ensures d in LatestTotals(init)
        {
          assert i < n && init[i] == rs[i];
        }
      } else {
        assert rs[n].day == d;
      }
    }
  }

  /** The dashboard's session state. */
  class Session {
    /** The saved records, oldest first. */
    var records: seq<Record>
    /** The most recent total per day name. */
    var weeklyData: map<string, real>

    /** Every record is well formed, and the day map is what the records imply. */
    ghost predicate Valid()
      reads this
    {
      && (forall i :: 0 <= i < |records| ==> WellFormed(records[i]))
      && weeklyData == LatestTotals(records)
    }

    /** A new session starts with no records and an empty day map. */
    constructor ()
      ensures Valid()
      ensures records == [] && weeklyData == map[]
    {
      records := [];
      weeklyData := map[];
    }

    /** The record shown under "Today's Results": the last one saved, if any. */
    function Latest(): (r: Option<Record>)
      reads this
      ensures r.None? <==> records == []
      ensures r.Some? ==> r.value == records[|records| - 1]
    {
      if records == [] then None else Some(records[|records| - 1])
    }

    /**
     * The "Calculate" button. Rejected without any change unless a facility
     * is chosen and a name is given; otherwise saves one record built from
     * the form at the end of the list, makes it the latest, and overwrites
     * the day map's entry for its day, leaving the other days alone.
     */
    method Submit(e: Entry) returns (accepted: bool)
      requires Valid()
      requires EntryHoursInRange(e)
      modifies this
      ensures Valid()
      ensures accepted <==> Accepts(e)
      ensures !accepted ==> records == old(records) && weeklyData == old(weeklyData)
      ensures accepted ==>
        && |records| == |old(records)| + 1
        && records[..|old(records)|] == old(records)
        && BuiltFrom(records[|records| - 1], e)
        && Latest() == Some(records[|records| - 1])
        && weeklyData == old(weeklyData)[e.day := records[|records| - 1].totalEnergy]
    {
      if e.facility != Unselected && e.name != "" {
        var record := BuildRecord(e);
        BuiltIsWellFormed(record, e);
        records := records + [record];
        weeklyData := weeklyData[e.day := record.totalEnergy];
        assert records[..|records| - 1] == old(records);
        accepted := true;
      } else {
        accepted := false;
      }
    }

    /** "Clear All Records": empties both the record list and the day map. */
    method Clear()
      requires Valid()
      modifies this
      ensures Valid()
      ensures records == [] && weeklyData == map[]
      ensures Latest() == None
    {
      records := [];
      weeklyData := map[];
    }
  }
}
