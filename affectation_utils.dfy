/**
 * The availability and hours helpers of src/utils/affectationUtils.js. Each hours helper looks the
 * site of every assignment record up in the site collection (`Chantier.findById`) and skips records
 * whose site is missing; a site's service day is worth its weekly hours divided by its number of
 * service weekdays (or by 1 when it has none).
 */
module AffectationUtils {
  import opened Wrappers
  import opened Calendar
  import opened Records
  import opened Store

  // ---------------------------------------------------------------------------------------------
  // isSalarieDisponiblePourJours

  predicate SharesDay(a: seq<Weekday>, b: seq<Weekday>) {
    exists j :: j in a && j in b
  }

  /** A record clashes with a request when its window overlaps the site's and it lists a requested weekday. */
  predicate Clashes(a: Assignment, site: Site, requested: seq<Weekday>) {
    DatesOverlap(a.start, a.end, site.start, site.end) && SharesDay(a.days, requested)
  }

  /** A worker is available for the requested weekdays of a site when none of its records clashes. */
  predicate AvailableFor(w: Worker, site: Site, requested: seq<Weekday>) {
    forall k :: 0 <= k < |w.assignments| ==> !Clashes(w.assignments[k], site, requested)
  }

  /** `isSalarieDisponiblePourJours`: the early exit on an empty calendar, then one pass over the records. */
  method IsSalarieDisponiblePourJours(w: Worker, site: Site, requested: seq<Weekday>) returns (ok: bool)
    ensures ok == AvailableFor(w, site, requested)
  {
    if |w.assignments| == 0 {
      return true;
    }
    for k := 0 to |w.assignments|
      invariant forall m :: 0 <= m < k ==> !Clashes(w.assignments[m], site, requested)
    {
      var a := w.assignments[k];
      if !DatesOverlap(a.start, a.end, site.start, site.end) {
        continue;
      }
      var intersection := exists j :: j in a.days && j in requested;
      if intersection {
        return false;
      }
    }
    return true;
  }

  /** An empty calendar is always available; otherwise unavailability needs a clashing record. */
  lemma AvailabilityCases(w: Worker, site: Site, requested: seq<Weekday>)
    ensures |w.assignments| == 0 ==> AvailableFor(w, site, requested)
    ensures !AvailableFor(w, site, requested) <==>
      exists k, j :: 0 <= k < |w.assignments| && j in w.assignments[k].days && j in requested
        && DatesOverlap(w.assignments[k].start, w.assignments[k].end, site.start, site.end)
  {
  }

  // ---------------------------------------------------------------------------------------------
  // getSalariesEligibles

  /** The three conditions of `getSalariesEligibles` beyond holding the skill. */
  predicate Eligible(w: Worker, site: Site) {
    && AvailableFor(w, site, site.days)
    && w.coords.Some? && site.coords.Some?
    && (w.contract != CDD || w.contractEnd.None? || w.contractEnd.value >= site.end)
  }

  /** The workers holding `skill` (`Salarie.find({ competences: skill })`) that are eligible, in store order. */
  function EligibleAmong(workers: seq<Worker>, skill: string, site: Site): (r: seq<Worker>)
    ensures |r| <= |workers|
    ensures forall w :: w in r <==> w in workers && skill in w.skills && Eligible(w, site)
  {
    if workers == [] then []
    else
      var rest := EligibleAmong(workers[1..], skill, site);
      assert forall w :: w in workers <==> w == workers[0] || w in workers[1..];
      if skill in workers[0].skills && Eligible(workers[0], site) then [workers[0]] + rest else rest
  }

  /** `getSalariesEligibles`: one pass over the workers holding the skill. */
  method GetSalariesEligibles(workers: seq<Worker>, skill: string, site: Site) returns (filtered: seq<Worker>)
    ensures filtered == EligibleAmong(workers, skill, site)
  {
    filtered := [];
    var i := |workers|;
    // the suffix already filtered, built from the back so that store order is kept
    while i > 0
      invariant 0 <= i <= |workers|
      invariant filtered == EligibleAmong(workers[i..], skill, site)
    {
      i := i - 1;
      assert workers[i..][1..] == workers[i + 1..];
      var s := workers[i];
      if skill in s.skills {
        var available := IsSalarieDisponiblePourJours(s, site, site.days);
        if available && s.coords.Some? && site.coords.Some?
          && (s.contract != CDD || s.contractEnd.None? || s.contractEnd.value >= site.end)
        {
          filtered := [s] + filtered;
        }
      }
    }
    assert workers[0..] == workers;
  }

  // ---------------------------------------------------------------------------------------------
  // affecterSalarieAChantier

  /** The record `affecterSalarieAChantier` pushes: the site's window, no weekday, no hours. */
  function BareRecord(site: Site): Assignment {
    Assignment(site.id, site.start, site.end, [], map[])
  }

  /** `affecterSalarieAChantier`: pushes a bare record onto the worker's calendar and saves the worker. */
  method AffecterSalarieAChantier(db: Database, i: nat, site: Site)
    requires i < |db.workers|
    modifies db
    ensures db.sites == old(db.sites)
    ensures db.workers == old(db.workers)[i := old(db.workers)[i].(assignments := old(db.workers)[i].assignments + [BareRecord(site)])]
  {
    var salarie := db.workers[i];
    salarie := salarie.(assignments := salarie.assignments + [BareRecord(site)]);
    db.workers := db.workers[i := salarie];
  }

  // ---------------------------------------------------------------------------------------------
  // heuresAffecteesJour

  /** What one record adds to a weekday: its site's service-day hours when it lists that weekday. */
  function RecordDayHours(a: Assignment, sites: seq<Site>, j: Weekday): real {
    match Lookup(sites, a.site)
    case None => 0.0
    case Some(s) => if j in a.days then HoursPerServiceDay(s) else 0.0
  }

  /** The hours a calendar holds on a weekday, whatever the dates of its records. */
  function DayHours(affs: seq<Assignment>, sites: seq<Site>, j: Weekday): real {
    if affs == [] then 0.0 else RecordDayHours(affs[0], sites, j) + DayHours(affs[1..], sites, j)
  }

  /** `heuresAffecteesJour`. */
  method HeuresAffecteesJour(w: Worker, sites: seq<Site>, j: Weekday) returns (total: real)
    ensures total == DayHours(w.assignments, sites, j)
  {
    total := 0.0;
    for k := 0 to |w.assignments|
      invariant total + DayHours(w.assignments[k..], sites, j) == DayHours(w.assignments, sites, j)
    {
      assert w.assignments[k..][1..] == w.assignments[k + 1..];
      var aff := w.assignments[k];
      var chantier := Lookup(sites, aff.site);
      if chantier.None? {
        continue;
      }
      if j in aff.days {
        total := total + HoursPerServiceDay(chantier.value);
      }
    }
  }

  lemma {:induction false} DayHoursAppend(affs: seq<Assignment>, more: seq<Assignment>, sites: seq<Site>, j: Weekday)
    ensures DayHours(affs + more, sites, j) == DayHours(affs, sites, j) + DayHours(more, sites, j)
  {
    if affs == [] {
      assert affs + more == more;
    } else {
      assert (affs + more)[0] == affs[0];
      assert (affs + more)[1..] == affs[1..] + more;
      DayHoursAppend(affs[1..], more, sites, j);
    }
  }

  /** Every site of the collection has non-negative weekly hours. */
  predicate NonNegativeHours(sites: seq<Site>) {
    forall k :: 0 <= k < |sites| ==> sites[k].weeklyHours >= 0.0
  }

  lemma {:induction false} DayHoursNonNegative(affs: seq<Assignment>, sites: seq<Site>, j: Weekday)
    requires NonNegativeHours(sites)
    ensures DayHours(affs, sites, j) >= 0.0
  {
    if affs != [] {
      DayHoursNonNegative(affs[1..], sites, j);
      var s := Lookup(sites, affs[0].site);
      if s.Some? {
        var k :| 0 <= k < |sites| && sites[k] == s.value;
        assert HoursPerServiceDay(s.value) >= 0.0;
      }
    }
  }

  // ---------------------------------------------------------------------------------------------
  // heuresAffecteesSemaine

  /** Day `d` falls on a listed weekday and carries the (week, year) key. */
  predicate CountsToward(days: seq<Weekday>, d: Day, week: int, year: int) {
    WeekdayOf(d) in days && WeekNumber(d) == week && YearOf(d) == year
  }

  /** The hours of the days in [d, end] that fall on a listed weekday and carry the (week, year) key. */
  function WindowWeekHours(days: seq<Weekday>, hpd: real, d: Day, end: Day, week: int, year: int): real
    decreases end + 1 - d
  {
    if d > end then 0.0
    else
      (if CountsToward(days, d, week, year) then hpd else 0.0) + WindowWeekHours(days, hpd, d + 1, end, week, year)
  }

  function RecordWeekHours(a: Assignment, sites: seq<Site>, week: int, year: int): real {
    match Lookup(sites, a.site)
    case None => 0.0
    case Some(s) => WindowWeekHours(a.days, HoursPerServiceDay(s), a.start, a.end, week, year)
  }

  /** The hours a calendar holds in the week (ISO week number, calendar year of the day). */
  function WeekHours(affs: seq<Assignment>, sites: seq<Site>, week: int, year: int): real {
    if affs == [] then 0.0 else RecordWeekHours(affs[0], sites, week, year) + WeekHours(affs[1..], sites, week, year)
  }

  /** `heuresAffecteesSemaine`: for each record, one step per calendar day of its window. */
  method HeuresAffecteesSemaine(w: Worker, sites: seq<Site>, week: int, year: int) returns (total: real)
    ensures total == WeekHours(w.assignments, sites, week, year)
  {
    total := 0.0;
    for k := 0 to |w.assignments|
      invariant total + WeekHours(w.assignments[k..], sites, week, year) == WeekHours(w.assignments, sites, week, year)
    {
      assert w.assignments[k..][1..] == w.assignments[k + 1..];
      var aff := w.assignments[k];
      var chantier := Lookup(sites, aff.site);
      if chantier.None? {
        continue;
      }
      var hParJour := HoursPerServiceDay(chantier.value);
      total := AddWindowWeekHours(total, aff.days, hParJour, aff.start, aff.end, week, year);
    }
  }

  /** The day loop of `heuresAffecteesSemaine` over one record's window, adding to the running total. */
  method AddWindowWeekHours(before: real, days: seq<Weekday>, hParJour: real, start: Day, end: Day, week: int, year: int)
    returns (total: real)
    ensures total == before + WindowWeekHours(days, hParJour, start, end, week, year)
  {
    total := before;
    var currentDate := start;
    while currentDate <= end
      invariant total + WindowWeekHours(days, hParJour, currentDate, end, week, year)
        == before + WindowWeekHours(days, hParJour, start, end, week, year)
      decreases end + 1 - currentDate
    {
      if CountsToward(days, currentDate, week, year) {
        total := total + hParJour;
      }
      currentDate := currentDate + 1;
    }
  }

  lemma {:induction false} WindowWeekHoursNonNegative(days: seq<Weekday>, hpd: real, d: Day, end: Day, week: int, year: int)
    requires hpd >= 0.0
    ensures WindowWeekHours(days, hpd, d, end, week, year) >= 0.0
    decreases end + 1 - d
  {
    if d <= end {
      WindowWeekHoursNonNegative(days, hpd, d + 1, end, week, year);
    }
  }

  /** With non-negative weekly hours in the site collection, a weekly total is never negative. */
  lemma {:induction false} WeekHoursNonNegative(affs: seq<Assignment>, sites: seq<Site>, week: int, year: int)
    requires NonNegativeHours(sites)
    ensures WeekHours(affs, sites, week, year) >= 0.0
  {
    if affs != [] {
      WeekHoursNonNegative(affs[1..], sites, week, year);
      var s := Lookup(sites, affs[0].site);
      if s.Some? {
        var k :| 0 <= k < |sites| && sites[k] == s.value;
        WindowWeekHoursNonNegative(affs[0].days, HoursPerServiceDay(s.value), affs[0].start, affs[0].end, week, year);
      }
    }
  }

  lemma {:induction false} WeekHoursAppend(affs: seq<Assignment>, more: seq<Assignment>, sites: seq<Site>, week: int, year: int)
    ensures WeekHours(affs + more, sites, week, year) == WeekHours(affs, sites, week, year) + WeekHours(more, sites, week, year)
  {
    if affs == [] {
      assert affs + more == more;
    } else {
      assert (affs + more)[0] == affs[0];
      assert (affs + more)[1..] == affs[1..] + more;
      WeekHoursAppend(affs[1..], more, sites, week, year);
    }
  }

  lemma {:induction false} WindowWithoutDaysIsEmpty(hpd: real, d: Day, end: Day, week: int, year: int)
    ensures WindowWeekHours([], hpd, d, end, week, year) == 0.0
    decreases end + 1 - d
  {
    if d <= end {
      WindowWithoutDaysIsEmpty(hpd, d + 1, end, week, year);
    }
  }

  /**
   * The bare record of `affecterSalarieAChantier` lists no weekday: the worker's daily and weekly
   * hours and its availability are what they were before.
   */
  lemma BareRecordChangesNoHours(w: Worker, site: Site, sites: seq<Site>, other: Site, requested: seq<Weekday>, j: Weekday, week: int, year: int)
    ensures DayHours(w.assignments + [BareRecord(site)], sites, j) == DayHours(w.assignments, sites, j)
    ensures WeekHours(w.assignments + [BareRecord(site)], sites, week, year) == WeekHours(w.assignments, sites, week, year)
    ensures AvailableFor(w.(assignments := w.assignments + [BareRecord(site)]), other, requested) == AvailableFor(w, other, requested)
  {
    var b := [BareRecord(site)];
    DayHoursAppend(w.assignments, b, sites, j);
    assert DayHours(b, sites, j) == RecordDayHours(BareRecord(site), sites, j) + DayHours([], sites, j);
    WeekHoursAppend(w.assignments, b, sites, week, year);
    assert WeekHours(b, sites, week, year) == RecordWeekHours(BareRecord(site), sites, week, year) + WeekHours([], sites, week, year);
    if Lookup(sites, site.id).Some? {
      WindowWithoutDaysIsEmpty(HoursPerServiceDay(Lookup(sites, site.id).value), site.start, site.end, week, year);
    }
    var w' := w.(assignments := w.assignments + [BareRecord(site)]);
    assert !Clashes(BareRecord(site), other, requested);
    assert forall k :: 0 <= k < |w.assignments| ==> w'.assignments[k] == w.assignments[k];
  }

  // ---------------------------------------------------------------------------------------------
  // depassementSemaineAvecChantierJours

  /** The weekdays in the order of the source's `heuresParJour` keys. */
  const WeekOrder: seq<Weekday> := [Lundi, Mardi, Mercredi, Jeudi, Vendredi, Samedi, Dimanche]

  lemma WeekOrderCovers()
    ensures forall j: Weekday :: j in WeekOrder
  {
    forall j: Weekday ensures j in WeekOrder {
      match j
      case Lundi => case Mardi => case Mercredi => case Jeudi =>
      case Vendredi => case Samedi => case Dimanche =>
    }
  }

  /** `hpd` hours once per listing of `j` in `days`. */
  function ListedLoad(days: seq<Weekday>, j: Weekday, hpd: real): real {
    if days == [] then 0.0 else (if days[0] == j then hpd else 0.0) + ListedLoad(days[1..], j, hpd)
  }

  /** What one record adds to a weekday's total: its site's service-day hours once per listing of that day. */
  function RecordDayLoad(a: Assignment, sites: seq<Site>, j: Weekday): real {
    match Lookup(sites, a.site)
    case None => 0.0
    case Some(ch) => if ch.weeklyHours == 0.0 then 0.0 else ListedLoad(a.days, j, HoursPerServiceDay(ch))
  }

  function CalendarDayLoad(affs: seq<Assignment>, sites: seq<Site>, j: Weekday): real {
    if affs == [] then 0.0 else RecordDayLoad(affs[0], sites, j) + CalendarDayLoad(affs[1..], sites, j)
  }

  /** The weekday total the excess check computes: the calendar's load plus the days it would add for `site`. */
  function ProjectedDayLoad(affs: seq<Assignment>, sites: seq<Site>, site: Option<Site>, added: seq<Weekday>, j: Weekday): real {
    CalendarDayLoad(affs, sites, j)
    + (if site.Some? && site.value.weeklyHours != 0.0
       then ListedLoad(added, j, HoursPerServiceDay(site.value)) else 0.0)
  }

  function OverSeven(v: real): real {
    if v > 7.0 then v - 7.0 else 0.0
  }

  /** The summed excess over seven hours of the listed weekdays. */
  function ExcessOver(js: seq<Weekday>, affs: seq<Assignment>, sites: seq<Site>, site: Option<Site>, added: seq<Weekday>): real {
    if js == [] then 0.0
    else OverSeven(ProjectedDayLoad(affs, sites, site, added, js[0])) + ExcessOver(js[1..], affs, sites, site, added)
  }

  /** The `heuresParJour` dictionary as the source initialises it: every weekday at zero. */
  function ZeroHours(): (m: map<Weekday, real>)
    ensures forall j: Weekday :: j in m && m[j] == 0.0
  {
    WeekOrderCovers();
    map j: Weekday | j in WeekOrder :: 0.0
  }

  /** Adds `hpd` to the entry of each listed weekday, once per listing. */
  method AddServiceDays(m: map<Weekday, real>, days: seq<Weekday>, hpd: real) returns (r: map<Weekday, real>)
    requires forall j: Weekday :: j in m
    ensures forall j: Weekday :: j in r && r[j] == m[j] + ListedLoad(days, j, hpd)
  {
    r := m;
    for k := 0 to |days|
      invariant forall j: Weekday :: j in r && r[j] + ListedLoad(days[k..], j, hpd) == m[j] + ListedLoad(days, j, hpd)
    {
      assert days[k..][1..] == days[k + 1..];
      r := r[days[k] := r[days[k]] + hpd];
    }
  }

  /** The first loop of the excess check: the calendar's load per weekday. */
  method CalendarLoads(affs: seq<Assignment>, sites: seq<Site>) returns (m: map<Weekday, real>)
    ensures forall j: Weekday :: j in m && m[j] == CalendarDayLoad(affs, sites, j)
  {
    m := ZeroHours();
    for k := 0 to |affs|
      invariant forall j: Weekday ::
        j in m && m[j] + CalendarDayLoad(affs[k..], sites, j) == CalendarDayLoad(affs, sites, j)
    {
      assert affs[k..][1..] == affs[k + 1..];
      var aff := affs[k];
      var ch := Lookup(sites, aff.site);
      if ch.None? || ch.value.weeklyHours == 0.0 {
        continue;
      }
      m := AddServiceDays(m, aff.days, HoursPerServiceDay(ch.value));
    }
  }

  /** `depassementSemaineAvecChantierJours`: fills the `heuresParJour` dictionary, then sums the excess. */
  method DepassementSemaineAvecChantierJours(w: Worker, sites: seq<Site>, site: Option<Site>, added: seq<Weekday>)
    returns (depassementTotal: real)
    ensures depassementTotal == ExcessOver(WeekOrder, w.assignments, sites, site, added)
  {
    var heuresParJour := CalendarLoads(w.assignments, sites);
    if site.Some? && site.value.weeklyHours != 0.0 {
      heuresParJour := AddServiceDays(heuresParJour, added, HoursPerServiceDay(site.value));
    }
    assert forall j: Weekday :: heuresParJour[j] == ProjectedDayLoad(w.assignments, sites, site, added, j);
    depassementTotal := 0.0;
    for k := 0 to |WeekOrder|
      invariant depassementTotal + ExcessOver(WeekOrder[k..], w.assignments, sites, site, added)
        == ExcessOver(WeekOrder, w.assignments, sites, site, added)
    {
      assert WeekOrder[k..][1..] == WeekOrder[k + 1..];
      var jour := WeekOrder[k];
      if heuresParJour[jour] > 7.0 {
        depassementTotal := depassementTotal + (heuresParJour[jour] - 7.0);
      }
    }
  }

  lemma {:induction false} ExcessOverZeroIff(js: seq<Weekday>, affs: seq<Assignment>, sites: seq<Site>, site: Option<Site>, added: seq<Weekday>)
    ensures ExcessOver(js, affs, sites, site, added) >= 0.0
    ensures ExcessOver(js, affs, sites, site, added) == 0.0 <==>
      forall j :: j in js ==> ProjectedDayLoad(affs, sites, site, added, j) <= 7.0
  {
    if js != [] {
      ExcessOverZeroIff(js[1..], affs, sites, site, added);
      assert forall j :: j in js <==> j == js[0] || j in js[1..];
    }
  }

  /**
   * The excess is never negative, and it is zero exactly when every weekday's projected total
   * (existing records plus the added days) is at most seven hours.
   */
  lemma ExcessZeroIffEveryDayWithinCap(w: Worker, sites: seq<Site>, site: Option<Site>, added: seq<Weekday>)
    ensures ExcessOver(WeekOrder, w.assignments, sites, site, added) >= 0.0
    ensures ExcessOver(WeekOrder, w.assignments, sites, site, added) == 0.0 <==>
      forall j: Weekday :: ProjectedDayLoad(w.assignments, sites, site, added, j) <= 7.0
  {
    ExcessOverZeroIff(WeekOrder, w.assignments, sites, site, added);
    WeekOrderCovers();
  }
}
