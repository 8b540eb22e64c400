/**
 * The booking rules the two allocators of src/services/affectation.algos.js and
 * src/services/affectation.service.js share: when a worker is already busy on a date, when a CDD
 * contract has run out, the per-date test of the live pass, the candidate queries, and the merge
 * rule that books weekdays of a site into a worker's calendar.
 */
module AllocationRules {
  import opened Wrappers
  import opened Calendar
  import opened Records
  import opened AffectationUtils

  // ---------------------------------------------------------------------------------------------
  // The per-date tests

  /** A record makes its worker busy on `d` for weekday `j` when its window holds `d` and it lists `j`. */
  predicate RecordBusy(a: Assignment, d: Day, j: Weekday) {
    a.start <= d <= a.end && j in a.days
  }

  /** `salarie.affectations.some(...)`: some record of the calendar makes the worker busy. */
  predicate Busy(affs: seq<Assignment>, d: Day, j: Weekday) {
    exists k :: 0 <= k < |affs| && RecordBusy(affs[k], d, j)
  }

  /** A CDD whose `fin_contrat` lies before the date. */
  predicate Expired(w: Worker, d: Day) {
    w.contract == CDD && w.contractEnd.Some? && w.contractEnd.value < d
  }

  /**
   * The three tests the live pass makes at one concrete date `d` on weekday `j`: not already busy,
   * the day total plus `hpd` within 7 hours and the week total (ISO week, calendar year) plus `hpd`
   * within 35 hours, and not an expired CDD.
   */
  predicate PassesOn(w: Worker, sites: seq<Site>, hpd: real, j: Weekday, d: Day) {
    && !Busy(w.assignments, d, j)
    && DayHours(w.assignments, sites, j) + hpd <= 7.0
    && WeekHours(w.assignments, sites, WeekNumber(d), YearOf(d)) + hpd <= 35.0
    && !Expired(w, d)
  }

  /** Two dates on the same weekday less than a week apart are the same date. */
  lemma SameWeekdayWithinAWeek(a: Day, e: Day)
    requires a <= e < a + 7 && WeekdayOf(a) == WeekdayOf(e)
    ensures e == a
  {
    SameWeekdayIffWeeksApart(a, e);
  }

  /** The date loop of Strategy A from `d` on: `d`, `d + 7`, ... up to `end` all pass. */
  predicate EveryWeekPasses(w: Worker, sites: seq<Site>, hpd: real, j: Weekday, d: Day, end: Day)
    decreases end + 1 - d
  {
    d > end || (PassesOn(w, sites, hpd, j, d) && EveryWeekPasses(w, sites, hpd, j, d + 7, end))
  }

  /** The date loop of Strategy B from `d` on: one of `d`, `d + 7`, ... up to `end` passes. */
  predicate SomeWeekPasses(w: Worker, sites: seq<Site>, hpd: real, j: Weekday, d: Day, end: Day)
    decreases end + 1 - d
  {
    d <= end && (PassesOn(w, sites, hpd, j, d) || SomeWeekPasses(w, sites, hpd, j, d + 7, end))
  }

  lemma {:induction false} EveryWeekPassesFrom(w: Worker, sites: seq<Site>, hpd: real, j: Weekday, d: Day, end: Day)
    requires WeekdayOf(d) == j
    ensures EveryWeekPasses(w, sites, hpd, j, d, end) <==>
      forall e {:trigger PassesOn(w, sites, hpd, j, e)} :: d <= e <= end && WeekdayOf(e) == j ==> PassesOn(w, sites, hpd, j, e)
    decreases end + 1 - d
  {
    if d <= end {
      assert WeekdayOf(d + 7) == j by {
        SameWeekdayIffWeeksApart(d, d + 7);
      }
      EveryWeekPassesFrom(w, sites, hpd, j, d + 7, end);
      forall e | d < e < d + 7 && WeekdayOf(e) == j
        ensures false
      {
        SameWeekdayWithinAWeek(d, e);
      }
    }
  }

  lemma {:induction false} SomeWeekPassesFrom(w: Worker, sites: seq<Site>, hpd: real, j: Weekday, d: Day, end: Day)
    requires WeekdayOf(d) == j
    ensures SomeWeekPasses(w, sites, hpd, j, d, end) <==>
      exists e {:trigger PassesOn(w, sites, hpd, j, e)} :: d <= e <= end && WeekdayOf(e) == j && PassesOn(w, sites, hpd, j, e)
    decreases end + 1 - d
  {
    if d <= end {
      assert WeekdayOf(d + 7) == j by {
        SameWeekdayIffWeeksApart(d, d + 7);
      }
      SomeWeekPassesFrom(w, sites, hpd, j, d + 7, end);
      forall e | d < e < d + 7 && WeekdayOf(e) == j
        ensures false
      {
        SameWeekdayWithinAWeek(d, e);
      }
    }
  }

  /** Strategy A's date loop for weekday `j`: from the first date on or after the start, every week passes. */
  predicate FitsOnWeekday(w: Worker, sites: seq<Site>, site: Site, j: Weekday) {
    EveryWeekPasses(w, sites, HoursPerServiceDay(site), j, FirstOnOrAfter(site.start, j), site.end)
  }

  /** Strategy A's weekday loop: the worker fits each listed weekday. */
  predicate FitsEveryDay(w: Worker, sites: seq<Site>, site: Site, days: seq<Weekday>)
    decreases |days|
  {
    days == [] || (FitsOnWeekday(w, sites, site, days[0]) && FitsEveryDay(w, sites, site, days[1..]))
  }

  /** Strategy A's test of one candidate. */
  predicate FitsWholeSite(w: Worker, sites: seq<Site>, site: Site) {
    FitsEveryDay(w, sites, site, site.days)
  }

  /** Strategy B's date loop for one slot: some week's date of `j` passes. */
  predicate PassesSomeDay(w: Worker, sites: seq<Site>, site: Site, j: Weekday) {
    SomeWeekPasses(w, sites, HoursPerServiceDay(site), j, FirstOnOrAfter(site.start, j), site.end)
  }

  /** The weekday walk tests exactly the window's dates on that weekday: it succeeds iff each of them passes. */
  lemma FitsOnWeekdayMeaning(w: Worker, sites: seq<Site>, site: Site, j: Weekday)
    ensures FitsOnWeekday(w, sites, site, j) <==>
      forall d {:trigger PassesOn(w, sites, HoursPerServiceDay(site), j, d)} ::
        site.start <= d <= site.end && WeekdayOf(d) == j ==> PassesOn(w, sites, HoursPerServiceDay(site), j, d)
  {
    FirstOnOrAfterIsFirst(site.start, j);
    EveryWeekPassesFrom(w, sites, HoursPerServiceDay(site), j, FirstOnOrAfter(site.start, j), site.end);
  }

  lemma {:induction false} FitsEveryDayMeaning(w: Worker, sites: seq<Site>, site: Site, days: seq<Weekday>)
    ensures FitsEveryDay(w, sites, site, days) <==> forall j :: j in days ==> FitsOnWeekday(w, sites, site, j)
    decreases |days|
  {
    if days != [] {
      FitsEveryDayMeaning(w, sites, site, days[1..]);
      assert forall j :: j in days <==> j == days[0] || j in days[1..];
    }
  }

  /**
   * A whole-site candidate passes the tests at every date of the window that falls on a service
   * weekday, and only such a candidate is accepted.
   */
  lemma FitsWholeSiteMeaning(w: Worker, sites: seq<Site>, site: Site)
    ensures FitsWholeSite(w, sites, site) <==>
      forall d {:trigger PassesOn(w, sites, HoursPerServiceDay(site), WeekdayOf(d), d)} ::
        site.start <= d <= site.end && WeekdayOf(d) in site.days ==> PassesOn(w, sites, HoursPerServiceDay(site), WeekdayOf(d), d)
  {
    FitsEveryDayMeaning(w, sites, site, site.days);
    var hpd := HoursPerServiceDay(site);
    forall j | j in site.days
      ensures FitsOnWeekday(w, sites, site, j) <==>
        forall d {:trigger PassesOn(w, sites, hpd, j, d)} :: site.start <= d <= site.end && WeekdayOf(d) == j ==> PassesOn(w, sites, hpd, j, d)
    {
      FitsOnWeekdayMeaning(w, sites, site, j);
    }
  }

  /** A slot's walk succeeds iff the worker passes at some date of the window on that weekday. */
  lemma PassesSomeDayMeaning(w: Worker, sites: seq<Site>, site: Site, j: Weekday)
    ensures PassesSomeDay(w, sites, site, j) <==>
      exists d {:trigger PassesOn(w, sites, HoursPerServiceDay(site), j, d)} ::
        site.start <= d <= site.end && WeekdayOf(d) == j && PassesOn(w, sites, HoursPerServiceDay(site), j, d)
  {
    FirstOnOrAfterIsFirst(site.start, j);
    SomeWeekPassesFrom(w, sites, HoursPerServiceDay(site), j, FirstOnOrAfter(site.start, j), site.end);
  }

  // ---------------------------------------------------------------------------------------------
  // Candidate queries

  /** The two `Salarie.find` filters the allocators use. */
  datatype Filter =
    | AllSkills(skills: seq<string>, contract: Option<Contract>)  // `{ competences: { $all: skills }, type_contrat }`
    | OneSkill(skill: string)                                    // `{ competences: skill }`

  /** A document matches `$all` only for a non-empty list whose every element it holds. */
  predicate Matches(w: Worker, q: Filter) {
    match q
    case AllSkills(skills, contract) =>
      |skills| > 0 && (forall s :: s in skills ==> s in w.skills) && (contract.Some? ==> w.contract == contract.value)
    case OneSkill(skill) => skill in w.skills
  }

  predicate Increasing(r: seq<nat>) {
    forall a, b :: 0 <= a < b < |r| ==> r[a] < r[b]
  }

  /** The positions, from `k` on, of the documents the query matches, in collection order. */
  function FindFrom(workers: seq<Worker>, q: Filter, k: nat): (r: seq<nat>)
    ensures forall m :: 0 <= m < |r| ==> k <= r[m] < |workers|
    decreases |workers| - k
  {
    if k >= |workers| then []
    else if Matches(workers[k], q) then [k] + FindFrom(workers, q, k + 1)
    else FindFrom(workers, q, k + 1)
  }

  /** The query returns exactly the matching documents from `k` on, each once, in collection order. */
  lemma {:induction false} FindFromSpec(workers: seq<Worker>, q: Filter, k: nat)
    ensures forall i :: i in FindFrom(workers, q, k) <==> k <= i < |workers| && Matches(workers[i], q)
    ensures Increasing(FindFrom(workers, q, k))
    decreases |workers| - k
  {
    if k < |workers| {
      FindFromSpec(workers, q, k + 1);
      var rest := FindFrom(workers, q, k + 1);
      if Matches(workers[k], q) {
        assert FindFrom(workers, q, k) == [k] + rest;
        assert forall i :: i in [k] + rest <==> i == k || i in rest;
      }
    }
  }

  /** `candidats.filter(s => s.coordonnees)`. */
  function WithCoords(workers: seq<Worker>, idx: seq<nat>): (r: seq<nat>)
    requires forall m :: 0 <= m < |idx| ==> idx[m] < |workers|
    ensures forall m :: 0 <= m < |r| ==> r[m] < |workers|
  {
    if idx == [] then []
    else if workers[idx[0]].coords.Some? then [idx[0]] + WithCoords(workers, idx[1..])
    else WithCoords(workers, idx[1..])
  }

  /** The filter keeps exactly the positions whose worker has coordinates, in their order. */
  lemma {:induction false} WithCoordsSpec(workers: seq<Worker>, idx: seq<nat>)
    requires forall m :: 0 <= m < |idx| ==> idx[m] < |workers|
    ensures forall i :: i in WithCoords(workers, idx) <==> i in idx && workers[i].coords.Some?
    ensures Increasing(idx) ==> Increasing(WithCoords(workers, idx))
  {
    if idx != [] {
      WithCoordsSpec(workers, idx[1..]);
      var rest := WithCoords(workers, idx[1..]);
      assert forall i :: i in idx <==> i == idx[0] || i in idx[1..];
      if workers[idx[0]].coords.Some? {
        assert WithCoords(workers, idx) == [idx[0]] + rest;
        assert forall i :: i in [idx[0]] + rest <==> i == idx[0] || i in rest;
        if Increasing(idx) {
          forall m | 0 <= m < |rest| ensures idx[0] < rest[m] {
            assert rest[m] in idx[1..];
          }
        }
      }
    }
  }

  /** `Salarie.find(q)` run over the whole collection. */
  function Find(workers: seq<Worker>, q: Filter): (r: seq<nat>)
    ensures forall m :: 0 <= m < |r| ==> r[m] < |workers|
  {
    FindFrom(workers, q, 0)
  }

  // ---------------------------------------------------------------------------------------------
  // The merge rule

  /** A record of this site carrying the site's exact window. */
  predicate SameWindow(a: Assignment, site: Site) {
    a.site == site.id && a.start == site.start && a.end == site.end
  }

  /** `affectations.find(...)`: the first record of this site with the site's exact window. */
  function FindRecord(affs: seq<Assignment>, site: Site): (r: Option<nat>)
    ensures r.Some? ==> r.value < |affs| && SameWindow(affs[r.value], site)
    ensures r.Some? ==> forall k :: 0 <= k < r.value ==> !SameWindow(affs[k], site)
    ensures r.None? ==> forall k :: 0 <= k < |affs| ==> !SameWindow(affs[k], site)
  {
    if affs == [] then None
    else if SameWindow(affs[0], site) then Some(0)
    else match FindRecord(affs[1..], site)
      case None => None
      case Some(k) => Some(k + 1)
  }

  /** Pushes each added weekday the list does not yet hold, in order. */
  function MergeDays(days: seq<Weekday>, added: seq<Weekday>): seq<Weekday>
    decreases |added|
  {
    if added == [] then days
    else MergeDays(if added[0] in days then days else days + [added[0]], added[1..])
  }

  /** Merging keeps the list as a prefix, adds exactly the missing weekdays, and never introduces a duplicate. */
  lemma {:induction false} MergeDaysSpec(days: seq<Weekday>, added: seq<Weekday>)
    ensures |days| <= |MergeDays(days, added)| && MergeDays(days, added)[..|days|] == days
    ensures forall j :: j in MergeDays(days, added) <==> j in days || j in added
    ensures forall k :: |days| <= k < |MergeDays(days, added)| ==> MergeDays(days, added)[k] !in days
    ensures (forall a, b :: 0 <= a < b < |days| ==> days[a] != days[b]) ==>
      forall a, b :: 0 <= a < b < |MergeDays(days, added)| ==> MergeDays(days, added)[a] != MergeDays(days, added)[b]
    decreases |added|
  {
    if added != [] {
      var next := if added[0] in days then days else days + [added[0]];
      MergeDaysSpec(next, added[1..]);
      assert next[..|days|] == days;
      assert forall j :: j in added <==> j == added[0] || j in added[1..];
    }
  }

  /**
   * The merge rule: the weekdays join the first record of this site with the same window, or one new
   * record with the site's window and exactly these weekdays is appended.
   */
  function Book(affs: seq<Assignment>, site: Site, added: seq<Weekday>): seq<Assignment> {
    match FindRecord(affs, site)
    case Some(k) => affs[k := affs[k].(days := MergeDays(affs[k].days, added))]
    case None => affs + [Assignment(site.id, site.start, site.end, added, map[])]
  }

  /**
   * The merge rule touches one record: the calendar grows by at most one record, every record that
   * is not of this site with the site's window stays in place, and the first record of this site with
   * the site's window (or, when there is none, one record appended at the end) ends up listing
   * exactly its former weekdays (none for a new record) and the added ones, its hours map kept.
   */
  lemma BookChangesOneRecord(affs: seq<Assignment>, site: Site, added: seq<Weekday>)
    ensures var r := Book(affs, site, added);
      && |affs| <= |r| <= |affs| + 1
      && (forall m :: 0 <= m < |affs| && !SameWindow(affs[m], site) ==> r[m] == affs[m])
      && exists k :: 0 <= k < |r| && SameWindow(r[k], site)
           && (FindRecord(affs, site).Some? ==> k == FindRecord(affs, site).value && |r| == |affs|)
           && (FindRecord(affs, site).None? ==> k == |affs| && |r| == |affs| + 1)
           && (forall m :: 0 <= m < |r| && m != k ==> m < |affs| && r[m] == affs[m])
           && (forall j :: j in r[k].days <==> (k < |affs| && j in affs[k].days) || j in added)
           && (k < |affs| ==> r[k].hoursByDay == affs[k].hoursByDay)
  {
    var r := Book(affs, site, added);
    match FindRecord(affs, site)
    case Some(k) =>
      MergeDaysSpec(affs[k].days, added);
      assert SameWindow(r[k], site);
    case None =>
      assert SameWindow(r[|affs|], site);
  }

  /** After booking, the worker is busy on every booked weekday at every date of the site's window. */
  lemma {:induction false} BookedDaysBusy(affs: seq<Assignment>, site: Site, added: seq<Weekday>, j: Weekday, d: Day)
    requires j in added && site.start <= d <= site.end
    ensures Busy(Book(affs, site, added), d, j)
  {
    var r := Book(affs, site, added);
    match FindRecord(affs, site)
    case Some(k) =>
      MergeDaysSpec(affs[k].days, added);
      assert RecordBusy(r[k], d, j);
    case None =>
      assert RecordBusy(r[|affs|], d, j);
  }

  /** Booking never frees a date: what was busy stays busy. */
  lemma {:induction false} BookKeepsBusy(affs: seq<Assignment>, site: Site, added: seq<Weekday>, j: Weekday, d: Day)
    requires Busy(affs, d, j)
    ensures Busy(Book(affs, site, added), d, j)
  {
    var r := Book(affs, site, added);
    var k :| 0 <= k < |affs| && RecordBusy(affs[k], d, j);
    match FindRecord(affs, site)
    case Some(m) =>
      if k == m {
        MergeDaysSpec(affs[m].days, added);
      }
      assert RecordBusy(r[k], d, j);
    case None =>
      assert RecordBusy(r[k], d, j);
  }

  /** Replacing one record changes a weekly total by the difference between the two records' hours. */
  lemma {:induction false} WeekHoursUpdate(affs: seq<Assignment>, k: nat, a: Assignment, sites: seq<Site>, week: int, year: int)
    requires k < |affs|
    ensures WeekHours(affs[k := a], sites, week, year)
      == WeekHours(affs, sites, week, year) - RecordWeekHours(affs[k], sites, week, year) + RecordWeekHours(a, sites, week, year)
  {
    if k > 0 {
      assert affs[k := a][0] == affs[0];
      assert affs[k := a][1..] == affs[1..][k - 1 := a];
      WeekHoursUpdate(affs[1..], k - 1, a, sites, week, year);
    } else {
      assert affs[k := a][1..] == affs[1..];
    }
  }

  /** Weekdays that each come from one of two lists carry at most the hours the two lists carry. */
  lemma {:induction false} WindowWeekHoursSubadditive(a: seq<Weekday>, b: seq<Weekday>, c: seq<Weekday>, hpd: real,
                                                      d: Day, end: Day, week: int, year: int)
    requires hpd >= 0.0
    requires forall j :: j in c ==> j in a || j in b
    ensures WindowWeekHours(c, hpd, d, end, week, year)
      <= WindowWeekHours(a, hpd, d, end, week, year) + WindowWeekHours(b, hpd, d, end, week, year)
    decreases end + 1 - d
  {
    if d <= end {
      WindowWeekHoursSubadditive(a, b, c, hpd, d + 1, end, week, year);
    }
  }

  /**
   * Booking weekdays of a site that the collection holds adds to any week at most the hours those
   * weekdays carry in the site's window.
   */
  lemma BookWeekHoursAtMost(affs: seq<Assignment>, sites: seq<Site>, site: Site, added: seq<Weekday>, week: int, year: int)
    requires Lookup(sites, site.id) == Some(site) && site.weeklyHours >= 0.0
    ensures WeekHours(Book(affs, site, added), sites, week, year)
      <= WeekHours(affs, sites, week, year) + WindowWeekHours(added, HoursPerServiceDay(site), site.start, site.end, week, year)
  {
    var hpd := HoursPerServiceDay(site);
    assert hpd >= 0.0;
    match FindRecord(affs, site)
    case Some(k) =>
      var merged := affs[k].(days := MergeDays(affs[k].days, added));
      WeekHoursUpdate(affs, k, merged, sites, week, year);
      MergeDaysSpec(affs[k].days, added);
      WindowWeekHoursSubadditive(affs[k].days, added, merged.days, hpd, site.start, site.end, week, year);
    case None =>
      var rec := Assignment(site.id, site.start, site.end, added, map[]);
      WeekHoursAppend(affs, [rec], sites, week, year);
      assert WeekHours([rec], sites, week, year) == RecordWeekHours(rec, sites, week, year) + WeekHours([], sites, week, year);
  }

  /** `$pull: { affectations: { chantierId } }`: every record of the site is removed. */
  function RemoveSite(affs: seq<Assignment>, id: SiteId): (r: seq<Assignment>)
    ensures |r| <= |affs|
    ensures forall a :: a in r <==> a in affs && a.site != id
  {
    if affs == [] then []
    else
      assert forall a :: a in affs <==> a == affs[0] || a in affs[1..];
      (if affs[0].site == id then [] else [affs[0]]) + RemoveSite(affs[1..], id)
  }

  /** Removing a site's records twice is removing them once. */
  lemma {:induction false} RemoveSiteIdempotent(affs: seq<Assignment>, id: SiteId)
    ensures RemoveSite(RemoveSite(affs, id), id) == RemoveSite(affs, id)
  {
    if affs != [] {
      var rest := RemoveSite(affs[1..], id);
      RemoveSiteIdempotent(affs[1..], id);
      if affs[0].site == id {
        assert RemoveSite(affs, id) == rest;
      } else {
        var r := [affs[0]] + rest;
        assert RemoveSite(affs, id) == r;
        assert r[0] == affs[0] && r[1..] == rest;
      }
    }
  }

  lemma {:induction false} RemoveSiteAppend(affs: seq<Assignment>, more: seq<Assignment>, id: SiteId)
    ensures RemoveSite(affs + more, id) == RemoveSite(affs, id) + RemoveSite(more, id)
  {
    if affs == [] {
      assert affs + more == more;
    } else {
      assert (affs + more)[0] == affs[0];
      assert (affs + more)[1..] == affs[1..] + more;
      RemoveSiteAppend(affs[1..], more, id);
    }
  }

  lemma {:induction false} RemoveSiteUpdate(affs: seq<Assignment>, k: nat, a: Assignment, id: SiteId)
    requires k < |affs| && affs[k].site == id && a.site == id
    ensures RemoveSite(affs[k := a], id) == RemoveSite(affs, id)
  {
    if k > 0 {
      assert affs[k := a][0] == affs[0];
      assert affs[k := a][1..] == affs[1..][k - 1 := a];
      RemoveSiteUpdate(affs[1..], k - 1, a, id);
    }
  }

  /**
   * Resetting a site undoes its bookings: whatever weekdays a booking added, pulling the site's
   * records afterwards leaves what pulling them before would have left.
   */
  lemma ResetUndoesBook(affs: seq<Assignment>, site: Site, added: seq<Weekday>)
    ensures RemoveSite(Book(affs, site, added), site.id) == RemoveSite(affs, site.id)
  {
    match FindRecord(affs, site)
    case Some(k) =>
      RemoveSiteUpdate(affs, k, affs[k].(days := MergeDays(affs[k].days, added)), site.id);
    case None =>
      var record := Assignment(site.id, site.start, site.end, added, map[]);
      RemoveSiteAppend(affs, [record], site.id);
      assert RemoveSite([record], site.id) == [] + RemoveSite([], site.id);
  }

  // ---------------------------------------------------------------------------------------------
  // Notes

  /** `list.join(sep)`. */
  function Join(parts: seq<string>, sep: string): (r: string)
    ensures parts == [] ==> r == ""
    ensures |parts| == 1 ==> r == parts[0]
  {
    if parts == [] then ""
    else if |parts| == 1 then parts[0]
    else parts[0] + sep + Join(parts[1..], sep)
  }

  const UncoveredPrefix: string := "Jours non couverts : "
}
