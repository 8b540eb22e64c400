/**
 * Three rules the system's design states for every worker's calendar, and the live pass of
 * src/services/affectation.algos.js: each record's dates never meet another's on the same weekday,
 * a CDD holds no date after the end of the contract, and no (ISO week, year) carries more than 35
 * hours. Strategy A tests each date against the existing hours plus one service day and then books
 * all the site's weekdays at once; Strategy B gives a slot to a worker who passes at one date and
 * then books that weekday for the whole window. Each gap is exhibited on a concrete store, and a
 * test that closes it is proved to keep the rule.
 */
module PassInvariants {
  import opened Wrappers
  import opened Calendar
  import opened Records
  import opened AffectationUtils
  import opened AllocationRules
  import opened AffectationAlgos

  // ---------------------------------------------------------------------------------------------
  // Concrete stores

  const Paris: Option<Coords> := Some(Coords(48.85, 2.35))

  /** A record of site `s` over `[start, end]` on `days`, with the default empty hours map. */
  function Record(s: SiteId, start: Day, end: Day, days: seq<Weekday>): Assignment {
    Assignment(s, start, end, days, map[])
  }

  /** A `Nouveau` site needing one `vitres` worker. */
  function WindowSite(id: SiteId, start: Day, end: Day, weeklyHours: real, days: seq<Weekday>): Site {
    Site(id, "Bureaux", "Paris", Paris, start, end, [Need("vitres", 1)], None, Nouveau, [], weeklyHours, days)
  }

  function VitresWorker(id: WorkerId, contract: Contract, contractEnd: Option<Day>, affs: seq<Assignment>): Worker {
    Worker(id, "Durand", ["vitres"], "Paris", Paris, contract, contractEnd, None, None, affs)
  }

  /** Two records of the calendar make the worker busy at `d` on weekday `j`. */
  predicate DoubleBooked(affs: seq<Assignment>, d: Day, j: Weekday) {
    exists a, b :: 0 <= a < b < |affs| && RecordBusy(affs[a], d, j) && RecordBusy(affs[b], d, j)
  }

  /** In a store of one worker, an able worker gets the slot: they are booked on that weekday and join the team. */
  lemma OnlyWorkerGetsSlot(w: Worker, sites: seq<Site>, site: Site, skill: string, j: Weekday)
    requires Able(w, sites, site, skill, j)
    ensures FillSlot(Progress([w], [], []), sites, site, skill, j) == Progress(BookAt([w], 0, site, [j]), [w.id], [])
  {
    var p := Progress([w], [], []);
    FillSlotMeaning(p, sites, site, skill, j);
    assert Able(p.workers[0], sites, site, skill, j);
  }

  // ---------------------------------------------------------------------------------------------
  // Strategy B: one passing date books the whole window

  /**
   * A CDD whose contract ends on Sunday 4 January 1970 (day 3) passes on Thursday 1 January, so
   * Strategy B gives them a `jeudi` slot over days 0 to 30: they are then booked on Thursday 29
   * January (day 28), past the end of their contract.
   */
  lemma SlotTestBooksPastContractEnd(w: Worker, site: Site)
    requires w == VitresWorker(1, CDD, Some(3), []) && site == WindowSite(7, 0, 30, 7.0, [Jeudi])
    ensures var r := FillSlot(Progress([w], [], []), [site], site, "vitres", Jeudi);
      && r.team == [w.id] && |r.workers| == 1
      && WeekdayOf(28) == Jeudi && site.start <= 28 <= site.end
      && Busy(r.workers[0].assignments, 28, Jeudi) && Expired(r.workers[0], 28)
  {
    CddGetsSlot(w, site);
    CddBookedOnDay28(w, site);
  }

  lemma CddGetsSlot(w: Worker, site: Site)
    requires w == VitresWorker(1, CDD, Some(3), []) && site == WindowSite(7, 0, 30, 7.0, [Jeudi])
    ensures FillSlot(Progress([w], [], []), [site], site, "vitres", Jeudi) == Progress(BookAt([w], 0, site, [Jeudi]), [w.id], [])
  {
    CddAbleOnThursday(w, site);
    OnlyWorkerGetsSlot(w, [site], site, "vitres", Jeudi);
  }

  lemma CddBookedOnDay28(w: Worker, site: Site)
    requires w == VitresWorker(1, CDD, Some(3), []) && site == WindowSite(7, 0, 30, 7.0, [Jeudi])
    ensures var booked := BookAt([w], 0, site, [Jeudi])[0];
      && WeekdayOf(28) == Jeudi && site.start <= 28 <= site.end
      && Busy(booked.assignments, 28, Jeudi) && Expired(booked, 28)
  {
    BookedDaysBusy(w.assignments, site, [Jeudi], Jeudi, 28);
    assert WeekdayOf(28) == Jeudi;
  }

  lemma CddAbleOnThursday(w: Worker, site: Site)
    requires w == VitresWorker(1, CDD, Some(3), []) && site == WindowSite(7, 0, 30, 7.0, [Jeudi])
    ensures Able(w, [site], site, "vitres", Jeudi)
  {
    assert WeekdayOf(0) == Jeudi;
    assert HoursPerServiceDay(site) == 7.0;
    assert PassesOn(w, [site], HoursPerServiceDay(site), Jeudi, 0);
    PassesSomeDayMeaning(w, [site], site, Jeudi);
  }

  /**
   * A worker with a `lundi` record over days 10 to 12 passes on Monday 5 January (day 4), so
   * Strategy B gives them a `lundi` slot over days 0 to 30: two of their records then cover Monday
   * 12 January (day 11).
   */
  lemma SlotTestDoubleBooks(w: Worker, site: Site, other: Site)
    requires w == VitresWorker(2, CDI, None, [Record(8, 10, 12, [Lundi])])
    requires site == WindowSite(7, 0, 30, 3.5, [Lundi]) && other == WindowSite(8, 10, 12, 3.5, [Lundi])
    ensures var r := FillSlot(Progress([w], [], []), [site, other], site, "vitres", Lundi);
      && r.team == [w.id] && |r.workers| == 1
      && WeekdayOf(11) == Lundi && site.start <= 11 <= site.end
      && !DoubleBooked(w.assignments, 11, Lundi)
      && DoubleBooked(r.workers[0].assignments, 11, Lundi)
  {
    var r := FillSlot(Progress([w], [], []), [site, other], site, "vitres", Lundi);
    MondayAble(w, site, other);
    OnlyWorkerGetsSlot(w, [site, other], site, "vitres", Lundi);
    MondayDoubleBooked(w, site);
  }

  lemma MondayAble(w: Worker, site: Site, other: Site)
    requires w == VitresWorker(2, CDI, None, [Record(8, 10, 12, [Lundi])])
    requires site == WindowSite(7, 0, 30, 3.5, [Lundi]) && other == WindowSite(8, 10, 12, 3.5, [Lundi])
    ensures Able(w, [site, other], site, "vitres", Lundi)
  {
    var sites := [site, other];
    var before := w.assignments[0];
    assert WeekdayOf(4) == Lundi && WeekdayOf(10) == Dimanche && WeekdayOf(11) == Lundi && WeekdayOf(12) == Mardi;
    assert WeekNumber(4) == 2 && WeekNumber(11) == 3;
    assert Lookup(sites, 8) == Some(other);
    assert HoursPerServiceDay(other) == 3.5 && HoursPerServiceDay(site) == 3.5;
    assert RecordWeekHours(before, sites, WeekNumber(4), YearOf(4)) == 0.0;
    assert WeekHours([before], sites, WeekNumber(4), YearOf(4)) == 0.0;
    assert DayHours([before], sites, Lundi) == 3.5;
    assert PassesOn(w, sites, HoursPerServiceDay(site), Lundi, 4);
    PassesSomeDayMeaning(w, sites, site, Lundi);
  }

  lemma MondayDoubleBooked(w: Worker, site: Site)
    requires w == VitresWorker(2, CDI, None, [Record(8, 10, 12, [Lundi])])
    requires site == WindowSite(7, 0, 30, 3.5, [Lundi])
    ensures WeekdayOf(11) == Lundi
    ensures !DoubleBooked(w.assignments, 11, Lundi)
    ensures DoubleBooked(BookAt([w], 0, site, [Lundi])[0].assignments, 11, Lundi)
  {
    var after := Book(w.assignments, site, [Lundi]);
    assert FindRecord(w.assignments, site) == None;
    assert after == w.assignments + [Record(7, 0, 30, [Lundi])];
    assert RecordBusy(after[0], 11, Lundi) && RecordBusy(after[1], 11, Lundi);
  }

  // ---------------------------------------------------------------------------------------------
  // Strategy A: each date is tested with one service day, then every weekday is booked

  /**
   * A worker holding 28 hours in the week of Monday 5 January 1970 (a record over days 5 to 9 on
   * `mardi`, `mercredi`, `jeudi` and `samedi`, 7 hours a day) fits a 14-hour `lundi`/`vendredi`
   * site over days 4 to 8 at each of its two dates (28 + 7 hours), so Strategy A books them on both
   * weekdays: that week then carries 42 hours.
   */
  lemma WholeSiteTestOverbooksAWeek(w: Worker, site: Site, other: Site)
    requires w == VitresWorker(3, CDI, None, [Record(8, 5, 9, [Mardi, Mercredi, Jeudi, Samedi])])
    requires site == WindowSite(7, 4, 8, 14.0, [Lundi, Vendredi])
    requires other == WindowSite(8, 5, 9, 28.0, [Mardi, Mercredi, Jeudi, Samedi])
    ensures var o := AllocateSite([w], [site, other], site);
      && o == SiteOutcome(BookAt([w], 0, site, site.days), [w.id], Planifie, None)
      && |o.workers| == 1
      && WeekNumber(4) == 2 && YearOf(4) == 1970
      && WeekHours(w.assignments, [site, other], 2, 1970) == 28.0
      && WeekHours(o.workers[0].assignments, [site, other], 2, 1970) == 42.0
  {
    var sites := [site, other];
    WholeSiteFits(w, site, other);
    assert SkillsOf(site.needs) == ["vitres"];
    assert Matches(w, AllSkills(["vitres"], Some(CDI)));
    assert HoldersFrom([w], ["vitres"], CDI, false, 0) == [0];
    assert HoldersFrom([w], ["vitres"], CDI, true, 0) == [0];
    assert WholeSiteCandidates([w], site) == [0];
    assert FirstFitFrom([w], sites, site, [0], 0) == Some(0);
    FirstWeekHours(w, site, other);
  }

  /** The weekdays of days 4 to 9, and the week key of the two service dates. */
  lemma FirstWeekDates()
    ensures WeekdayOf(4) == Lundi && WeekdayOf(5) == Mardi && WeekdayOf(6) == Mercredi
    ensures WeekdayOf(7) == Jeudi && WeekdayOf(8) == Vendredi && WeekdayOf(9) == Samedi
    ensures WeekNumber(4) == 2 && YearOf(4) == 1970 && WeekNumber(8) == 2 && YearOf(8) == 1970
  {
    FirstWeekKey(4);
    FirstWeekKey(8);
  }

  /** Days 4 to 9 (Monday 5 to Saturday 10 January 1970) lie in ISO week 2 of 1970. */
  lemma FirstWeekKey(d: Day)
    requires 4 <= d <= 9
    ensures WeekNumber(d) == 2 && YearOf(d) == 1970
  {
    assert WeekNumber(4) == 2;
    WeekNumberConstantMondayToSunday(4, d - 4);
  }

  /** One day of a window within days 4 to 9 counts toward week 2 of 1970 exactly when its weekday is listed. */
  lemma FirstWeekStep(days: seq<Weekday>, hpd: real, d: Day, end: Day)
    requires 4 <= d <= 9 && d <= end
    ensures WindowWeekHours(days, hpd, d, end, 2, 1970)
      == (if WeekdayOf(d) in days then hpd else 0.0) + WindowWeekHours(days, hpd, d + 1, end, 2, 1970)
  {
    FirstWeekKey(d);
  }

  /** The other site's record carries 7 hours on each of days 5, 6, 7 and 9. */
  lemma OtherRecordWeekHours()
    ensures WindowWeekHours([Mardi, Mercredi, Jeudi, Samedi], 7.0, 5, 9, 2, 1970) == 28.0
  {
    var days := [Mardi, Mercredi, Jeudi, Samedi];
    FirstWeekDates();
    FirstWeekStep(days, 7.0, 9, 9);
    FirstWeekStep(days, 7.0, 8, 9);
    FirstWeekStep(days, 7.0, 7, 9);
    FirstWeekStep(days, 7.0, 6, 9);
    FirstWeekStep(days, 7.0, 5, 9);
  }

  /** The booked record carries 7 hours on each of days 4 and 8. */
  lemma BookedRecordWeekHours()
    ensures WindowWeekHours([Lundi, Vendredi], 7.0, 4, 8, 2, 1970) == 14.0
  {
    var days := [Lundi, Vendredi];
    FirstWeekDates();
    FirstWeekStep(days, 7.0, 8, 8);
    FirstWeekStep(days, 7.0, 7, 8);
    FirstWeekStep(days, 7.0, 6, 8);
    FirstWeekStep(days, 7.0, 5, 8);
    FirstWeekStep(days, 7.0, 4, 8);
  }

  /** The week totals of the worker's calendar before and after the booking. */
  lemma FirstWeekHours(w: Worker, site: Site, other: Site)
    requires w == VitresWorker(3, CDI, None, [Record(8, 5, 9, [Mardi, Mercredi, Jeudi, Samedi])])
    requires site == WindowSite(7, 4, 8, 14.0, [Lundi, Vendredi])
    requires other == WindowSite(8, 5, 9, 28.0, [Mardi, Mercredi, Jeudi, Samedi])
    ensures WeekHours(w.assignments, [site, other], 2, 1970) == 28.0
    ensures WeekHours(BookAt([w], 0, site, site.days)[0].assignments, [site, other], 2, 1970) == 42.0
  {
    WeekHoursBefore(w, site, other);
    WeekHoursAfter(w, site, other);
  }

  lemma WeekHoursBefore(w: Worker, site: Site, other: Site)
    requires w == VitresWorker(3, CDI, None, [Record(8, 5, 9, [Mardi, Mercredi, Jeudi, Samedi])])
    requires site == WindowSite(7, 4, 8, 14.0, [Lundi, Vendredi])
    requires other == WindowSite(8, 5, 9, 28.0, [Mardi, Mercredi, Jeudi, Samedi])
    ensures WeekHours(w.assignments, [site, other], 2, 1970) == 28.0
  {
    var sites := [site, other];
    OtherRecordWeekHours();
    assert Lookup(sites, 8) == Some(other);
    assert HoursPerServiceDay(other) == 7.0;
    assert RecordWeekHours(w.assignments[0], sites, 2, 1970) == 28.0;
    assert w.assignments[1..] == [];
  }

  /** The site has no record in the calendar yet: booking appends one with its window. */
  lemma BookAppendsRecord(w: Worker, site: Site)
    requires w == VitresWorker(3, CDI, None, [Record(8, 5, 9, [Mardi, Mercredi, Jeudi, Samedi])])
    requires site == WindowSite(7, 4, 8, 14.0, [Lundi, Vendredi])
    ensures Book(w.assignments, site, site.days) == w.assignments + [Record(7, 4, 8, [Lundi, Vendredi])]
  {
    assert FindRecord(w.assignments, site) == None;
  }

  lemma WeekHoursAfter(w: Worker, site: Site, other: Site)
    requires w == VitresWorker(3, CDI, None, [Record(8, 5, 9, [Mardi, Mercredi, Jeudi, Samedi])])
    requires site == WindowSite(7, 4, 8, 14.0, [Lundi, Vendredi])
    requires other == WindowSite(8, 5, 9, 28.0, [Mardi, Mercredi, Jeudi, Samedi])
    ensures WeekHours(BookAt([w], 0, site, site.days)[0].assignments, [site, other], 2, 1970) == 42.0
  {
    var added := Record(7, 4, 8, [Lundi, Vendredi]);
    WeekHoursBefore(w, site, other);
    BookAppendsRecord(w, site);
    AddedRecordWeekHours(site, other);
    assert BookAt([w], 0, site, site.days)[0].assignments == w.assignments + [added];
    WeekHoursAppend(w.assignments, [added], [site, other], 2, 1970);
  }

  /** The appended record alone carries 14 hours in week 2 of 1970. */
  lemma AddedRecordWeekHours(site: Site, other: Site)
    requires site == WindowSite(7, 4, 8, 14.0, [Lundi, Vendredi])
    requires other == WindowSite(8, 5, 9, 28.0, [Mardi, Mercredi, Jeudi, Samedi])
    ensures WeekHours([Record(7, 4, 8, [Lundi, Vendredi])], [site, other], 2, 1970) == 14.0
  {
    var sites := [site, other];
    var added := Record(7, 4, 8, [Lundi, Vendredi]);
    BookedRecordWeekHours();
    assert Lookup(sites, 7) == Some(site);
    assert HoursPerServiceDay(site) == 7.0;
    assert RecordWeekHours(added, sites, 2, 1970) == 14.0;
    assert [added][1..] == [];
  }

  /** Both service dates, Monday (day 4) and Friday (day 8), pass the per-date tests. */
  lemma WholeSiteFits(w: Worker, site: Site, other: Site)
    requires w == VitresWorker(3, CDI, None, [Record(8, 5, 9, [Mardi, Mercredi, Jeudi, Samedi])])
    requires site == WindowSite(7, 4, 8, 14.0, [Lundi, Vendredi])
    requires other == WindowSite(8, 5, 9, 28.0, [Mardi, Mercredi, Jeudi, Samedi])
    ensures FitsWholeSite(w, [site, other], site)
  {
    var sites := [site, other];
    ServiceDatesPass(w, site, other);
    assert HoursPerServiceDay(site) == 7.0;
    forall d | site.start <= d <= site.end && WeekdayOf(d) in site.days
      ensures PassesOn(w, sites, HoursPerServiceDay(site), WeekdayOf(d), d)
    {
      ServiceDates(d);
    }
    FitsWholeSiteMeaning(w, sites, site);
  }

  /** Days 4 and 8 are the only Monday and Friday between them. */
  lemma ServiceDates(d: Day)
    requires 4 <= d <= 8 && WeekdayOf(d) in [Lundi, Vendredi]
    ensures (d == 4 && WeekdayOf(d) == Lundi) || (d == 8 && WeekdayOf(d) == Vendredi)
  {
    FirstWeekDates();
  }

  lemma ServiceDatesPass(w: Worker, site: Site, other: Site)
    requires w == VitresWorker(3, CDI, None, [Record(8, 5, 9, [Mardi, Mercredi, Jeudi, Samedi])])
    requires site == WindowSite(7, 4, 8, 14.0, [Lundi, Vendredi])
    requires other == WindowSite(8, 5, 9, 28.0, [Mardi, Mercredi, Jeudi, Samedi])
    ensures PassesOn(w, [site, other], 7.0, Lundi, 4) && PassesOn(w, [site, other], 7.0, Vendredi, 8)
  {
    ServiceDatePasses(w, site, other, Lundi, 4);
    ServiceDatePasses(w, site, other, Vendredi, 8);
  }

  lemma ServiceDatePasses(w: Worker, site: Site, other: Site, j: Weekday, d: Day)
    requires w == VitresWorker(3, CDI, None, [Record(8, 5, 9, [Mardi, Mercredi, Jeudi, Samedi])])
    requires site == WindowSite(7, 4, 8, 14.0, [Lundi, Vendredi])
    requires other == WindowSite(8, 5, 9, 28.0, [Mardi, Mercredi, Jeudi, Samedi])
    requires (j == Lundi && d == 4) || (j == Vendredi && d == 8)
    ensures PassesOn(w, [site, other], 7.0, j, d)
  {
    var sites := [site, other];
    WeekHoursBefore(w, site, other);
    FirstWeekKey(d);
    assert Lookup(sites, 8) == Some(other);
    assert RecordDayHours(w.assignments[0], sites, j) == 0.0;
    assert w.assignments[1..] == [];
    assert DayHours(w.assignments, sites, j) == 0.0;
    assert !RecordBusy(w.assignments[0], d, j);
  }

  // ---------------------------------------------------------------------------------------------
  // Exclusivity: what booking keeps

  /**
   * Booking keeps a date free of double bookings when, whenever the booking covers that date on its
   * own weekday, the worker was not yet busy there.
   */
  lemma BookKeepsExclusive(affs: seq<Assignment>, site: Site, added: seq<Weekday>, d: Day)
    requires !DoubleBooked(affs, d, WeekdayOf(d))
    requires site.start <= d <= site.end && WeekdayOf(d) in added ==> !Busy(affs, d, WeekdayOf(d))
    ensures !DoubleBooked(Book(affs, site, added), d, WeekdayOf(d))
  {
    var j := WeekdayOf(d);
    var r := Book(affs, site, added);
    BookChangesOneRecord(affs, site, added);
    var k :| && 0 <= k < |r| && SameWindow(r[k], site)
             && (forall m :: 0 <= m < |r| && m != k ==> m < |affs| && r[m] == affs[m])
             && (forall i :: i in r[k].days <==> (k < |affs| && i in affs[k].days) || i in added);
    forall a, b | 0 <= a < b < |r|
      ensures !(RecordBusy(r[a], d, j) && RecordBusy(r[b], d, j))
    {
      if a != k && b != k {
        assert r[a] == affs[a] && r[b] == affs[b];
      } else if a == k {
        assert r[b] == affs[b];
        if RecordBusy(affs[b], d, j) {
          assert Busy(affs, d, j);
          assert !RecordBusy(r[k], d, j);
        }
      } else {
        assert r[a] == affs[a];
        if RecordBusy(affs[a], d, j) {
          assert Busy(affs, d, j);
          assert !RecordBusy(r[k], d, j);
        }
      }
    }
  }

  /**
   * Strategy A as written keeps exclusivity and the contract end: its candidate passes at every
   * service date, so it was free there and its CDD runs at least that long.
   */
  lemma WholeSiteKeepsExclusive(w: Worker, sites: seq<Site>, site: Site, d: Day)
    requires FitsWholeSite(w, sites, site) && !DoubleBooked(w.assignments, d, WeekdayOf(d))
    ensures !DoubleBooked(Book(w.assignments, site, site.days), d, WeekdayOf(d))
    ensures site.start <= d <= site.end && WeekdayOf(d) in site.days ==> !Expired(w, d)
  {
    FitsWholeSiteMeaning(w, sites, site);
    if site.start <= d <= site.end && WeekdayOf(d) in site.days {
      assert PassesOn(w, sites, HoursPerServiceDay(site), WeekdayOf(d), d);
    }
    BookKeepsExclusive(w.assignments, site, site.days, d);
  }

  // ---------------------------------------------------------------------------------------------
  // Strategy B with every date tested

  /** The slot test that keeps the rules: the skill, coordinates, and a pass at EVERY date of the weekday. */
  predicate AbleEveryWeek(w: Worker, sites: seq<Site>, site: Site, skill: string, j: Weekday) {
    skill in w.skills && w.coords.Some? && FitsOnWeekday(w, sites, site, j)
  }

  /**
   * A worker that passes the slot test at every date of the weekday is booked there once and
   * within the contract: no date becomes double-booked and no booked date lies past a CDD's end.
   */
  lemma SlotTestEveryWeekKeepsRules(w: Worker, sites: seq<Site>, site: Site, skill: string, j: Weekday, d: Day)
    requires AbleEveryWeek(w, sites, site, skill, j) && !DoubleBooked(w.assignments, d, WeekdayOf(d))
    ensures !DoubleBooked(Book(w.assignments, site, [j]), d, WeekdayOf(d))
    ensures site.start <= d <= site.end && WeekdayOf(d) == j ==> Busy(Book(w.assignments, site, [j]), d, j) && !Expired(w, d)
  {
    FitsOnWeekdayMeaning(w, sites, site, j);
    if site.start <= d <= site.end && WeekdayOf(d) == j {
      assert PassesOn(w, sites, HoursPerServiceDay(site), j, d);
      BookedDaysBusy(w.assignments, site, [j], j, d);
    }
    BookKeepsExclusive(w.assignments, site, [j], d);
  }

  /** The every-date test refuses the CDD whose contract ends within the window. */
  lemma SlotTestEveryWeekRefusesCdd(w: Worker, site: Site)
    requires w == VitresWorker(1, CDD, Some(3), []) && site == WindowSite(7, 0, 30, 7.0, [Jeudi])
    ensures !AbleEveryWeek(w, [site], site, "vitres", Jeudi)
  {
    assert WeekdayOf(28) == Jeudi && Expired(w, 28) && !DoubleBooked(w.assignments, 28, Jeudi);
    if AbleEveryWeek(w, [site], site, "vitres", Jeudi) {
      SlotTestEveryWeekKeepsRules(w, [site], site, "vitres", Jeudi, 28);
    }
  }

  /** The every-date test refuses the worker already booked on a Monday of the window. */
  lemma SlotTestEveryWeekRefusesBusy(w: Worker, site: Site, other: Site)
    requires w == VitresWorker(2, CDI, None, [Record(8, 10, 12, [Lundi])])
    requires site == WindowSite(7, 0, 30, 3.5, [Lundi]) && other == WindowSite(8, 10, 12, 3.5, [Lundi])
    ensures !AbleEveryWeek(w, [site, other], site, "vitres", Lundi)
  {
    MondayDoubleBooked(w, site);
    if AbleEveryWeek(w, [site, other], site, "vitres", Lundi) {
      SlotTestEveryWeekKeepsRules(w, [site, other], site, "vitres", Lundi, 11);
    }
  }

  // ---------------------------------------------------------------------------------------------
  // Strategy A with the site's own hours in the weekly test

  /**
   * The whole-site test that keeps the weekly cap: the per-date tests, and at every service date the
   * week's existing hours plus ALL the hours the site adds to that week within 35.
   */
  predicate FitsWholeSiteWithOwnHours(w: Worker, sites: seq<Site>, site: Site) {
    && FitsWholeSite(w, sites, site)
    && forall d :: site.start <= d <= site.end && WeekdayOf(d) in site.days ==>
         WeekHours(w.assignments, sites, WeekNumber(d), YearOf(d))
           + WindowWeekHours(site.days, HoursPerServiceDay(site), site.start, site.end, WeekNumber(d), YearOf(d)) <= 35.0
  }

  /** A window that holds no date of the week's key carries no hours in it. */
  lemma {:induction false} WindowWeekHoursCounted(days: seq<Weekday>, hpd: real, d: Day, end: Day, week: int, year: int)
    ensures WindowWeekHours(days, hpd, d, end, week, year) == 0.0
      || exists e :: d <= e <= end && CountsToward(days, e, week, year)
    decreases end + 1 - d
  {
    if d <= end {
      WindowWeekHoursCounted(days, hpd, d + 1, end, week, year);
    }
  }

  /** The corrected whole-site test keeps every week within 35 hours. */
  lemma WholeSiteWeeklyCapKept(w: Worker, sites: seq<Site>, site: Site, week: int, year: int)
    requires Lookup(sites, site.id) == Some(site) && site.weeklyHours >= 0.0
    requires FitsWholeSiteWithOwnHours(w, sites, site)
    requires WeekHours(w.assignments, sites, week, year) <= 35.0
    ensures WeekHours(Book(w.assignments, site, site.days), sites, week, year) <= 35.0
  {
    BookWeekHoursAtMost(w.assignments, sites, site, site.days, week, year);
    WindowWeekHoursCounted(site.days, HoursPerServiceDay(site), site.start, site.end, week, year);
  }

  /** The corrected test refuses the worker of the 42-hour week. */
  lemma WholeSiteWithOwnHoursRefuses(w: Worker, site: Site, other: Site)
    requires w == VitresWorker(3, CDI, None, [Record(8, 5, 9, [Mardi, Mercredi, Jeudi, Samedi])])
    requires site == WindowSite(7, 4, 8, 14.0, [Lundi, Vendredi])
    requires other == WindowSite(8, 5, 9, 28.0, [Mardi, Mercredi, Jeudi, Samedi])
    ensures !FitsWholeSiteWithOwnHours(w, [site, other], site)
  {
    FirstWeekHours(w, site, other);
    BookedRecordWeekHours();
    FirstWeekDates();
    assert HoursPerServiceDay(site) == 7.0;
    assert WeekdayOf(4) in site.days;
  }
}
