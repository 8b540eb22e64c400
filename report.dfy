/**
 * The arithmetic of the PDF reports, src/services/pdf.service.js: the fixed-width `pad`, the
 * summary counts, the per-week maximum of a worker's hours on a site, the planning period and its
 * filter, the sort by start date and the state label. Page layout, fonts and date formatting are
 * not modelled; the current date is a parameter.
 */
module Report {
  import opened Calendar
  import opened Records

  // ---------------------------------------------------------------------------------------------
  // pad

  function Spaces(n: nat): (r: string)
    ensures |r| == n && forall k :: 0 <= k < n ==> r[k] == ' '
  {
    seq(n, _ => ' ')
  }

  /** `pad(str, len)`: `(str + ' '.repeat(len)).slice(0, len)`. */
  function Pad(s: string, len: nat): string {
    (s + Spaces(len))[..len]
  }

  /**
   * A padded cell is exactly `len` characters: the text cut to `len` when it is longer, else the
   * text followed by spaces; padding a padded cell again changes nothing.
   */
  lemma PadShape(s: string, len: nat)
    ensures |Pad(s, len)| == len
    ensures |s| >= len ==> Pad(s, len) == s[..len]
    ensures |s| < len ==> Pad(s, len) == s + Spaces(len - |s|)
    ensures Pad(Pad(s, len), len) == Pad(s, len)
  {
    var r := Pad(s, len);
    if |s| >= len {
      assert r == s[..len];
    } else {
      assert r == s + Spaces(len - |s|);
    }
    assert (r + Spaces(len))[..len] == r;
  }

  // ---------------------------------------------------------------------------------------------
  // Summary counts

  /** `chantiers.filter(c => c.equipe_affectee?.length > 0)`. */
  function Assigned(sites: seq<Site>): (r: seq<Site>)
    ensures |r| <= |sites|
    ensures forall x :: x in r <==> x in sites && x.team != []
  {
    if sites == [] then []
    else (if sites[0].team != [] then [sites[0]] else []) + Assigned(sites[1..])
  }

  /** The sites without a team, counted independently of the report's subtraction. */
  function Unassigned(sites: seq<Site>): (r: seq<Site>)
    ensures forall x :: x in r <==> x in sites && x.team == []
  {
    if sites == [] then []
    else (if sites[0].team == [] then [sites[0]] else []) + Unassigned(sites[1..])
  }

  /** `total - chantiersAffectes` is the number of sites without a team. */
  lemma {:induction false} UnassignedByDifference(sites: seq<Site>)
    ensures |sites| - |Assigned(sites)| == |Unassigned(sites)|
  {
    if sites != [] {
      UnassignedByDifference(sites[1..]);
    }
  }

  /** `reduce((acc, c) => acc + c.equipe_affectee.length, 0)`. */
  function Persons(sites: seq<Site>): nat {
    if sites == [] then 0 else |sites[0].team| + Persons(sites[1..])
  }

  /**
   * Summing team sizes over the sites with a team counts every team entry of every site, and at
   * least one per such site.
   */
  lemma {:induction false} PersonsOfAssigned(sites: seq<Site>)
    ensures Persons(Assigned(sites)) == Persons(sites)
    ensures Persons(Assigned(sites)) >= |Assigned(sites)|
  {
    if sites != [] {
      PersonsOfAssigned(sites[1..]);
      var head := if sites[0].team != [] then [sites[0]] else [];
      PersonsAppend(head, Assigned(sites[1..]));
    }
  }

  lemma {:induction false} PersonsAppend(a: seq<Site>, b: seq<Site>)
    ensures Persons(a + b) == Persons(a) + Persons(b)
  {
    if a == [] {
      assert a + b == b;
    } else {
      assert (a + b)[0] == a[0];
      assert (a + b)[1..] == a[1..] + b;
      PersonsAppend(a[1..], b);
    }
  }

  /** `salaries.filter(s => equipe_affectee.includes(s._id))`: the team's workers, in collection order. */
  function TeamDetails(workers: seq<Worker>, team: seq<WorkerId>): (r: seq<Worker>)
    ensures |r| <= |workers|
    ensures forall w :: w in r <==> w in workers && w.id in team
  {
    if workers == [] then []
    else (if workers[0].id in team then [workers[0]] else []) + TeamDetails(workers[1..], team)
  }

  // ---------------------------------------------------------------------------------------------
  // Maximum hours per ISO week of one worker on one site

  /**
   * The date loop over one record from `d` on: each date whose weekday the record lists adds the
   * site's hours per service day under the date's report key.
   */
  function FileDates(m: map<(int, nat), real>, a: Assignment, d: Day, hpd: real): map<(int, nat), real>
    decreases a.end + 1 - d
  {
    if d > a.end then m
    else FileDates(if WeekdayOf(d) in a.days then Add(m, ReportWeekKey(d), hpd) else m, a, d + 1, hpd)
  }

  /** The record loop: only the records of this site file their dates. */
  function WeekLoads(m: map<(int, nat), real>, affs: seq<Assignment>, site: Site): map<(int, nat), real>
    decreases |affs|
  {
    if affs == [] then m
    else WeekLoads(if affs[0].site == site.id then FileDates(m, affs[0], affs[0].start, HoursPerServiceDay(site)) else m,
                   affs[1..], site)
  }

  /** The report keys of the dates of a record's window from `d` on that fall on a listed weekday, in date order. */
  function ListedKeys(a: Assignment, d: Day): seq<(int, nat)>
    decreases a.end + 1 - d
  {
    if d > a.end then []
    else (if WeekdayOf(d) in a.days then [ReportWeekKey(d)] else []) + ListedKeys(a, d + 1)
  }

  /** The same keys over every record of the site, record after record. */
  function SiteKeys(affs: seq<Assignment>, site: Site): seq<(int, nat)> {
    if affs == [] then []
    else (if affs[0].site == site.id then ListedKeys(affs[0], affs[0].start) else []) + SiteKeys(affs[1..], site)
  }

  /** One `semaines[key] = (semaines[key] || 0) + hParJour` per key, in order. */
  function FileKeys(m: map<(int, nat), real>, keys: seq<(int, nat)>, hpd: real): map<(int, nat), real>
    decreases |keys|
  {
    if keys == [] then m else FileKeys(Add(m, keys[0], hpd), keys[1..], hpd)
  }

  /** The hours the keys file under `key`, one service day per occurrence. */
  function Filed(keys: seq<(int, nat)>, key: (int, nat), hpd: real): real {
    if keys == [] then 0.0 else (if keys[0] == key then hpd else 0.0) + Filed(keys[1..], key, hpd)
  }

  lemma FiledIsCountTimesHours(keys: seq<(int, nat)>, key: (int, nat), hpd: real)
    ensures Filed(keys, key, hpd) == multiset(keys)[key] as real * hpd
  {
    FiledIsDatesHours(keys, key, hpd);
    DatesHoursIsProduct(hpd, multiset(keys)[key]);
  }

  /** Filing the keys adds one service day for each occurrence of `key`. */
  lemma {:induction false} FiledIsDatesHours(keys: seq<(int, nat)>, key: (int, nat), hpd: real)
    ensures Filed(keys, key, hpd) == DatesHours(hpd, multiset(keys)[key])
    decreases |keys|
  {
    if keys != [] {
      FiledIsDatesHours(keys[1..], key, hpd);
      CountOfHead(keys, key);
    }
  }

  lemma CountOfHead(keys: seq<(int, nat)>, key: (int, nat))
    requires keys != []
    ensures multiset(keys)[key] == multiset(keys[1..])[key] + if keys[0] == key then 1 else 0
  {
    assert keys == [keys[0]] + keys[1..];
  }

  lemma {:induction false} FileKeysCounts(m: map<(int, nat), real>, keys: seq<(int, nat)>, hpd: real, key: (int, nat))
    ensures Get(FileKeys(m, keys, hpd), key) == Get(m, key) + Filed(keys, key, hpd)
    ensures key in FileKeys(m, keys, hpd) <==> key in m || key in keys
    decreases |keys|
  {
    if keys != [] {
      FileKeysCounts(Add(m, keys[0], hpd), keys[1..], hpd, key);
      assert key in keys <==> key == keys[0] || key in keys[1..];
    }
  }

  lemma {:induction false} FileKeysAppend(m: map<(int, nat), real>, a: seq<(int, nat)>, b: seq<(int, nat)>, hpd: real)
    ensures FileKeys(m, a + b, hpd) == FileKeys(FileKeys(m, a, hpd), b, hpd)
    decreases |a|
  {
    if a == [] {
      assert a + b == b;
    } else {
      assert (a + b)[0] == a[0] && (a + b)[1..] == a[1..] + b;
      FileKeysAppend(Add(m, a[0], hpd), a[1..], b, hpd);
    }
  }

  /** The date loop files exactly the record's listed keys. */
  lemma {:induction false} FileDatesFilesListedKeys(m: map<(int, nat), real>, a: Assignment, d: Day, hpd: real)
    ensures FileDates(m, a, d, hpd) == FileKeys(m, ListedKeys(a, d), hpd)
    decreases a.end + 1 - d
  {
    if d <= a.end {
      var head := if WeekdayOf(d) in a.days then [ReportWeekKey(d)] else [];
      FileDatesFilesListedKeys(FileKeys(m, head, hpd), a, d + 1, hpd);
      FileKeysAppend(m, head, ListedKeys(a, d + 1), hpd);
      if head != [] {
        assert FileKeys(m, head, hpd) == FileKeys(Add(m, head[0], hpd), [], hpd);
      }
    }
  }

  /** The record loop files exactly the site's listed keys. */
  lemma {:induction false} WeekLoadsFilesSiteKeys(m: map<(int, nat), real>, affs: seq<Assignment>, site: Site)
    ensures WeekLoads(m, affs, site) == FileKeys(m, SiteKeys(affs, site), HoursPerServiceDay(site))
    decreases |affs|
  {
    if affs != [] {
      var hpd := HoursPerServiceDay(site);
      var head := if affs[0].site == site.id then ListedKeys(affs[0], affs[0].start) else [];
      FileDatesFilesListedKeys(m, affs[0], affs[0].start, hpd);
      WeekLoadsFilesSiteKeys(FileKeys(m, head, hpd), affs[1..], site);
      FileKeysAppend(m, head, SiteKeys(affs[1..], site), hpd);
    }
  }

  /**
   * The week map the report builds for one worker and one site: under each key, one service day's
   * hours for every listed-weekday date of the worker's records of that site filed under that key
   * (`FiledIsCountTimesHours` turns this into a product); a key is present exactly when some such
   * date exists.
   */
  lemma WeekLoadsMeaning(affs: seq<Assignment>, site: Site, key: (int, nat))
    ensures Get(WeekLoads(map[], affs, site), key) == Filed(SiteKeys(affs, site), key, HoursPerServiceDay(site))
    ensures key in WeekLoads(map[], affs, site) <==> key in SiteKeys(affs, site)
  {
    var keys, hpd := SiteKeys(affs, site), HoursPerServiceDay(site);
    var empty: map<(int, nat), real> := map[];
    WeekLoadsFilesSiteKeys(empty, affs, site);
    FileKeysCounts(empty, keys, hpd, key);
  }

  /** `values.length > 0 ? Math.max(...values) : 0`. */
  predicate IsMaxOf<K>(r: real, m: map<K, real>) {
    && (m == map[] ==> r == 0.0)
    && (m != map[] ==> (exists k :: k in m && m[k] == r) && forall k :: k in m ==> m[k] <= r)
  }

  /** `Math.max(...Object.values(semaines))`, or 0 for an empty dictionary. */
  method MaxOfValues<K>(m: map<K, real>) returns (r: real)
    ensures IsMaxOf(r, m)
  {
    if m == map[] {
      return 0.0;
    }
    var k0 :| k0 in m;
    r := m[k0];
    var rest := m.Keys - {k0};
    while rest != {}
      invariant rest <= m.Keys
      invariant k0 in m && (exists k :: k in m && m[k] == r)
      invariant forall k :: k in m && k !in rest ==> m[k] <= r
      decreases rest
    {
      var k :| k in rest;
      if m[k] > r {
        r := m[k];
      }
      rest := rest - {k};
    }
  }

  /**
   * The "Max h/semaine" cell of one worker on one site: the record loop and its date loop fill
   * `semaines`, and the cell is its largest value.
   */
  method MaxHeuresSemaine(salarie: Worker, chantier: Site) returns (maxHeuresSemaine: real)
    ensures IsMaxOf(maxHeuresSemaine, WeekLoads(map[], salarie.assignments, chantier))
  {
    var semaines: map<(int, nat), real> := map[];
    for k := 0 to |salarie.assignments|
      invariant WeekLoads(semaines, salarie.assignments[k..], chantier) == WeekLoads(map[], salarie.assignments, chantier)
    {
      assert salarie.assignments[k..][1..] == salarie.assignments[k + 1..];
      var aff := salarie.assignments[k];
      if aff.site == chantier.id {
        var hParJour := HoursPerServiceDay(chantier);
        var currentDate := aff.start;
        ghost var before := semaines;
        while currentDate <= aff.end
          invariant FileDates(semaines, aff, currentDate, hParJour) == FileDates(before, aff, aff.start, hParJour)
          decreases aff.end + 1 - currentDate
        {
          if WeekdayOf(currentDate) in aff.days {
            semaines := Add(semaines, ReportWeekKey(currentDate), hParJour);
          }
          currentDate := currentDate + 1;
        }
      }
    }
    maxHeuresSemaine := MaxOfValues(semaines);
  }

  /**
   * The cell is at least the hours filed under any week, and it is the hours of some week holding
   * a listed-weekday date of the site's records, or 0 when there is none.
   */
  lemma MaxCellMeaning(r: real, w: Worker, site: Site)
    requires IsMaxOf(r, WeekLoads(map[], w.assignments, site))
    ensures forall key :: key in SiteKeys(w.assignments, site) ==>
      Filed(SiteKeys(w.assignments, site), key, HoursPerServiceDay(site)) <= r
    ensures SiteKeys(w.assignments, site) == [] ==> r == 0.0
    ensures SiteKeys(w.assignments, site) != [] ==>
      exists key :: key in SiteKeys(w.assignments, site) && r == Filed(SiteKeys(w.assignments, site), key, HoursPerServiceDay(site))
  {
    var keys, hpd := SiteKeys(w.assignments, site), HoursPerServiceDay(site);
    var loads := WeekLoads(map[], w.assignments, site);
    forall key | key in keys
      ensures Filed(keys, key, hpd) <= r
    {
      WeekLoadsMeaning(w.assignments, site, key);
    }
    if keys == [] {
      if loads != map[] {
        var k :| k in loads;
        WeekLoadsMeaning(w.assignments, site, k);
      }
    } else {
      WeekLoadsMeaning(w.assignments, site, keys[0]);
      var k :| k in loads && loads[k] == r;
      WeekLoadsMeaning(w.assignments, site, k);
    }
  }

  // ---------------------------------------------------------------------------------------------
  // The planning period

  /**
   * `'mois'`: from `new Date(y, m, 1)` to `new Date(y, m + 1, 0)`; any other period: the quarter
   * `floor(m / 3)` of the current date.
   */
  function PeriodBounds(period: string, now: Day): (r: (Day, Day)) {
    var y := YearOf(now);
    var m := MonthOf(now);
    if period == "mois" then
      DaysBeforeMonthGrows(y, 0, m + 1);
      (DateFromParts(y, m, 1), DateFromParts(y, m + 1, 0))
    else
      var q := m / 3;
      DaysBeforeMonthGrows(y, 0, (q + 1) * 3);
      (DateFromParts(y, q * 3, 1), DateFromParts(y, (q + 1) * 3, 0))
  }

  /** Each month adds at least 28 days to the days before it. */
  lemma {:induction false} DaysBeforeMonthGrows(y: int, a: nat, b: nat)
    requires a <= b <= 12
    ensures DaysBeforeMonth(y, a) + 28 * (b - a) <= DaysBeforeMonth(y, b)
    decreases b - a
  {
    if a < b {
      DaysBeforeMonthGrows(y, a + 1, b);
      assert MonthLength(y, a) >= 28;
    }
  }

  /**
   * The month period runs from the first to the last day of the current month and holds the
   * current date; the quarter period runs from the first day of the quarter's first month to the
   * last day of its third month and holds the current date too.
   */
  lemma PeriodBoundsMeaning(period: string, now: Day)
    ensures var (start, end) := PeriodBounds(period, now);
      var y := YearOf(now);
      var m := MonthOf(now);
      && start <= now <= end
      && (period == "mois" ==>
            && start == now - (DayOfMonth(now) - 1)
            && end - start + 1 == MonthLength(y, m))
      && (period != "mois" ==>
            && start == YearStart(y) + DaysBeforeMonth(y, m / 3 * 3)
            && end - start + 1 == DaysBeforeMonth(y, m / 3 * 3 + 3) - DaysBeforeMonth(y, m / 3 * 3))
  {
    if period == "mois" {
      MonthPeriodMeaning(now);
    } else {
      QuarterPeriodMeaning(period, now);
    }
  }

  /** The month period: the first to the last day of the current month. */
  lemma MonthPeriodMeaning(now: Day)
    ensures var (start, end) := PeriodBounds("mois", now);
      && start == now - (DayOfMonth(now) - 1) <= now <= end
      && end - start + 1 == MonthLength(YearOf(now), MonthOf(now))
  {
    YearStartPlusDayOfYear(now);
  }

  /** Any other period: the first day of the quarter's first month to the last day of its third month. */
  lemma QuarterPeriodMeaning(period: string, now: Day)
    requires period != "mois"
    ensures var (start, end) := PeriodBounds(period, now);
      var y := YearOf(now);
      var q3 := MonthOf(now) / 3 * 3;
      && start <= now <= end
      && start == YearStart(y) + DaysBeforeMonth(y, q3)
      && end - start + 1 == DaysBeforeMonth(y, q3 + 3) - DaysBeforeMonth(y, q3)
  {
    YearStartPlusDayOfYear(now);
    var m := MonthOf(now);
    var y := YearOf(now);
    var q3 := m / 3 * 3;
    assert q3 <= m <= q3 + 2 && (m / 3 + 1) * 3 == q3 + 3;
    DaysBeforeMonthGrows(y, q3, m);
    DaysBeforeMonthGrows(y, m + 1, q3 + 3);
    var (start, end) := PeriodBounds(period, now);
    assert start == YearStart(y) + DaysBeforeMonth(y, q3);
    assert end == YearStart(y) + DaysBeforeMonth(y, q3 + 3) - 1;
  }

  /** `chantierDebut <= endDate && chantierFin >= startDate`. */
  predicate InPeriod(s: Site, start: Day, end: Day) {
    s.start <= end && s.end >= start
  }

  /** Date `d` lies both in the site's window and in the period. */
  predicate SharesDate(s: Site, start: Day, end: Day, d: Day) {
    start <= d <= end && s.start <= d <= s.end
  }

  /** A site with a well-formed window is in the period exactly when the two share a date. */
  lemma InPeriodIffSharesADate(s: Site, start: Day, end: Day)
    requires s.start <= s.end && start <= end
    ensures InPeriod(s, start, end) <==> exists d: Day :: SharesDate(s, start, end, d)
  {
    if InPeriod(s, start, end) {
      var d := if s.start <= start then start else s.start;
      assert SharesDate(s, start, end, d);
    }
  }

  function SitesInPeriod(sites: seq<Site>, start: Day, end: Day): (r: seq<Site>)
    ensures |r| <= |sites|
    ensures forall x :: x in r <==> x in sites && InPeriod(x, start, end)
  {
    if sites == [] then []
    else (if InPeriod(sites[0], start, end) then [sites[0]] else []) + SitesInPeriod(sites[1..], start, end)
  }

  // ---------------------------------------------------------------------------------------------
  // The sort by start date

  predicate SortedByStart(s: seq<Site>) {
    forall a, b :: 0 <= a < b < |s| ==> s[a].start <= s[b].start
  }

  /** Places `x` before the first site that does not start earlier. */
  function InsertByStart(x: Site, s: seq<Site>): (r: seq<Site>)
    ensures |r| == |s| + 1
    decreases |s|
  {
    if s == [] || x.start <= s[0].start then [x] + s
    else [s[0]] + InsertByStart(x, s[1..])
  }

  /** `sort((a, b) => date_debut(a) - date_debut(b))`, as an insertion sort. */
  function SortByStart(s: seq<Site>): (r: seq<Site>)
    ensures |r| == |s|
  {
    if s == [] then [] else InsertByStart(s[0], SortByStart(s[1..]))
  }

  lemma {:induction false} InsertPermutes(x: Site, s: seq<Site>)
    ensures multiset(InsertByStart(x, s)) == multiset(s) + multiset{x}
    decreases |s|
  {
    if s != [] && x.start > s[0].start {
      InsertPermutes(x, s[1..]);
      assert s == [s[0]] + s[1..];
    }
  }

  lemma {:induction false} InsertKeepsSorted(x: Site, s: seq<Site>)
    requires SortedByStart(s)
    ensures SortedByStart(InsertByStart(x, s))
    ensures forall b :: 0 <= b < |InsertByStart(x, s)| ==>
      InsertByStart(x, s)[b].start >= (if s != [] && s[0].start < x.start then s[0].start else x.start)
    decreases |s|
  {
    if s != [] && x.start > s[0].start {
      InsertKeepsSorted(x, s[1..]);
      var t := InsertByStart(x, s[1..]);
      assert InsertByStart(x, s) == [s[0]] + t;
    }
  }

  /** The listed sites come out in ascending start order, each as often as it came in. */
  lemma {:induction false} SortByStartSorted(s: seq<Site>)
    ensures SortedByStart(SortByStart(s))
    ensures multiset(SortByStart(s)) == multiset(s)
  {
    if s != [] {
      SortByStartSorted(s[1..]);
      InsertKeepsSorted(s[0], SortByStart(s[1..]));
      InsertPermutes(s[0], SortByStart(s[1..]));
      assert s == [s[0]] + s[1..];
    }
  }

  // ---------------------------------------------------------------------------------------------
  // The state label and the sites in progress

  const AVenirLabel: string := "À venir"
  const TermineLabel: string := "Terminé"
  const EnCoursLabel: string := "En cours"

  function StateLabel(s: Site, now: Day): string {
    if s.start > now then AVenirLabel
    else if s.end < now then TermineLabel
    else EnCoursLabel
  }

  /** The "Chantiers en cours" statistic: `debut <= now && fin >= now`. */
  function InProgress(sites: seq<Site>, now: Day): (r: seq<Site>)
    ensures |r| <= |sites|
    ensures forall x :: x in r <==> x in sites && x.start <= now <= x.end
  {
    if sites == [] then []
    else (if sites[0].start <= now <= sites[0].end then [sites[0]] else []) + InProgress(sites[1..], now)
  }

  /**
   * The label says `À venir` before the start, `Terminé` after the end and `En cours` in between,
   * so the sites the statistic counts as in progress are exactly those labelled `En cours`.
   */
  lemma StateLabelMeaning(sites: seq<Site>, s: Site, now: Day)
    ensures StateLabel(s, now) == AVenirLabel <==> now < s.start
    ensures StateLabel(s, now) == TermineLabel <==> s.start <= now && s.end < now
    ensures StateLabel(s, now) == EnCoursLabel <==> s.start <= now <= s.end
    ensures s in InProgress(sites, now) <==> s in sites && StateLabel(s, now) == EnCoursLabel
  {
    assert AVenirLabel != TermineLabel && AVenirLabel != EnCoursLabel && TermineLabel != EnCoursLabel by {
      assert AVenirLabel[0] != TermineLabel[0] && AVenirLabel[0] != EnCoursLabel[0] && TermineLabel[0] != EnCoursLabel[0];
    }
  }
}
