/**
 * The single-site allocator `affecterEquipePourChantier` and `resetAffectationPourChantier` of
 * src/services/affectation.service.js. After its two guards and the zero-demand shortcut, the
 * allocator tries one worker holding every skill of the site (Strategy A, which simulates the
 * site's own hours in a per-date and a per-week map), then a strict pass that staffs every
 * concrete service date of every weekday and skill, and fails the whole call when one is left
 * uncovered.
 *
 * The source reads an identifier `joursSemaine` that the file never declares (lines 71, 169 and
 * 297). `Allocate` and the methods below model the evident intent, the weekday list the other
 * files declare; `AllocateAsWritten` models the call as written. README's Findings table
 * describes both.
 */
module AffectationService {
  import opened Wrappers
  import opened Calendar
  import opened Records
  import opened Store
  import opened AffectationUtils
  import opened AllocationRules
  import opened AffectationAlgos

  const NotFoundMessage: string := "Chantier non trouvé"
  const AlreadyPlannedMessage: string := "Le chantier est déjà planifié ou en cours."
  const UncoveredMessage: string := "Tous les jours n'ont pas pu être couverts"
  /** What the JavaScript engine reports on reading the undeclared identifier. */
  const UndeclaredMessage: string := "joursSemaine is not defined"

  // ---------------------------------------------------------------------------------------------
  // Finding the site and its demand

  /** `Chantier.findById(id)`: the position of the first site with that id. */
  function FindSite(sites: seq<Site>, id: SiteId): (r: Option<nat>)
    ensures r.Some? ==> r.value < |sites| && sites[r.value].id == id
    ensures r.Some? ==> forall k :: 0 <= k < r.value ==> sites[k].id != id
    ensures r.None? ==> forall k :: 0 <= k < |sites| ==> sites[k].id != id
  {
    if sites == [] then None
    else if sites[0].id == id then Some(0)
    else match FindSite(sites[1..], id)
      case None => None
      case Some(k) => Some(k + 1)
  }

  /** `Array.from(besoins.values()).reduce((a, b) => a + b, 0)`. */
  function TotalDemand(needs: seq<Need>): int {
    if needs == [] then 0 else needs[0].count + TotalDemand(needs[1..])
  }

  /** With no negative headcount, the total demand is zero exactly when every headcount is zero. */
  lemma {:induction false} ZeroDemandIffNoHeadcount(needs: seq<Need>)
    requires forall k :: 0 <= k < |needs| ==> needs[k].count >= 0
    ensures TotalDemand(needs) >= 0
    ensures TotalDemand(needs) == 0 <==> forall k :: 0 <= k < |needs| ==> needs[k].count == 0
  {
    if needs != [] {
      ZeroDemandIffNoHeadcount(needs[1..]);
      assert forall k :: 1 <= k < |needs| ==> needs[k] == needs[1..][k - 1];
    }
  }

  // ---------------------------------------------------------------------------------------------
  // Strategy A: the simulation

  /** The state of one candidate's simulation: still possible, the two maps and the site hours so far. */
  datatype Sim = Sim(ok: bool, dayLoad: map<(Day, Weekday), real>, weekLoad: map<(int, nat), real>, total: real)

  /**
   * The tests at one concrete date, in the source's order: not busy, not an expired CDD, the day and
   * week totals plus what the simulation already holds plus one service day within 7 and 35 hours,
   * and no clash with the site's window on that weekday.
   */
  predicate SimPasses(w: Worker, sites: seq<Site>, site: Site, j: Weekday, d: Day, s: Sim) {
    var hpd := HoursPerServiceDay(site);
    && !Busy(w.assignments, d, j)
    && !Expired(w, d)
    && DayHours(w.assignments, sites, j) + Get(s.dayLoad, (d, j)) + hpd <= 7.0
    && WeekHours(w.assignments, sites, WeekNumber(d), YearOf(d)) + Get(s.weekLoad, CallerWeekKey(d)) + hpd <= 35.0
    && AvailableFor(w, site, [j])
  }

  /** The simulated booking of one service day at date `d`. */
  function Simulated(s: Sim, d: Day, j: Weekday, hpd: real): Sim {
    Sim(s.ok, Add(s.dayLoad, (d, j), hpd), Add(s.weekLoad, CallerWeekKey(d), hpd), s.total + hpd)
  }

  /** The date loop of one weekday from `d` on: the first failing date ends the simulation. */
  function SimDates(w: Worker, sites: seq<Site>, site: Site, j: Weekday, d: Day, s: Sim): Sim
    decreases site.end + 1 - d
  {
    if d > site.end then s
    else if !SimPasses(w, sites, site, j, d, s) then s.(ok := false)
    else SimDates(w, sites, site, j, d + 7, Simulated(s, d, j, HoursPerServiceDay(site)))
  }

  /** The weekday loop: each listed weekday in turn, stopping once the simulation failed. */
  function SimDays(w: Worker, sites: seq<Site>, site: Site, days: seq<Weekday>, s: Sim): Sim
    decreases |days|
  {
    if days == [] || !s.ok then s
    else SimDays(w, sites, site, days[1..], SimDates(w, sites, site, days[0], FirstOnOrAfter(site.start, days[0]), s))
  }

  const NoSim: Sim := Sim(true, map[], map[], 0.0)

  /** `peutToutFaire && totalHeures <= 35`. */
  predicate StrictFits(w: Worker, sites: seq<Site>, site: Site) {
    var s := SimDays(w, sites, site, site.days, NoSim);
    s.ok && s.total <= 35.0
  }

  /** The candidate loop of Strategy A from position `c` on. */
  function FirstStrictFrom(workers: seq<Worker>, sites: seq<Site>, site: Site, cands: seq<nat>, c: nat): (r: Option<nat>)
    requires forall m :: 0 <= m < |cands| ==> cands[m] < |workers|
    ensures r.Some? ==> c <= r.value < |cands|
    decreases |cands| - c
  {
    if c >= |cands| then None
    else if StrictFits(workers[cands[c]], sites, site) then Some(c)
    else FirstStrictFrom(workers, sites, site, cands, c + 1)
  }

  /** `Salarie.find({ competences: { $all: skills } })`: no contract filter and no coordinates filter here. */
  function AllSkillsCandidates(workers: seq<Worker>, site: Site): (r: seq<nat>)
    ensures forall m :: 0 <= m < |r| ==> r[m] < |workers|
  {
    Find(workers, AllSkills(SkillsOf(site.needs), None))
  }

  /** The simulation keeps every simulated load non-negative. */
  predicate LoadsNonNegative(s: Sim) {
    && (forall k :: k in s.dayLoad ==> s.dayLoad[k] >= 0.0)
    && (forall k :: k in s.weekLoad ==> s.weekLoad[k] >= 0.0)
    && s.total >= 0.0
  }

  lemma SimulatedKeepsLoads(s: Sim, d: Day, j: Weekday, hpd: real)
    requires LoadsNonNegative(s) && hpd >= 0.0
    ensures LoadsNonNegative(Simulated(s, d, j, hpd))
    ensures Simulated(s, d, j, hpd).ok == s.ok && Simulated(s, d, j, hpd).total == s.total + hpd
  {
  }

  /** What the simulation tests at a date implies the live pass's tests there, since simulated loads are non-negative. */
  lemma SimPassesLive(w: Worker, sites: seq<Site>, site: Site, j: Weekday, d: Day, s: Sim)
    requires LoadsNonNegative(s) && SimPasses(w, sites, site, j, d, s)
    ensures PassesOn(w, sites, HoursPerServiceDay(site), j, d) && AvailableFor(w, site, [j])
  {
    assert Get(s.dayLoad, (d, j)) >= 0.0;
    assert Get(s.weekLoad, CallerWeekKey(d)) >= 0.0;
  }

  /**
   * A weekday's simulation that stays possible has passed the live tests at every date it walked,
   * found the worker available for that weekday whenever a date was walked, and added one service
   * day per date to the total.
   */
  lemma {:induction false} SimDatesSound(w: Worker, sites: seq<Site>, site: Site, j: Weekday, d: Day, s: Sim)
    requires WeekdayOf(d) == j && LoadsNonNegative(s) && HoursPerServiceDay(site) >= 0.0
    ensures var r := SimDates(w, sites, site, j, d, s);
      && LoadsNonNegative(r)
      && (r.ok ==> s.ok && EveryWeekPasses(w, sites, HoursPerServiceDay(site), j, d, site.end))
      && (r.ok && d <= site.end ==> AvailableFor(w, site, [j]))
      && (r.ok ==> r.total == s.total + DatesHours(HoursPerServiceDay(site), |DatesFrom(d, site.end)|))
    decreases site.end + 1 - d
  {
    var hpd := HoursPerServiceDay(site);
    if d <= site.end && SimPasses(w, sites, site, j, d, s) {
      var s' := Simulated(s, d, j, hpd);
      SimulatedKeepsLoads(s, d, j, hpd);
      SimPassesLive(w, sites, site, j, d, s);
      assert WeekdayOf(d + 7) == j by {
        SameWeekdayIffWeeksApart(d, d + 7);
      }
      SimDatesSound(w, sites, site, j, d + 7, s');
      assert DatesFrom(d, site.end) == [d] + DatesFrom(d + 7, site.end);
    }
  }

  /** The hours of all service dates of the listed weekdays inside the window. */
  function ServiceHours(site: Site, days: seq<Weekday>): real
    decreases |days|
  {
    if days == [] then 0.0
    else DatesHours(HoursPerServiceDay(site), |WeekdayDates(site.start, site.end, days[0])|) + ServiceHours(site, days[1..])
  }

  lemma {:induction false} SimDaysSound(w: Worker, sites: seq<Site>, site: Site, days: seq<Weekday>, s: Sim)
    requires LoadsNonNegative(s) && HoursPerServiceDay(site) >= 0.0
    ensures var r := SimDays(w, sites, site, days, s);
      && LoadsNonNegative(r)
      && (r.ok ==> s.ok && FitsEveryDay(w, sites, site, days))
      && (r.ok ==> forall j :: j in days && FirstOnOrAfter(site.start, j) <= site.end ==> AvailableFor(w, site, [j]))
      && (r.ok ==> r.total == s.total + ServiceHours(site, days))
    decreases |days|
  {
    if days != [] && s.ok {
      var first := FirstOnOrAfter(site.start, days[0]);
      SimDatesSound(w, sites, site, days[0], first, s);
      SimDaysSound(w, sites, site, days[1..], SimDates(w, sites, site, days[0], first, s));
      assert forall j :: j in days <==> j == days[0] || j in days[1..];
    }
  }

  /**
   * A worker Strategy A accepts passes the live tests (not busy, day and week caps, contract) at
   * every service date of the window, is available for every service weekday that has a date in
   * the window, and the site's own hours over the WHOLE window are at most 35.
   */
  lemma StrictFitsSound(w: Worker, sites: seq<Site>, site: Site)
    requires site.weeklyHours >= 0.0
    requires StrictFits(w, sites, site)
    ensures FitsWholeSite(w, sites, site)
    ensures forall j :: j in site.days && FirstOnOrAfter(site.start, j) <= site.end ==> AvailableFor(w, site, [j])
    ensures ServiceHours(site, site.days) <= 35.0
  {
    assert HoursPerServiceDay(site) >= 0.0;
    SimDaysSound(w, sites, site, site.days, NoSim);
  }

  /** The chosen candidate is accepted and every candidate before it is not; none is accepted when none is chosen. */
  lemma {:induction false} FirstStrictIsFirst(workers: seq<Worker>, sites: seq<Site>, site: Site, cands: seq<nat>, c: nat)
    requires forall m :: 0 <= m < |cands| ==> cands[m] < |workers|
    ensures var r := FirstStrictFrom(workers, sites, site, cands, c);
      && (r.Some? ==> StrictFits(workers[cands[r.value]], sites, site))
      && (r.Some? ==> forall m :: c <= m < r.value ==> !StrictFits(workers[cands[m]], sites, site))
      && (r.None? ==> forall m :: c <= m < |cands| ==> !StrictFits(workers[cands[m]], sites, site))
    decreases |cands| - c
  {
    if c < |cands| && !StrictFits(workers[cands[c]], sites, site) {
      FirstStrictIsFirst(workers, sites, site, cands, c + 1);
    }
  }

  // ---------------------------------------------------------------------------------------------
  // The per-date pass

  /** `Salarie.find({ competences: skill })`, keeping only workers with coordinates when the site has some. */
  function DateCandidates(workers: seq<Worker>, site: Site, skill: string): (r: seq<nat>)
    ensures forall m :: 0 <= m < |r| ==> r[m] < |workers|
  {
    var all := Find(workers, OneSkill(skill));
    if site.coords.Some? then WithCoords(workers, all) else all
  }

  /** The candidates are the holders of the skill (with coordinates when the site has some), each once, in collection order. */
  lemma DateCandidatesSpec(workers: seq<Worker>, site: Site, skill: string)
    ensures forall i :: i in DateCandidates(workers, site, skill) <==>
      0 <= i < |workers| && skill in workers[i].skills && (site.coords.Some? ==> workers[i].coords.Some?)
    ensures Increasing(DateCandidates(workers, site, skill))
  {
    FindFromSpec(workers, OneSkill(skill), 0);
    WithCoordsSpec(workers, Find(workers, OneSkill(skill)));
  }

  /**
   * The candidate loop at date `d` from position `c` on, `got` posts filled so far: each passing
   * candidate is booked on weekday `j` and joins the team, and the loop stops once `got >= n`
   * after a booking. Returns the progress and the posts filled.
   */
  function CoverFrom(p: Progress, sites: seq<Site>, site: Site, j: Weekday, n: int, d: Day, cands: seq<nat>, c: nat, got: nat)
    : (r: (Progress, nat))
    requires forall m :: 0 <= m < |cands| ==> cands[m] < |p.workers|
    ensures |r.0.workers| == |p.workers|
    decreases |cands| - c
  {
    if c >= |cands| then (p, got)
    else
      var i := cands[c];
      if PassesOn(p.workers[i], sites, HoursPerServiceDay(site), j, d) then
        var q := Progress(BookAt(p.workers, i, site, [j]), p.team + [p.workers[i].id], p.uncovered);
        if got + 1 >= n then (q, got + 1) else CoverFrom(q, sites, site, j, n, d, cands, c + 1, got + 1)
      else CoverFrom(p, sites, site, j, n, d, cands, c + 1, got)
  }

  /** One date: the candidate loop, then the date is reported when fewer than `n` posts were filled. */
  function CoverDate(p: Progress, sites: seq<Site>, site: Site, skill: string, j: Weekday, n: int, d: Day, cands: seq<nat>)
    : (r: Progress)
    requires forall m :: 0 <= m < |cands| ==> cands[m] < |p.workers|
    ensures |r.workers| == |p.workers|
  {
    var (q, got) := CoverFrom(p, sites, site, j, n, d, cands, 0, 0);
    if got < n then q.(uncovered := q.uncovered + [DateGap(j, d, skill)]) else q
  }

  /** The date loop of one weekday from `d` on, with the candidate list queried for that weekday. */
  function CoverDates(p: Progress, sites: seq<Site>, site: Site, skill: string, j: Weekday, n: int, d: Day, cands: seq<nat>)
    : (r: Progress)
    requires forall m :: 0 <= m < |cands| ==> cands[m] < |p.workers|
    ensures |r.workers| == |p.workers|
    decreases site.end + 1 - d
  {
    if d > site.end then p
    else CoverDates(CoverDate(p, sites, site, skill, j, n, d, cands), sites, site, skill, j, n, d + 7, cands)
  }

  /** The `jour` loop for one skill: candidates are queried afresh for every weekday. */
  function CoverDays(p: Progress, sites: seq<Site>, site: Site, skill: string, n: int, days: seq<Weekday>): (r: Progress)
    ensures |r.workers| == |p.workers|
    decreases |days|
  {
    if days == [] then p
    else
      var cands := DateCandidates(p.workers, site, skill);
      CoverDays(CoverDates(p, sites, site, skill, days[0], n, FirstOnOrAfter(site.start, days[0]), cands),
                sites, site, skill, n, days[1..])
  }

  /** The `competence` loop over `besoins_equipe`. */
  function CoverNeeds(p: Progress, sites: seq<Site>, site: Site, needs: seq<Need>): (r: Progress)
    ensures |r.workers| == |p.workers|
    decreases |needs|
  {
    if needs == [] then p
    else CoverNeeds(CoverDays(p, sites, site, needs[0].skill, needs[0].count, site.days), sites, site, needs[1..])
  }

  // ---------------------------------------------------------------------------------------------
  // What the per-date pass books at one date

  /** The posts one date can fill: `nombreRequis`, or one when fewer than one is required (the stop test follows a booking). */
  function PostsCap(n: int): nat {
    if n >= 1 then n else 1
  }

  /**
   * At one date the candidate loop fills at most `PostsCap(nombreRequis)` posts, adds exactly one
   * team entry per post after the entries already there, and never touches the uncovered list.
   */
  lemma {:induction false} CoverFromCounts(p: Progress, sites: seq<Site>, site: Site, j: Weekday, n: int, d: Day,
                                           cands: seq<nat>, c: nat, got: nat)
    requires forall m :: 0 <= m < |cands| ==> cands[m] < |p.workers|
    requires got < PostsCap(n)
    ensures var r := CoverFrom(p, sites, site, j, n, d, cands, c, got);
      && got <= r.1 <= PostsCap(n)
      && |r.0.team| == |p.team| + (r.1 - got)
      && r.0.team[..|p.team|] == p.team
      && r.0.uncovered == p.uncovered
    decreases |cands| - c
  {
    if c < |cands| {
      var i := cands[c];
      if PassesOn(p.workers[i], sites, HoursPerServiceDay(site), j, d) {
        var q := Progress(BookAt(p.workers, i, site, [j]), p.team + [p.workers[i].id], p.uncovered);
        if got + 1 < n {
          CoverFromCounts(q, sites, site, j, n, d, cands, c + 1, got + 1);
          var r := CoverFrom(q, sites, site, j, n, d, cands, c + 1, got + 1);
          assert r.0.team[..|p.team|] == r.0.team[..|q.team|][..|p.team|];
        } else {
          assert q.team[..|p.team|] == p.team;
        }
      } else {
        CoverFromCounts(p, sites, site, j, n, d, cands, c + 1, got);
      }
    }
  }

  /** The calendar a booking of weekday `j` gives a worker. */
  function BookedOn(w: Worker, site: Site, j: Weekday): Worker {
    w.(assignments := Book(w.assignments, site, [j]))
  }

  /**
   * At one date, a worker whose calendar changed is a candidate not yet visited that passed every
   * test there (not busy on that weekday, daily and weekly caps, contract end) and gained exactly
   * that weekday for the site. The candidate list is the query's result, each worker once in
   * collection order.
   */
  lemma {:induction false} CoverFromBooksOnlyPassingWorkers(p: Progress, sites: seq<Site>, site: Site, j: Weekday, n: int, d: Day,
                                                            cands: seq<nat>, c: nat, got: nat)
    requires forall m :: 0 <= m < |cands| ==> cands[m] < |p.workers|
    requires Increasing(cands)
    ensures var r := CoverFrom(p, sites, site, j, n, d, cands, c, got);
      forall i :: 0 <= i < |p.workers| ==>
        r.0.workers[i] == p.workers[i]
        || (&& (exists m :: c <= m < |cands| && cands[m] == i)
            && PassesOn(p.workers[i], sites, HoursPerServiceDay(site), j, d)
            && r.0.workers[i] == BookedOn(p.workers[i], site, j))
    decreases |cands| - c
  {
    if c < |cands| {
      var i0 := cands[c];
      if PassesOn(p.workers[i0], sites, HoursPerServiceDay(site), j, d) {
        var q := Progress(BookAt(p.workers, i0, site, [j]), p.team + [p.workers[i0].id], p.uncovered);
        if got + 1 < n {
          CoverFromBooksOnlyPassingWorkers(q, sites, site, j, n, d, cands, c + 1, got + 1);
        }
      } else {
        CoverFromBooksOnlyPassingWorkers(p, sites, site, j, n, d, cands, c + 1, got);
      }
    }
  }

  /** The loop from `c + 1` on leaves the candidate at position `c` as it found it. */
  lemma CoverFromSkipsVisited(p: Progress, sites: seq<Site>, site: Site, j: Weekday, n: int, d: Day,
                              cands: seq<nat>, c: nat, got: nat)
    requires forall m :: 0 <= m < |cands| ==> cands[m] < |p.workers|
    requires Increasing(cands) && c < |cands|
    ensures CoverFrom(p, sites, site, j, n, d, cands, c + 1, got).0.workers[cands[c]] == p.workers[cands[c]]
  {
    CoverFromBooksOnlyPassingWorkers(p, sites, site, j, n, d, cands, c + 1, got);
  }

  /**
   * The team entry `id` is that of a candidate from position `c` on who passed every test at `d`
   * (read in `before`) and whose calendar in `after` is the one booking weekday `j` gives it.
   */
  predicate BookedCandidate(before: seq<Worker>, after: seq<Worker>, sites: seq<Site>, site: Site, j: Weekday, d: Day,
                            cands: seq<nat>, c: nat, id: WorkerId) {
    exists m :: c <= m < |cands| && cands[m] < |before| && cands[m] < |after| && id == before[cands[m]].id
      && PassesOn(before[cands[m]], sites, HoursPerServiceDay(site), j, d)
      && after[cands[m]] == BookedOn(before[cands[m]], site, j)
  }

  /** A candidate found after the booked one was read from a calendar the booking left alone. */
  lemma BookedCandidateBefore(p: seq<Worker>, after: seq<Worker>, sites: seq<Site>, site: Site, j: Weekday, d: Day,
                              cands: seq<nat>, c: nat, id: WorkerId)
    requires c < |cands| && cands[c] < |p| && Increasing(cands)
    requires BookedCandidate(BookAt(p, cands[c], site, [j]), after, sites, site, j, d, cands, c + 1, id)
    ensures BookedCandidate(p, after, sites, site, j, d, cands, c, id)
  {
    var q := BookAt(p, cands[c], site, [j]);
    var m :| c + 1 <= m < |cands| && cands[m] < |q| && cands[m] < |after| && id == q[cands[m]].id
      && PassesOn(q[cands[m]], sites, HoursPerServiceDay(site), j, d)
      && after[cands[m]] == BookedOn(q[cands[m]], site, j);
    assert cands[c] < cands[m];
    assert q[cands[m]] == p[cands[m]];
  }

  /**
   * From `before` to `after` the team only grew at its end, and every new entry is a candidate
   * from position `c` on that passed every test at `d` and was booked on weekday `j`.
   */
  predicate TeamGrewWithBooked(before: Progress, after: Progress, sites: seq<Site>, site: Site, j: Weekday, d: Day,
                               cands: seq<nat>, c: nat) {
    && |after.team| >= |before.team| && after.team[..|before.team|] == before.team
    && forall t :: |before.team| <= t < |after.team| ==>
         BookedCandidate(before.workers, after.workers, sites, site, j, d, cands, c, after.team[t])
  }

  /** At one date, every new team entry is a candidate that passed every test there and was booked on that weekday. */
  lemma {:induction false} CoverFromTeamIsBooked(p: Progress, sites: seq<Site>, site: Site, j: Weekday, n: int, d: Day,
                                                 cands: seq<nat>, c: nat, got: nat)
    requires forall m :: 0 <= m < |cands| ==> cands[m] < |p.workers|
    requires Increasing(cands)
    ensures TeamGrewWithBooked(p, CoverFrom(p, sites, site, j, n, d, cands, c, got).0, sites, site, j, d, cands, c)
    decreases |cands| - c
  {
    if c < |cands| {
      var i0 := cands[c];
      if PassesOn(p.workers[i0], sites, HoursPerServiceDay(site), j, d) {
        var q := Progress(BookAt(p.workers, i0, site, [j]), p.team + [p.workers[i0].id], p.uncovered);
        if got + 1 < n {
          CoverFromTeamIsBooked(q, sites, site, j, n, d, cands, c + 1, got + 1);
          CoverFromSkipsVisited(q, sites, site, j, n, d, cands, c, got + 1);
          BookedThenTeamGrew(p, sites, site, j, d, cands, c, CoverFrom(q, sites, site, j, n, d, cands, c + 1, got + 1).0);
        } else {
          assert q.workers[i0] == BookedOn(p.workers[i0], site, j);
          assert q.team[..|p.team|] == p.team;
          assert BookedCandidate(p.workers, q.workers, sites, site, j, d, cands, c, q.team[|p.team|]);
        }
      } else {
        CoverFromTeamIsBooked(p, sites, site, j, n, d, cands, c + 1, got);
        SkippedThenTeamGrew(p, sites, site, j, d, cands, c, CoverFrom(p, sites, site, j, n, d, cands, c + 1, got).0);
      }
    }
  }

  /** The candidate at `c` passed and was booked, and the rest of the loop kept its booking. */
  lemma BookedThenTeamGrew(p: Progress, sites: seq<Site>, site: Site, j: Weekday, d: Day, cands: seq<nat>, c: nat, r: Progress)
    requires forall m :: 0 <= m < |cands| ==> cands[m] < |p.workers|
    requires Increasing(cands) && c < |cands| && |r.workers| == |p.workers|
    requires PassesOn(p.workers[cands[c]], sites, HoursPerServiceDay(site), j, d)
    requires var q := Progress(BookAt(p.workers, cands[c], site, [j]), p.team + [p.workers[cands[c]].id], p.uncovered);
      && TeamGrewWithBooked(q, r, sites, site, j, d, cands, c + 1)
      && r.workers[cands[c]] == q.workers[cands[c]]
    ensures TeamGrewWithBooked(p, r, sites, site, j, d, cands, c)
  {
    var i0 := cands[c];
    var q := Progress(BookAt(p.workers, i0, site, [j]), p.team + [p.workers[i0].id], p.uncovered);
    assert q.workers[i0] == BookedOn(p.workers[i0], site, j);
    assert r.team[..|p.team|] == r.team[..|q.team|][..|p.team|];
    assert r.team[|p.team|] == r.team[..|q.team|][|p.team|];
    assert BookedCandidate(p.workers, r.workers, sites, site, j, d, cands, c, p.workers[i0].id);
    forall t | |q.team| <= t < |r.team|
      ensures BookedCandidate(p.workers, r.workers, sites, site, j, d, cands, c, r.team[t])
    {
      BookedCandidateBefore(p.workers, r.workers, sites, site, j, d, cands, c, r.team[t]);
    }
  }

  /** The candidate at `c` did not pass, so every entry the rest of the loop adds is one from `c` on. */
  lemma SkippedThenTeamGrew(p: Progress, sites: seq<Site>, site: Site, j: Weekday, d: Day, cands: seq<nat>, c: nat, r: Progress)
    requires TeamGrewWithBooked(p, r, sites, site, j, d, cands, c + 1)
    ensures TeamGrewWithBooked(p, r, sites, site, j, d, cands, c)
  {
    forall t | |p.team| <= t < |r.team|
      ensures BookedCandidate(p.workers, r.workers, sites, site, j, d, cands, c, r.team[t])
    {
      assert BookedCandidate(p.workers, r.workers, sites, site, j, d, cands, c + 1, r.team[t]);
      var m :| c + 1 <= m < |cands| && cands[m] < |p.workers| && cands[m] < |r.workers| && r.team[t] == p.workers[cands[m]].id
        && PassesOn(p.workers[cands[m]], sites, HoursPerServiceDay(site), j, d)
        && r.workers[cands[m]] == BookedOn(p.workers[cands[m]], site, j);
    }
  }

  // ---------------------------------------------------------------------------------------------
  // The specification of `affecterEquipePourChantier`

  /** With distinct ids (Mongo `_id`s), looking a site's id up finds that very site. */
  lemma FindSiteFinds(sites: seq<Site>, k: nat)
    requires DistinctSiteIds(sites) && k < |sites|
    ensures FindSite(sites, sites[k].id) == Some(k)
  {
  }

  /** The store after a call, and what the call returned or threw. */
  datatype Run = Run(workers: seq<Worker>, sites: seq<Site>, result: Result<Site, string>)

  /** The call, with the weekday names the source evidently meant for `joursSemaine`. */
  function Allocate(workers: seq<Worker>, sites: seq<Site>, id: SiteId): Run {
    match FindSite(sites, id)
    case None => Run(workers, sites, Err(NotFoundMessage))
    case Some(k) =>
      var site := sites[k];
      if site.status != Nouveau then Run(workers, sites, Err(AlreadyPlannedMessage))
      else if TotalDemand(site.needs) == 0 then
        var saved := site.(team := [], status := Planifie);
        Run(workers, sites[k := saved], Ok(saved))
      else
        var cands := AllSkillsCandidates(workers, site);
        match FirstStrictFrom(workers, sites, site, cands, 0)
        case Some(m) =>
          var saved := site.(team := [workers[cands[m]].id], status := Planifie, note := None);
          Run(BookAt(workers, cands[m], site, site.days), sites[k := saved], Ok(saved))
        case None =>
          var p := CoverNeeds(Progress(workers, [], []), sites, site, site.needs);
          if p.uncovered != [] then
            var saved := site.(status := Nouveau, note := Some(UncoveredNote(p.uncovered)));
            Run(p.workers, sites[k := saved], Err(UncoveredMessage))
          else
            var saved := site.(team := p.team, status := Planifie, note := None);
            Run(p.workers, sites[k := saved], Ok(saved))
  }

  /** An unknown id and a site that is not `Nouveau` are refused before anything is written. */
  lemma AllocateGuards(workers: seq<Worker>, sites: seq<Site>, id: SiteId)
    ensures (forall k :: 0 <= k < |sites| ==> sites[k].id != id) ==>
      Allocate(workers, sites, id) == Run(workers, sites, Err(NotFoundMessage))
    ensures forall k :: (0 <= k < |sites| && sites[k].id == id && (forall k' :: 0 <= k' < k ==> sites[k'].id != id)
                         && sites[k].status != Nouveau) ==>
      Allocate(workers, sites, id) == Run(workers, sites, Err(AlreadyPlannedMessage))
  {
    forall k | 0 <= k < |sites| && sites[k].id == id && (forall k' :: 0 <= k' < k ==> sites[k'].id != id)
               && sites[k].status != Nouveau
      ensures Allocate(workers, sites, id) == Run(workers, sites, Err(AlreadyPlannedMessage))
    {
      FindSiteFindsFirst(sites, id, k);
    }
  }

  /** The lookup stops at the first site carrying the id. */
  lemma FindSiteFindsFirst(sites: seq<Site>, id: SiteId, k: nat)
    requires k < |sites| && sites[k].id == id && forall k' :: 0 <= k' < k ==> sites[k'].id != id
    ensures FindSite(sites, id) == Some(k)
  {
    var r := FindSite(sites, id);
    assert r.Some? && r.value >= k;
  }

  /** A site whose needs add up to zero is saved `Planifié` with an empty team, and no worker is touched. */
  lemma AllocateZeroDemand(workers: seq<Worker>, sites: seq<Site>, k: nat)
    requires DistinctSiteIds(sites) && k < |sites|
    requires sites[k].status == Nouveau && TotalDemand(sites[k].needs) == 0
    ensures var r := Allocate(workers, sites, sites[k].id);
      && r.workers == workers
      && r.result == Ok(sites[k].(team := [], status := Planifie))
      && r.sites == sites[k := sites[k].(team := [], status := Planifie)]
  {
    FindSiteFinds(sites, k);
  }

  lemma {:induction false} CoverFromGrows(p: Progress, sites: seq<Site>, site: Site, j: Weekday, n: int, d: Day,
                                          cands: seq<nat>, c: nat, got: nat)
    requires forall m :: 0 <= m < |cands| ==> cands[m] < |p.workers|
    ensures Grows(p.workers, CoverFrom(p, sites, site, j, n, d, cands, c, got).0.workers)
    decreases |cands| - c
  {
    if c < |cands| {
      var i := cands[c];
      if PassesOn(p.workers[i], sites, HoursPerServiceDay(site), j, d) {
        var q := Progress(BookAt(p.workers, i, site, [j]), p.team + [p.workers[i].id], p.uncovered);
        BookAtGrows(p.workers, i, site, [j]);
        if got + 1 < n {
          CoverFromGrows(q, sites, site, j, n, d, cands, c + 1, got + 1);
          GrowsTrans(p.workers, q.workers, CoverFrom(q, sites, site, j, n, d, cands, c + 1, got + 1).0.workers);
        }
      } else {
        CoverFromGrows(p, sites, site, j, n, d, cands, c + 1, got);
      }
    }
  }

  lemma CoverDateGrows(p: Progress, sites: seq<Site>, site: Site, skill: string, j: Weekday, n: int, d: Day, cands: seq<nat>)
    requires forall m :: 0 <= m < |cands| ==> cands[m] < |p.workers|
    ensures Grows(p.workers, CoverDate(p, sites, site, skill, j, n, d, cands).workers)
  {
    CoverFromGrows(p, sites, site, j, n, d, cands, 0, 0);
  }

  lemma {:induction false} CoverDatesGrows(p: Progress, sites: seq<Site>, site: Site, skill: string, j: Weekday, n: int, d: Day, cands: seq<nat>)
    requires forall m :: 0 <= m < |cands| ==> cands[m] < |p.workers|
    ensures Grows(p.workers, CoverDates(p, sites, site, skill, j, n, d, cands).workers)
    decreases site.end + 1 - d
  {
    if d <= site.end {
      var q := CoverDate(p, sites, site, skill, j, n, d, cands);
      assert |q.workers| == |p.workers|;
      var r := CoverDates(q, sites, site, skill, j, n, d + 7, cands);
      assert CoverDates(p, sites, site, skill, j, n, d, cands) == r;
      CoverDateGrows(p, sites, site, skill, j, n, d, cands);
      CoverDatesGrows(q, sites, site, skill, j, n, d + 7, cands);
      GrowsTrans(p.workers, q.workers, r.workers);
    }
  }

  lemma {:induction false} CoverDaysGrows(p: Progress, sites: seq<Site>, site: Site, skill: string, n: int, days: seq<Weekday>)
    ensures Grows(p.workers, CoverDays(p, sites, site, skill, n, days).workers)
    decreases |days|
  {
    if days != [] {
      var cands := DateCandidates(p.workers, site, skill);
      var q := CoverDates(p, sites, site, skill, days[0], n, FirstOnOrAfter(site.start, days[0]), cands);
      CoverDatesGrows(p, sites, site, skill, days[0], n, FirstOnOrAfter(site.start, days[0]), cands);
      CoverDaysGrows(q, sites, site, skill, n, days[1..]);
      GrowsTrans(p.workers, q.workers, CoverDays(q, sites, site, skill, n, days[1..]).workers);
    }
  }

  lemma {:induction false} CoverNeedsGrows(p: Progress, sites: seq<Site>, site: Site, needs: seq<Need>)
    ensures Grows(p.workers, CoverNeeds(p, sites, site, needs).workers)
    decreases |needs|
  {
    if needs != [] {
      var q := CoverDays(p, sites, site, needs[0].skill, needs[0].count, site.days);
      CoverDaysGrows(p, sites, site, needs[0].skill, needs[0].count, site.days);
      CoverNeedsGrows(q, sites, site, needs[1..]);
      GrowsTrans(p.workers, q.workers, CoverNeeds(q, sites, site, needs[1..]).workers);
    }
  }

  // ---------------------------------------------------------------------------------------------
  // What the per-date pass promises

  /**
   * At a date of the window the candidate loop either fills all the posts it may, or every
   * candidate it leaves untouched fails a test there.
   */
  lemma {:induction false} CoverFromComplete(p: Progress, sites: seq<Site>, site: Site, j: Weekday, n: int, d: Day,
                                             cands: seq<nat>, c: nat, got: nat)
    requires forall m :: 0 <= m < |cands| ==> cands[m] < |p.workers|
    requires Increasing(cands) && site.start <= d <= site.end && got < PostsCap(n)
    ensures var r := CoverFrom(p, sites, site, j, n, d, cands, c, got);
      || r.1 == PostsCap(n)
      || forall m :: c <= m < |cands| && r.0.workers[cands[m]] == p.workers[cands[m]] ==>
           !PassesOn(p.workers[cands[m]], sites, HoursPerServiceDay(site), j, d)
    decreases |cands| - c
  {
    if c < |cands| {
      var i0 := cands[c];
      if PassesOn(p.workers[i0], sites, HoursPerServiceDay(site), j, d) {
        var q := Progress(BookAt(p.workers, i0, site, [j]), p.team + [p.workers[i0].id], p.uncovered);
        if got + 1 < n {
          CoverFromComplete(q, sites, site, j, n, d, cands, c + 1, got + 1);
          CoverFromSkipsVisited(q, sites, site, j, n, d, cands, c, got + 1);
          BookedDaysBusy(p.workers[i0].assignments, site, [j], j, d);
          assert q.workers[i0] != p.workers[i0];
          forall m | c < m < |cands|
            ensures q.workers[cands[m]] == p.workers[cands[m]]
          {
            assert cands[c] < cands[m];
          }
        }
      } else {
        CoverFromComplete(p, sites, site, j, n, d, cands, c + 1, got);
        CoverFromSkipsVisited(p, sites, site, j, n, d, cands, c, got);
      }
    }
  }

  /** The worker's calendar went from free to busy at some date on some weekday. */
  ghost predicate Gained(before: Worker, after: Worker) {
    exists d, j :: !Busy(before.assignments, d, j) && Busy(after.assignments, d, j)
  }

  /**
   * `team` lists exactly the workers booked from `before` to `after`: each entry is the id of a
   * worker that gained a busy date, and every worker whose document changed gained one and is listed.
   */
  ghost predicate BookedTeam(before: seq<Worker>, after: seq<Worker>, team: seq<WorkerId>) {
    && |after| == |before|
    && (forall t :: 0 <= t < |team| ==>
          exists i :: 0 <= i < |before| && before[i].id == team[t] && Gained(before[i], after[i]))
    && (forall i :: 0 <= i < |before| && after[i] != before[i] ==> Gained(before[i], after[i]) && before[i].id in team)
  }

  /** The calendars only grew, the team only grew at its end, and its new entries are the workers booked. */
  ghost predicate TeamIsBooked(before: Progress, after: Progress) {
    && Grows(before.workers, after.workers)
    && |before.team| <= |after.team| && after.team[..|before.team|] == before.team
    && BookedTeam(before.workers, after.workers, after.team[|before.team|..])
  }

  /**
   * The entry reports a date of the window at which no worker left untouched from `before` to
   * `after` that holds the skill (and coordinates, when the site has some) passes the tests.
   */
  ghost predicate Blocked(before: seq<Worker>, after: seq<Worker>, sites: seq<Site>, site: Site, g: Gap) {
    && g.DateGap? && site.start <= g.date <= site.end
    && forall i ::
         (&& 0 <= i < |before| && i < |after| && after[i] == before[i]
          && g.skill in before[i].skills && (site.coords.Some? ==> before[i].coords.Some?))
         ==> !PassesOn(before[i], sites, HoursPerServiceDay(site), g.day, g.date)
  }

  /** The uncovered list only grew at its end, and each new entry is a blocked date. */
  ghost predicate ReportsOnlyBlocked(before: Progress, after: Progress, sites: seq<Site>, site: Site) {
    && |before.uncovered| <= |after.uncovered| && after.uncovered[..|before.uncovered|] == before.uncovered
    && forall u :: |before.uncovered| <= u < |after.uncovered| ==>
         Blocked(before.workers, after.workers, sites, site, after.uncovered[u])
  }

  lemma GainedKept(a: Worker, b: Worker, c: Worker)
    requires Gained(a, b) && KeepsBusy(b.assignments, c.assignments)
    ensures Gained(a, c)
  {
    var d, j :| !Busy(a.assignments, d, j) && Busy(b.assignments, d, j);
    assert Busy(c.assignments, d, j);
  }

  lemma GainedAfterGrowth(a: Worker, b: Worker, c: Worker)
    requires KeepsBusy(a.assignments, b.assignments) && Gained(b, c)
    ensures Gained(a, c)
  {
    var d, j :| !Busy(b.assignments, d, j) && Busy(c.assignments, d, j);
    assert !Busy(a.assignments, d, j);
  }

  /** Booking a worker that is free at a date of the window adds exactly that worker. */
  lemma BookOneIsBooked(p: Progress, i: nat, site: Site, j: Weekday, d: Day)
    requires i < |p.workers| && site.start <= d <= site.end && !Busy(p.workers[i].assignments, d, j)
    ensures TeamIsBooked(p, Progress(BookAt(p.workers, i, site, [j]), p.team + [p.workers[i].id], p.uncovered))
  {
    var q := Progress(BookAt(p.workers, i, site, [j]), p.team + [p.workers[i].id], p.uncovered);
    BookAtGrows(p.workers, i, site, [j]);
    BookedDaysBusy(p.workers[i].assignments, site, [j], j, d);
    assert Gained(p.workers[i], q.workers[i]);
    assert q.team[..|p.team|] == p.team;
    assert q.team[|p.team|..] == [p.workers[i].id];
  }

  lemma TeamIsBookedRefl(p: Progress, q: Progress)
    requires q.workers == p.workers && q.team == p.team
    ensures TeamIsBooked(p, q)
  {
    assert q.team[|p.team|..] == [];
  }

  lemma TeamIsBookedTrans(a: Progress, b: Progress, c: Progress)
    requires TeamIsBooked(a, b) && TeamIsBooked(b, c)
    ensures TeamIsBooked(a, c)
  {
    GrowsTrans(a.workers, b.workers, c.workers);
    PrefixesChain(a.team, b.team, c.team);
    BookedTeamTrans(a, b, c, b.team[|a.team|..], c.team[|b.team|..]);
  }

  lemma PrefixesChain<T>(a: seq<T>, b: seq<T>, c: seq<T>)
    requires |a| <= |b| <= |c| && b[..|a|] == a && c[..|b|] == b
    ensures c[..|a|] == a && c[|a|..] == b[|a|..] + c[|b|..]
  {
    assert c[..|a|] == c[..|b|][..|a|];
    assert c == a + b[|a|..] + c[|b|..];
  }

  lemma BookedTeamTrans(a: Progress, b: Progress, c: Progress, ab: seq<WorkerId>, bc: seq<WorkerId>)
    requires Grows(a.workers, b.workers) && Grows(b.workers, c.workers)
    requires BookedTeam(a.workers, b.workers, ab) && BookedTeam(b.workers, c.workers, bc)
    ensures BookedTeam(a.workers, c.workers, ab + bc)
  {
    forall t | 0 <= t < |ab + bc|
      ensures exists i :: 0 <= i < |a.workers| && a.workers[i].id == (ab + bc)[t] && Gained(a.workers[i], c.workers[i])
    {
      EntryBooked(a, b, c, ab, bc, t);
    }
    assert forall t :: 0 <= t < |ab + bc| ==>
      exists i :: 0 <= i < |a.workers| && a.workers[i].id == (ab + bc)[t] && Gained(a.workers[i], c.workers[i]);
    assert |c.workers| == |a.workers|;
    forall i | 0 <= i < |a.workers| && c.workers[i] != a.workers[i]
      ensures Gained(a.workers[i], c.workers[i]) && a.workers[i].id in ab + bc
    {
      if b.workers[i] != a.workers[i] {
        GainedKept(a.workers[i], b.workers[i], c.workers[i]);
      } else {
        assert Gained(b.workers[i], c.workers[i]) && b.workers[i].id in bc;
      }
    }
  }

  lemma EntryBooked(a: Progress, b: Progress, c: Progress, ab: seq<WorkerId>, bc: seq<WorkerId>, t: nat)
    requires Grows(a.workers, b.workers) && Grows(b.workers, c.workers)
    requires BookedTeam(a.workers, b.workers, ab) && BookedTeam(b.workers, c.workers, bc) && t < |ab + bc|
    ensures exists i :: 0 <= i < |a.workers| && a.workers[i].id == (ab + bc)[t] && Gained(a.workers[i], c.workers[i])
  {
    if t < |ab| {
      var i :| 0 <= i < |a.workers| && a.workers[i].id == ab[t] && Gained(a.workers[i], b.workers[i]);
      GainedKept(a.workers[i], b.workers[i], c.workers[i]);
      assert (ab + bc)[t] == ab[t];
    } else {
      var i :| 0 <= i < |b.workers| && b.workers[i].id == bc[t - |ab|] && Gained(b.workers[i], c.workers[i]);
      GainedAfterGrowth(a.workers[i], b.workers[i], c.workers[i]);
      assert a.workers[i].id == b.workers[i].id;
      assert (ab + bc)[t] == bc[t - |ab|];
    }
  }

  /** A worker changed by the first step stays changed: booking never undoes a booking. */
  lemma ChangedStaysChanged(a: Progress, b: Progress, c: Progress, i: nat)
    requires TeamIsBooked(a, b) && Grows(b.workers, c.workers) && i < |a.workers|
    ensures b.workers[i] != a.workers[i] ==> c.workers[i] != a.workers[i]
  {
    if b.workers[i] != a.workers[i] {
      GainedKept(a.workers[i], b.workers[i], c.workers[i]);
    }
  }

  lemma ReportsOnlyBlockedTrans(a: Progress, b: Progress, c: Progress, sites: seq<Site>, site: Site)
    requires TeamIsBooked(a, b) && TeamIsBooked(b, c)
    requires ReportsOnlyBlocked(a, b, sites, site) && ReportsOnlyBlocked(b, c, sites, site)
    ensures ReportsOnlyBlocked(a, c, sites, site)
  {
    assert c.uncovered[..|a.uncovered|] == c.uncovered[..|b.uncovered|][..|a.uncovered|];
    forall u | |a.uncovered| <= u < |c.uncovered|
      ensures Blocked(a.workers, c.workers, sites, site, c.uncovered[u])
    {
      var g := c.uncovered[u];
      if u < |b.uncovered| {
        assert g == b.uncovered[u];
      }
      forall i | 0 <= i < |a.workers| && c.workers[i] == a.workers[i]
        ensures b.workers[i] == a.workers[i]
      {
        ChangedStaysChanged(a, b, c, i);
      }
    }
  }

  /** At a date of the window, the candidate loop adds to the team exactly the workers it books. */
  lemma {:induction false} CoverFromBooksTeam(p: Progress, sites: seq<Site>, site: Site, j: Weekday, n: int, d: Day,
                                              cands: seq<nat>, c: nat, got: nat)
    requires forall m :: 0 <= m < |cands| ==> cands[m] < |p.workers|
    requires site.start <= d <= site.end
    ensures TeamIsBooked(p, CoverFrom(p, sites, site, j, n, d, cands, c, got).0)
    decreases |cands| - c
  {
    if c >= |cands| {
      TeamIsBookedRefl(p, p);
    } else {
      var i0 := cands[c];
      if PassesOn(p.workers[i0], sites, HoursPerServiceDay(site), j, d) {
        var q := Progress(BookAt(p.workers, i0, site, [j]), p.team + [p.workers[i0].id], p.uncovered);
        BookOneIsBooked(p, i0, site, j, d);
        if got + 1 < n {
          CoverFromBooksTeam(q, sites, site, j, n, d, cands, c + 1, got + 1);
          TeamIsBookedTrans(p, q, CoverFrom(q, sites, site, j, n, d, cands, c + 1, got + 1).0);
        }
      } else {
        CoverFromBooksTeam(p, sites, site, j, n, d, cands, c + 1, got);
      }
    }
  }

  /** Every worker holding the skill (with coordinates when the site has some) is among the candidates. */
  predicate HoldersListed(workers: seq<Worker>, site: Site, skill: string, cands: seq<nat>) {
    forall i :: 0 <= i < |workers| && skill in workers[i].skills && (site.coords.Some? ==> workers[i].coords.Some?) ==> i in cands
  }

  /**
   * One date of the window: the date is reported exactly when fewer than `nombreRequis` posts were
   * filled; then no holder of the skill left untouched passes the tests there; and the team gains
   * exactly the workers booked, at most `PostsCap(nombreRequis)` of them.
   */
  lemma CoverDateMeaning(p: Progress, sites: seq<Site>, site: Site, skill: string, j: Weekday, n: int, d: Day, cands: seq<nat>)
    requires forall m :: 0 <= m < |cands| ==> cands[m] < |p.workers|
    requires Increasing(cands) && HoldersListed(p.workers, site, skill, cands) && site.start <= d <= site.end
    ensures var r := CoverDate(p, sites, site, skill, j, n, d, cands);
      && TeamIsBooked(p, r) && ReportsOnlyBlocked(p, r, sites, site)
      && (r.uncovered == p.uncovered || r.uncovered == p.uncovered + [DateGap(j, d, skill)])
      && (r.uncovered == p.uncovered + [DateGap(j, d, skill)] <==> |r.team| - |p.team| < n)
      && |r.team| - |p.team| <= PostsCap(n)
      && (|r.team| - |p.team| == PostsCap(n) || Blocked(p.workers, r.workers, sites, site, DateGap(j, d, skill)))
  {
    var (q, got) := CoverFrom(p, sites, site, j, n, d, cands, 0, 0);
    CoverFromCounts(p, sites, site, j, n, d, cands, 0, 0);
    CoverFromComplete(p, sites, site, j, n, d, cands, 0, 0);
    CoverFromBooksTeam(p, sites, site, j, n, d, cands, 0, 0);
    var g := DateGap(j, d, skill);
    if got < PostsCap(n) {
      forall i | 0 <= i < |p.workers| && q.workers[i] == p.workers[i]
                 && skill in p.workers[i].skills && (site.coords.Some? ==> p.workers[i].coords.Some?)
        ensures !PassesOn(p.workers[i], sites, HoursPerServiceDay(site), j, d)
      {
        var m :| 0 <= m < |cands| && cands[m] == i;
      }
      assert Blocked(p.workers, q.workers, sites, site, g);
    }
    var r := CoverDate(p, sites, site, skill, j, n, d, cands);
    assert r.workers == q.workers && r.team == q.team;
    TeamIsBookedRefl(q, r);
    TeamIsBookedTrans(p, q, r);
    if got < n {
      assert r.uncovered[..|p.uncovered|] == p.uncovered;
    }
  }

  /** The dates of one weekday from `d` on: the team gains exactly the workers booked, and only blocked dates are reported. */
  lemma {:induction false} CoverDatesMeaning(p: Progress, sites: seq<Site>, site: Site, skill: string, j: Weekday, n: int, d: Day,
                                             cands: seq<nat>)
    requires forall m :: 0 <= m < |cands| ==> cands[m] < |p.workers|
    requires Increasing(cands) && HoldersListed(p.workers, site, skill, cands) && site.start <= d
    ensures var r := CoverDates(p, sites, site, skill, j, n, d, cands);
      TeamIsBooked(p, r) && ReportsOnlyBlocked(p, r, sites, site)
    decreases site.end + 1 - d
  {
    if d > site.end {
      TeamIsBookedRefl(p, p);
    } else {
      var q := CoverDate(p, sites, site, skill, j, n, d, cands);
      CoverDateMeaning(p, sites, site, skill, j, n, d, cands);
      assert HoldersListed(q.workers, site, skill, cands);
      var r := CoverDates(q, sites, site, skill, j, n, d + 7, cands);
      assert CoverDates(p, sites, site, skill, j, n, d, cands) == r;
      CoverDatesMeaning(q, sites, site, skill, j, n, d + 7, cands);
      TeamIsBookedTrans(p, q, r);
      ReportsOnlyBlockedTrans(p, q, r, sites, site);
    }
  }

  lemma {:induction false} CoverDaysMeaning(p: Progress, sites: seq<Site>, site: Site, skill: string, n: int, days: seq<Weekday>)
    ensures var r := CoverDays(p, sites, site, skill, n, days);
      TeamIsBooked(p, r) && ReportsOnlyBlocked(p, r, sites, site)
    decreases |days|
  {
    if days == [] {
      TeamIsBookedRefl(p, p);
    } else {
      var cands := DateCandidates(p.workers, site, skill);
      DateCandidatesSpec(p.workers, site, skill);
      var d := FirstOnOrAfter(site.start, days[0]);
      var q := CoverDates(p, sites, site, skill, days[0], n, d, cands);
      CoverDatesMeaning(p, sites, site, skill, days[0], n, d, cands);
      CoverDaysMeaning(q, sites, site, skill, n, days[1..]);
      TeamIsBookedTrans(p, q, CoverDays(q, sites, site, skill, n, days[1..]));
      ReportsOnlyBlockedTrans(p, q, CoverDays(q, sites, site, skill, n, days[1..]), sites, site);
    }
  }

  /**
   * The whole per-date pass: the team gains exactly the workers it books, each entry of the uncovered
   * list is a date of the window at which no holder of the skill it left untouched passes the tests.
   */
  lemma {:induction false} CoverNeedsMeaning(p: Progress, sites: seq<Site>, site: Site, needs: seq<Need>)
    ensures var r := CoverNeeds(p, sites, site, needs);
      TeamIsBooked(p, r) && ReportsOnlyBlocked(p, r, sites, site)
    decreases |needs|
  {
    if needs == [] {
      TeamIsBookedRefl(p, p);
    } else {
      var q := CoverDays(p, sites, site, needs[0].skill, needs[0].count, site.days);
      CoverDaysMeaning(p, sites, site, needs[0].skill, needs[0].count, site.days);
      CoverNeedsMeaning(q, sites, site, needs[1..]);
      TeamIsBookedTrans(p, q, CoverNeeds(q, sites, site, needs[1..]));
      ReportsOnlyBlockedTrans(p, q, CoverNeeds(q, sites, site, needs[1..]), sites, site);
    }
  }

  /**
   * Past the guards and with some demand: the call only adds bookings and writes only the site.
   * When some candidate holding every skill passes the simulation, the first one is booked on all
   * the site's weekdays and is the whole team of a `Planifié` site. Otherwise the per-date pass
   * runs and books exactly the workers it lists, each listed worker having gained a busy date; every
   * date it reports is one at which no holder of the skill it left untouched passes the tests. The
   * call succeeds, with that list as the team, exactly when no date was reported, and else saves the
   * site `Nouveau` with a note listing the reported dates (its team as it was, the bookings kept)
   * and throws.
   */
  lemma AllocateOutcome(workers: seq<Worker>, sites: seq<Site>, k: nat)
    requires DistinctSiteIds(sites) && k < |sites|
    requires sites[k].status == Nouveau && TotalDemand(sites[k].needs) != 0
    ensures var site := sites[k];
      var r := Allocate(workers, sites, site.id);
      var cands := AllSkillsCandidates(workers, site);
      var p := CoverNeeds(Progress(workers, [], []), sites, site, site.needs);
      && Grows(workers, r.workers)
      && |r.sites| == |sites|
      && (forall m :: 0 <= m < |sites| && m != k ==> r.sites[m] == sites[m])
      && ((exists m :: 0 <= m < |cands| && StrictFits(workers[cands[m]], sites, site)) ==>
            exists m :: && 0 <= m < |cands| && StrictFits(workers[cands[m]], sites, site)
                        && (forall m' :: 0 <= m' < m ==> !StrictFits(workers[cands[m']], sites, site))
                        && r == Run(BookAt(workers, cands[m], site, site.days),
                                    sites[k := site.(team := [workers[cands[m]].id], status := Planifie, note := None)],
                                    Ok(site.(team := [workers[cands[m]].id], status := Planifie, note := None))))
      && ((forall m :: 0 <= m < |cands| ==> !StrictFits(workers[cands[m]], sites, site)) ==>
            && r.workers == p.workers
            && BookedTeam(workers, r.workers, p.team)
            && (forall u :: 0 <= u < |p.uncovered| ==> Blocked(workers, r.workers, sites, site, p.uncovered[u]))
            && (r.result.Ok? <==> p.uncovered == [])
            && (r.result.Ok? ==> r.result.value == site.(team := p.team, status := Planifie, note := None)
                                 && r.sites[k] == r.result.value)
            && (r.result.Err? ==> r.result.error == UncoveredMessage
                                  && r.sites[k] == site.(status := Nouveau, note := Some(UncoveredNote(p.uncovered)))))
  {
    FindSiteFinds(sites, k);
    var site := sites[k];
    var cands := AllSkillsCandidates(workers, site);
    FirstStrictIsFirst(workers, sites, site, cands, 0);
    match FirstStrictFrom(workers, sites, site, cands, 0)
    case Some(m) =>
      BookAtGrows(workers, cands[m], site, site.days);
    case None =>
      var p0 := Progress(workers, [], []);
      CoverNeedsGrows(p0, sites, site, site.needs);
      CoverNeedsMeaning(p0, sites, site, site.needs);
      var p := CoverNeeds(p0, sites, site, site.needs);
      assert p.team[|p0.team|..] == p.team;
      assert p0.uncovered == [];
  }

  // ---------------------------------------------------------------------------------------------
  // The call as written

  /**
   * `logHeuresParSemaine` reaches the undeclared identifier (line 297) as soon as some worker holds
   * a record whose site exists and whose window is not empty.
   */
  predicate LogReachesUndeclared(workers: seq<Worker>, sites: seq<Site>) {
    exists i, k :: 0 <= i < |workers| && 0 <= k < |workers[i].assignments|
      && Lookup(sites, workers[i].assignments[k].site).Some?
      && workers[i].assignments[k].start <= workers[i].assignments[k].end
  }

  /** The end of a successful call as written: the site is saved, then the log may throw. */
  function SaveThenLog(workers: seq<Worker>, sites: seq<Site>, k: nat, saved: Site): Run
    requires k < |sites|
  {
    var after := sites[k := saved];
    Run(workers, after, if LogReachesUndeclared(workers, after) then Err(UndeclaredMessage) else Ok(saved))
  }

  /**
   * The call as written. Past the guards and the zero-demand shortcut, Strategy A reads
   * `joursSemaine` (line 71) at the first service weekday of its first candidate, and the per-date
   * pass reads it (line 169) at the first service weekday of its first skill; only a site with no
   * service weekday gets past both, and then the log reads it (line 297).
   */
  function AllocateAsWritten(workers: seq<Worker>, sites: seq<Site>, id: SiteId): Run {
    match FindSite(sites, id)
    case None => Run(workers, sites, Err(NotFoundMessage))
    case Some(k) =>
      var site := sites[k];
      if site.status != Nouveau then Run(workers, sites, Err(AlreadyPlannedMessage))
      else if TotalDemand(site.needs) == 0 then
        var saved := site.(team := [], status := Planifie);
        Run(workers, sites[k := saved], Ok(saved))
      else
        var cands := AllSkillsCandidates(workers, site);
        if |cands| > 0 then
          if site.days != [] then Run(workers, sites, Err(UndeclaredMessage))
          else
            SaveThenLog(BookAt(workers, cands[0], site, []), sites, k,
                        site.(team := [workers[cands[0]].id], status := Planifie, note := None))
        else if site.days != [] && site.needs != [] then Run(workers, sites, Err(UndeclaredMessage))
        else SaveThenLog(workers, sites, k, site.(team := [], status := Planifie, note := None))
  }

  lemma {:induction false} DemandNeedsSomeNeed(needs: seq<Need>)
    requires TotalDemand(needs) != 0
    ensures needs != []
  {
  }

  /**
   * As written, a `Nouveau` site with some demand and at least one service weekday is never staffed:
   * the call throws the undeclared-identifier error and writes nothing, whatever the workers.
   */
  lemma AsWrittenNeverStaffsAServiceDay(workers: seq<Worker>, sites: seq<Site>, k: nat)
    requires DistinctSiteIds(sites) && k < |sites|
    requires sites[k].status == Nouveau && TotalDemand(sites[k].needs) != 0 && sites[k].days != []
    ensures AllocateAsWritten(workers, sites, sites[k].id) == Run(workers, sites, Err(UndeclaredMessage))
  {
    FindSiteFinds(sites, k);
    DemandNeedsSomeNeed(sites[k].needs);
  }

  /**
   * On the same stores, the intended call staffs such a site as soon as a candidate holding every
   * skill passes the simulation: it succeeds and the site is saved `Planifié`.
   */
  lemma IntendedStaffsAServiceDay(workers: seq<Worker>, sites: seq<Site>, k: nat, m: nat)
    requires DistinctSiteIds(sites) && k < |sites|
    requires sites[k].status == Nouveau && TotalDemand(sites[k].needs) != 0 && sites[k].days != []
    requires m < |AllSkillsCandidates(workers, sites[k])|
    requires StrictFits(workers[AllSkillsCandidates(workers, sites[k])[m]], sites, sites[k])
    ensures Allocate(workers, sites, sites[k].id).result.Ok?
    ensures Allocate(workers, sites, sites[k].id).sites[k].status == Planifie
    ensures AllocateAsWritten(workers, sites, sites[k].id).result == Err(UndeclaredMessage)
  {
    AllocateOutcome(workers, sites, k);
    AsWrittenNeverStaffsAServiceDay(workers, sites, k);
  }

  // ---------------------------------------------------------------------------------------------
  // The imperative call

  /** The tests of the per-date pass at one date, in the source's order; each failure moves on to the next candidate. */
  method PassesDateTests(salarie: Worker, sites: seq<Site>, chantier: Site, hParJour: real, jour: Weekday, current: Day)
    returns (ok: bool)
    ensures ok == PassesOn(salarie, sites, hParJour, jour, current)
  {
    var dejaAffecteCeJour := exists m :: (0 <= m < |salarie.assignments|
                                          && RecordBusy(salarie.assignments[m], current, jour) && salarie.assignments[m].site == chantier.id);
    if dejaAffecteCeJour {
      return false;
    }
    var dejaChantierCeJour := Busy(salarie.assignments, current, jour);
    if dejaChantierCeJour {
      return false;
    }
    if Expired(salarie, current) {
      return false;
    }
    var heuresJour := HeuresAffecteesJour(salarie, sites, jour);
    var heuresSemaine := HeuresAffecteesSemaine(salarie, sites, WeekNumber(current), YearOf(current));
    return !(heuresJour + hParJour > 7.0 || heuresSemaine + hParJour > 35.0);
  }

  /** The tests of the simulation at one date, against the totals the simulation already holds. */
  method SimulatedDateTests(salarie: Worker, sites: seq<Site>, chantier: Site, jour: Weekday, current: Day, s: Sim)
    returns (ok: bool)
    ensures ok == SimPasses(salarie, sites, chantier, jour, current, s)
  {
    var hParJour := HoursPerServiceDay(chantier);
    var heuresJour := HeuresAffecteesJour(salarie, sites, jour);
    var heuresSemaine := HeuresAffecteesSemaine(salarie, sites, WeekNumber(current), YearOf(current));
    if Busy(salarie.assignments, current, jour) || Expired(salarie, current) {
      return false;
    }
    heuresJour := heuresJour + Get(s.dayLoad, (current, jour));
    heuresSemaine := heuresSemaine + Get(s.weekLoad, CallerWeekKey(current));
    if heuresJour + hParJour > 7.0 || heuresSemaine + hParJour > 35.0 {
      return false;
    }
    ok := IsSalarieDisponiblePourJours(salarie, chantier, [jour]);
  }

  /** The date loop of Strategy A's simulation for one weekday, from the simulation state `s` on. */
  method SimulateWeekday(salarie: Worker, sites: seq<Site>, chantier: Site, jour: Weekday, s: Sim) returns (r: Sim)
    requires s.ok
    ensures r == SimDates(salarie, sites, chantier, jour, FirstOnOrAfter(chantier.start, jour), s)
  {
    var hParJour := HoursPerServiceDay(chantier);
    var heuresJourMap: map<(Day, Weekday), real> := s.dayLoad;
    var heuresSemaineMap, totalHeures := s.weekLoad, s.total;
    var current := AdvanceToWeekday(chantier.start, jour);
    ghost var goal := SimDates(salarie, sites, chantier, jour, current, s);
    while current <= chantier.end
      invariant SimDates(salarie, sites, chantier, jour, current, Sim(true, heuresJourMap, heuresSemaineMap, totalHeures)) == goal
      decreases chantier.end + 1 - current
    {
      ghost var before := Sim(true, heuresJourMap, heuresSemaineMap, totalHeures);
      var ok := SimulatedDateTests(salarie, sites, chantier, jour, current, Sim(true, heuresJourMap, heuresSemaineMap, totalHeures));
      if !ok {
        return Sim(false, heuresJourMap, heuresSemaineMap, totalHeures);
      }
      heuresJourMap := Add(heuresJourMap, (current, jour), hParJour);
      heuresSemaineMap := Add(heuresSemaineMap, CallerWeekKey(current), hParJour);
      totalHeures := totalHeures + hParJour;
      assert Sim(true, heuresJourMap, heuresSemaineMap, totalHeures) == Simulated(before, current, jour, hParJour);
      current := current + 7;
    }
    return Sim(true, heuresJourMap, heuresSemaineMap, totalHeures);
  }

  /** Strategy A's simulation of one candidate: the weekday loop, its date loop, the two maps and the total. */
  method SimulateCandidate(salarie: Worker, sites: seq<Site>, chantier: Site) returns (peutToutFaire: bool, totalHeures: real)
    ensures peutToutFaire == SimDays(salarie, sites, chantier, chantier.days, NoSim).ok
    ensures totalHeures == SimDays(salarie, sites, chantier, chantier.days, NoSim).total
  {
    var sim := NoSim;
    for t := 0 to |chantier.days|
      invariant sim.ok
      invariant SimDays(salarie, sites, chantier, chantier.days[t..], sim) == SimDays(salarie, sites, chantier, chantier.days, NoSim)
    {
      assert chantier.days[t..][1..] == chantier.days[t + 1..];
      sim := SimulateWeekday(salarie, sites, chantier, chantier.days[t], sim);
      if !sim.ok {
        return false, sim.total;
      }
    }
    return true, sim.total;
  }

  /** The candidate loop at one date: bookings until `nombreRequis` posts are filled, then the date's report. */
  method CoverDateInPlace(db: Database, chantier: Site, competence: string, jour: Weekday, nombreRequis: int, current: Day,
                          candidats: seq<nat>, equipe: seq<WorkerId>, nonCouverts: seq<Gap>)
    returns (equipe': seq<WorkerId>, nonCouverts': seq<Gap>)
    requires forall m :: 0 <= m < |candidats| ==> candidats[m] < |db.workers|
    modifies db
    ensures db.sites == old(db.sites)
    ensures Progress(db.workers, equipe', nonCouverts')
      == CoverDate(Progress(old(db.workers), equipe, nonCouverts), old(db.sites), chantier, competence, jour, nombreRequis, current, candidats)
  {
    var hParJour := HoursPerServiceDay(chantier);
    var pourvuCeJour: nat := 0;
    equipe' := equipe;
    ghost var start := Progress(db.workers, equipe, nonCouverts);
    ghost var outcome := CoverFrom(start, db.sites, chantier, jour, nombreRequis, current, candidats, 0, 0);
    var c := 0;
    while c < |candidats|
      invariant 0 <= c <= |candidats|
      invariant |db.workers| == |old(db.workers)| && db.sites == old(db.sites)
      invariant CoverFrom(Progress(db.workers, equipe', nonCouverts), db.sites, chantier, jour, nombreRequis, current, candidats, c, pourvuCeJour)
        == outcome
      decreases |candidats| - c
    {
      var salarie := db.workers[candidats[c]];
      var ok := PassesDateTests(salarie, db.sites, chantier, hParJour, jour, current);
      if ok {
        BookWorker(db, candidats[c], chantier, [jour]);
        equipe' := equipe' + [salarie.id];
        pourvuCeJour := pourvuCeJour + 1;
        if pourvuCeJour >= nombreRequis {
          break;
        }
      }
      c := c + 1;
    }
    nonCouverts' := nonCouverts;
    if pourvuCeJour < nombreRequis {
      nonCouverts' := nonCouverts' + [DateGap(jour, current, competence)];
    }
  }

  /** One turn of the date loop: the pass from `d` is the pass from `d + 7` after the date `d`. */
  lemma CoverDatesStep(p: Progress, sites: seq<Site>, site: Site, skill: string, j: Weekday, n: int, d: Day, cands: seq<nat>)
    requires forall m :: 0 <= m < |cands| ==> cands[m] < |p.workers|
    requires d <= site.end
    ensures var q := CoverDate(p, sites, site, skill, j, n, d, cands);
      |q.workers| == |p.workers| &&
      CoverDates(p, sites, site, skill, j, n, d, cands) == CoverDates(q, sites, site, skill, j, n, d + 7, cands)
  {
  }

  /** The date loop of one weekday, from its first date in the window, one week at a time. */
  method CoverDatesInPlace(db: Database, chantier: Site, competence: string, jour: Weekday, nombreRequis: int,
                           candidats: seq<nat>, equipe: seq<WorkerId>, nonCouverts: seq<Gap>)
    returns (equipe': seq<WorkerId>, nonCouverts': seq<Gap>)
    requires forall m :: 0 <= m < |candidats| ==> candidats[m] < |db.workers|
    modifies db
    ensures db.sites == old(db.sites)
    ensures Progress(db.workers, equipe', nonCouverts')
      == CoverDates(Progress(old(db.workers), equipe, nonCouverts), old(db.sites), chantier, competence, jour, nombreRequis,
                    FirstOnOrAfter(chantier.start, jour), candidats)
  {
    equipe', nonCouverts' := equipe, nonCouverts;
    var current := AdvanceToWeekday(chantier.start, jour);
    ghost var outcome := CoverDates(Progress(db.workers, equipe, nonCouverts), db.sites, chantier, competence, jour, nombreRequis,
                                    current, candidats);
    while current <= chantier.end
      invariant |db.workers| == |old(db.workers)| && db.sites == old(db.sites)
      invariant CoverDates(Progress(db.workers, equipe', nonCouverts'), db.sites, chantier, competence, jour, nombreRequis, current, candidats)
        == outcome
      decreases chantier.end + 1 - current
    {
      ghost var before := Progress(db.workers, equipe', nonCouverts');
      CoverDatesStep(before, db.sites, chantier, competence, jour, nombreRequis, current, candidats);
      equipe', nonCouverts' := CoverDateInPlace(db, chantier, competence, jour, nombreRequis, current, candidats, equipe', nonCouverts');
      current := current + 7;
    }
  }

  /** The `jour` loop of one skill: the candidates are queried afresh for each weekday. */
  method CoverDaysInPlace(db: Database, chantier: Site, competence: string, nombreRequis: int,
                          equipe: seq<WorkerId>, nonCouverts: seq<Gap>)
    returns (equipe': seq<WorkerId>, nonCouverts': seq<Gap>)
    modifies db
    ensures db.sites == old(db.sites)
    ensures Progress(db.workers, equipe', nonCouverts')
      == CoverDays(Progress(old(db.workers), equipe, nonCouverts), old(db.sites), chantier, competence, nombreRequis, chantier.days)
  {
    equipe', nonCouverts' := equipe, nonCouverts;
    for t := 0 to |chantier.days|
      invariant db.sites == old(db.sites)
      invariant CoverDays(Progress(db.workers, equipe', nonCouverts'), db.sites, chantier, competence, nombreRequis, chantier.days[t..])
        == CoverDays(Progress(old(db.workers), equipe, nonCouverts), db.sites, chantier, competence, nombreRequis, chantier.days)
    {
      assert chantier.days[t..][1..] == chantier.days[t + 1..];
      var candidats := DateCandidates(db.workers, chantier, competence);
      equipe', nonCouverts' := CoverDatesInPlace(db, chantier, competence, chantier.days[t], nombreRequis, candidats, equipe', nonCouverts');
    }
  }

  /** The per-date pass: the `competence` loop over `besoins_equipe`. */
  method CoverNeedsInPlace(db: Database, chantier: Site) returns (equipe: seq<WorkerId>, joursNonCouverts: seq<Gap>)
    modifies db
    ensures db.sites == old(db.sites)
    ensures Progress(db.workers, equipe, joursNonCouverts) == CoverNeeds(Progress(old(db.workers), [], []), old(db.sites), chantier, chantier.needs)
  {
    equipe, joursNonCouverts := [], [];
    for i := 0 to |chantier.needs|
      invariant db.sites == old(db.sites)
      invariant CoverNeeds(Progress(db.workers, equipe, joursNonCouverts), db.sites, chantier, chantier.needs[i..])
        == CoverNeeds(Progress(old(db.workers), [], []), db.sites, chantier, chantier.needs)
    {
      assert chantier.needs[i..][1..] == chantier.needs[i + 1..];
      equipe, joursNonCouverts := CoverDaysInPlace(db, chantier, chantier.needs[i].skill, chantier.needs[i].count, equipe, joursNonCouverts);
    }
  }

  /** `affecterEquipePourChantier`, with `joursSemaine` read as the weekday names. */
  method AffecterEquipePourChantier(db: Database, chantierId: SiteId) returns (r: Result<Site, string>)
    modifies db
    ensures Run(db.workers, db.sites, r) == Allocate(old(db.workers), old(db.sites), chantierId)
  {
    var found := FindSite(db.sites, chantierId);
    if found.None? {
      return Err(NotFoundMessage);
    }
    var k := found.value;
    var chantier := db.sites[k];
    if chantier.status != Nouveau {
      return Err(AlreadyPlannedMessage);
    }
    var totalBesoins := TotalDemand(chantier.needs);
    if totalBesoins == 0 {
      chantier := chantier.(team := [], status := Planifie);
      db.sites := db.sites[k := chantier];
      return Ok(chantier);
    }
    var candidatsAll := AllSkillsCandidates(db.workers, chantier);
    for c := 0 to |candidatsAll|
      invariant db.workers == old(db.workers) && db.sites == old(db.sites)
      invariant FirstStrictFrom(db.workers, db.sites, chantier, candidatsAll, c) == FirstStrictFrom(db.workers, db.sites, chantier, candidatsAll, 0)
    {
      var salarie := db.workers[candidatsAll[c]];
      var peutToutFaire, totalHeures := SimulateCandidate(salarie, db.sites, chantier);
      if peutToutFaire && totalHeures <= 35.0 {
        BookWorker(db, candidatsAll[c], chantier, chantier.days);
        chantier := chantier.(team := [salarie.id], status := Planifie, note := None);
        db.sites := db.sites[k := chantier];
        return Ok(chantier);
      }
    }
    var equipe, joursNonCouverts := CoverNeedsInPlace(db, chantier);
    if |joursNonCouverts| > 0 {
      chantier := chantier.(status := Nouveau, note := Some(UncoveredNote(joursNonCouverts)));
      db.sites := db.sites[k := chantier];
      return Err(UncoveredMessage);
    }
    chantier := chantier.(team := equipe, status := Planifie, note := None);
    db.sites := db.sites[k := chantier];
    return Ok(chantier);
  }

  // ---------------------------------------------------------------------------------------------
  // resetAffectationPourChantier

  /** `Salarie.updateOne({ _id })`: the position of the first worker with that id. */
  function FindWorker(workers: seq<Worker>, id: WorkerId): (r: Option<nat>)
    ensures r.Some? ==> r.value < |workers| && workers[r.value].id == id
    ensures r.None? ==> forall i :: 0 <= i < |workers| ==> workers[i].id != id
  {
    if workers == [] then None
    else if workers[0].id == id then Some(0)
    else match FindWorker(workers[1..], id)
      case None => None
      case Some(i) => Some(i + 1)
  }

  /** A worker without its records of the site. */
  function Pulled(w: Worker, sid: SiteId): Worker {
    w.(assignments := RemoveSite(w.assignments, sid))
  }

  /** `updateOne({ _id: wid }, { $pull: { affectations: { chantierId: sid } } })`. */
  function PullFrom(workers: seq<Worker>, wid: WorkerId, sid: SiteId): (r: seq<Worker>)
    ensures |r| == |workers|
  {
    match FindWorker(workers, wid)
    case None => workers
    case Some(i) => workers[i := Pulled(workers[i], sid)]
  }

  /** One `updateOne` per id of the team, in order. */
  function PullAll(workers: seq<Worker>, team: seq<WorkerId>, sid: SiteId): (r: seq<Worker>)
    ensures |r| == |workers|
    decreases |team|
  {
    if team == [] then workers else PullAll(PullFrom(workers, team[0], sid), team[1..], sid)
  }

  /** The reset: every worker of the team loses its records of the site; the site is saved `Nouveau` with an empty team. */
  function Reset(workers: seq<Worker>, sites: seq<Site>, id: SiteId): Run {
    match FindSite(sites, id)
    case None => Run(workers, sites, Err(NotFoundMessage))
    case Some(k) =>
      var saved := sites[k].(team := [], status := Nouveau);
      Run(PullAll(workers, sites[k].team, id), sites[k := saved], Ok(saved))
  }

  /** With distinct ids, one `updateOne` pulls the site's records from the worker with that id and from no other. */
  lemma PullFromSpec(workers: seq<Worker>, wid: WorkerId, sid: SiteId)
    requires DistinctWorkerIds(workers)
    ensures forall i :: 0 <= i < |workers| ==>
      PullFrom(workers, wid, sid)[i] == if workers[i].id == wid then Pulled(workers[i], sid) else workers[i]
  {
    match FindWorker(workers, wid)
    case None =>
    case Some(i0) =>
      forall i | 0 <= i < |workers| && i != i0
        ensures workers[i].id != wid
      {
        if i < i0 {
          assert workers[i].id != workers[i0].id;
        } else {
          assert workers[i0].id != workers[i].id;
        }
      }
  }

  /**
   * With distinct ids, the reset's updates pull the site's records from exactly the workers whose id
   * the team lists (once, however often the team lists them) and leave every other record and worker
   * as it was.
   */
  lemma {:induction false} PullAllSpec(workers: seq<Worker>, team: seq<WorkerId>, sid: SiteId)
    requires DistinctWorkerIds(workers)
    ensures forall i :: 0 <= i < |workers| ==>
      PullAll(workers, team, sid)[i] == if workers[i].id in team then Pulled(workers[i], sid) else workers[i]
    decreases |team|
  {
    if team != [] {
      var next := PullFrom(workers, team[0], sid);
      PullFromSpec(workers, team[0], sid);
      assert forall i :: 0 <= i < |workers| ==> next[i].id == workers[i].id;
      PullAllSpec(next, team[1..], sid);
      forall i | 0 <= i < |workers|
        ensures PullAll(workers, team, sid)[i] == if workers[i].id in team then Pulled(workers[i], sid) else workers[i]
      {
        if workers[i].id == team[0] && workers[i].id in team[1..] {
          RemoveSiteIdempotent(workers[i].assignments, sid);
        }
        assert workers[i].id in team <==> workers[i].id == team[0] || workers[i].id in team[1..];
      }
    }
  }

  /**
   * An unknown id throws and writes nothing. Otherwise the site is saved `Nouveau` with an empty team
   * and its note kept; each worker of the team loses every record of the site and keeps the others;
   * with an empty team no worker is touched.
   */
  lemma ResetMeaning(workers: seq<Worker>, sites: seq<Site>, id: SiteId)
    requires DistinctWorkerIds(workers)
    ensures var r := Reset(workers, sites, id);
      && ((forall k :: 0 <= k < |sites| ==> sites[k].id != id) ==> r == Run(workers, sites, Err(NotFoundMessage)))
      && (forall k :: 0 <= k < |sites| && sites[k].id == id && (forall k' :: 0 <= k' < k ==> sites[k'].id != id) ==>
            && r.result == Ok(sites[k].(team := [], status := Nouveau))
            && r.sites == sites[k := sites[k].(team := [], status := Nouveau)]
            && r.sites[k].note == sites[k].note
            && |r.workers| == |workers|
            && (forall i :: 0 <= i < |workers| ==>
                  r.workers[i] == if workers[i].id in sites[k].team then Pulled(workers[i], id) else workers[i])
            && (sites[k].team == [] ==> r.workers == workers))
  {
    match FindSite(sites, id)
    case None =>
    case Some(k) =>
      PullAllSpec(workers, sites[k].team, id);
  }

  /** After a reset, no worker of the team holds any record of the site, and each keeps all its other records. */
  lemma ResetLeavesNoRecord(workers: seq<Worker>, sites: seq<Site>, k: nat)
    requires DistinctWorkerIds(workers) && DistinctSiteIds(sites) && k < |sites|
    ensures var r := Reset(workers, sites, sites[k].id);
      forall i :: 0 <= i < |workers| && workers[i].id in sites[k].team ==>
        forall a :: a in r.workers[i].assignments <==> a in workers[i].assignments && a.site != sites[k].id
  {
    FindSiteFinds(sites, k);
    ResetMeaning(workers, sites, sites[k].id);
  }

  /**
   * Resetting undoes a whole-site booking: after Strategy A booked the worker at position `i`, the
   * updates of a reset whose team is that worker leave the store as they would have left it before
   * the booking.
   */
  lemma ResetUndoesWholeSiteBooking(workers: seq<Worker>, i: nat, site: Site)
    requires DistinctWorkerIds(workers) && i < |workers|
    ensures PullAll(BookAt(workers, i, site, site.days), [workers[i].id], site.id) == PullAll(workers, [workers[i].id], site.id)
  {
    var booked := BookAt(workers, i, site, site.days);
    var wid := workers[i].id;
    assert [wid][1..] == [];
    assert PullAll(booked, [wid], site.id) == PullFrom(booked, wid, site.id);
    assert PullAll(workers, [wid], site.id) == PullFrom(workers, wid, site.id);
    assert FindWorker(booked, wid) == FindWorker(workers, wid) by {
      FindWorkerIgnoresCalendars(workers, booked, wid);
    }
    match FindWorker(workers, wid)
    case None =>
    case Some(k) =>
      ResetUndoesBook(workers[i].assignments, site, site.days);
  }

  /** The lookup by id sees only ids. */
  lemma {:induction false} FindWorkerIgnoresCalendars(a: seq<Worker>, b: seq<Worker>, id: WorkerId)
    requires |a| == |b| && forall m :: 0 <= m < |a| ==> a[m].id == b[m].id
    ensures FindWorker(a, id) == FindWorker(b, id)
    decreases |a|
  {
    if a != [] {
      FindWorkerIgnoresCalendars(a[1..], b[1..], id);
    }
  }

  /** One `Salarie.updateOne(...)`. */
  method UpdateOne(db: Database, salarieId: WorkerId, chantierId: SiteId)
    modifies db
    ensures db.workers == PullFrom(old(db.workers), salarieId, chantierId)
    ensures db.sites == old(db.sites)
  {
    var found := FindWorker(db.workers, salarieId);
    if found.Some? {
      var salarie := db.workers[found.value];
      salarie := salarie.(assignments := RemoveSite(salarie.assignments, chantierId));
      db.workers := db.workers[found.value := salarie];
    }
  }

  /** `resetAffectationPourChantier`: the updates run one after the other. */
  method ResetAffectationPourChantier(db: Database, chantierId: SiteId) returns (r: Result<Site, string>)
    modifies db
    ensures Run(db.workers, db.sites, r) == Reset(old(db.workers), old(db.sites), chantierId)
  {
    var found := FindSite(db.sites, chantierId);
    if found.None? {
      return Err(NotFoundMessage);
    }
    var k := found.value;
    var chantier := db.sites[k];
    if |chantier.team| > 0 {
      for t := 0 to |chantier.team|
        invariant db.sites == old(db.sites)
        invariant PullAll(db.workers, chantier.team[t..], chantierId) == PullAll(old(db.workers), chantier.team, chantierId)
      {
        assert chantier.team[t..][1..] == chantier.team[t + 1..];
        UpdateOne(db, chantier.team[t], chantierId);
      }
    }
    chantier := chantier.(team := [], status := Nouveau);
    db.sites := db.sites[k := chantier];
    return Ok(chantier);
  }
}
