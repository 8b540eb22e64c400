/**
 * The live allocation pass `affectationFractionneeParHeure` of src/services/affectation.algos.js.
 * Every site whose status is `Nouveau` is processed in collection order. Strategy A looks for one
 * worker for the whole site; under 35 hours a week a failed Strategy A is followed by Strategy B,
 * which covers the needs slot by slot (skill, then weekday, then post). Every booking is saved at
 * once, so later tests in the same pass see it.
 */
module AffectationAlgos {
  import opened Wrappers
  import opened Calendar
  import opened Records
  import opened Store
  import opened AffectationUtils
  import opened AllocationRules

  // ---------------------------------------------------------------------------------------------
  // Candidates

  /**
   * The workers, from position `k` on, that hold every skill of the list and have contract `c`, and
   * coordinates too when `coordsOnly`, in collection order.
   */
  function HoldersFrom(workers: seq<Worker>, skills: seq<string>, c: Contract, coordsOnly: bool, k: nat): (r: seq<nat>)
    ensures forall m :: 0 <= m < |r| ==> k <= r[m] < |workers|
    decreases |workers| - k
  {
    if k >= |workers| then []
    else if Matches(workers[k], AllSkills(skills, Some(c))) && (coordsOnly ==> workers[k].coords.Some?) then
      [k] + HoldersFrom(workers, skills, c, coordsOnly, k + 1)
    else HoldersFrom(workers, skills, c, coordsOnly, k + 1)
  }

  /**
   * Strategy A's candidates: the CDI workers holding every skill of the site, or the CDD workers
   * holding them when no CDI does; with coordinates only when the site has coordinates. The
   * distance sort compares NaN values and leaves the order as it is.
   */
  function WholeSiteCandidates(workers: seq<Worker>, site: Site): (r: seq<nat>)
    ensures forall m :: 0 <= m < |r| ==> r[m] < |workers|
  {
    var skills := SkillsOf(site.needs);
    var contract := if |HoldersFrom(workers, skills, CDI, false, 0)| == 0 then CDD else CDI;
    HoldersFrom(workers, skills, contract, site.coords.Some?, 0)
  }

  /** The positions of `idx` whose worker has the contract, in the order of `idx`. */
  function OfContract(workers: seq<Worker>, idx: seq<nat>, c: Contract): (r: seq<nat>)
    requires forall m :: 0 <= m < |idx| ==> idx[m] < |workers|
    ensures forall m :: 0 <= m < |r| ==> r[m] < |workers| && workers[r[m]].contract == c
  {
    if idx == [] then []
    else if workers[idx[0]].contract == c then [idx[0]] + OfContract(workers, idx[1..], c)
    else OfContract(workers, idx[1..], c)
  }

  /** The contract filter keeps exactly the positions whose worker has that contract, in their order. */
  lemma {:induction false} OfContractSpec(workers: seq<Worker>, idx: seq<nat>, c: Contract)
    requires forall m :: 0 <= m < |idx| ==> idx[m] < |workers|
    ensures forall i :: i in OfContract(workers, idx, c) <==> i in idx && workers[i].contract == c
    ensures Increasing(idx) ==> Increasing(OfContract(workers, idx, c))
  {
    if idx != [] {
      OfContractSpec(workers, idx[1..], c);
      var rest := OfContract(workers, idx[1..], c);
      assert forall i :: i in idx <==> i == idx[0] || i in idx[1..];
      if workers[idx[0]].contract == c {
        assert OfContract(workers, idx, c) == [idx[0]] + rest;
        assert forall i :: i in [idx[0]] + rest <==> i == idx[0] || i in rest;
        if Increasing(idx) {
          forall m | 0 <= m < |rest| ensures idx[0] < rest[m] {
            assert rest[m] in idx[1..];
          }
        }
      }
    }
  }

  /**
   * The workers, from position `k` on, that hold the skill, have coordinates and have contract `c`,
   * in collection order.
   */
  function SlotGroup(workers: seq<Worker>, skill: string, c: Contract, k: nat): (r: seq<nat>)
    ensures forall m :: 0 <= m < |r| ==> k <= r[m] < |workers|
    decreases |workers| - k
  {
    if k >= |workers| then []
    else if skill in workers[k].skills && workers[k].coords.Some? && workers[k].contract == c then
      [k] + SlotGroup(workers, skill, c, k + 1)
    else SlotGroup(workers, skill, c, k + 1)
  }

  /**
   * Strategy B's candidates for one slot: the workers holding the skill and having coordinates, the
   * CDI workers before the CDD workers, each group in collection order (the comparator only ever
   * decides on the contract; the distance part is NaN).
   */
  function SlotCandidates(workers: seq<Worker>, skill: string): (r: seq<nat>)
    ensures forall m :: 0 <= m < |r| ==> r[m] < |workers|
  {
    SlotGroup(workers, skill, CDI, 0) + SlotGroup(workers, skill, CDD, 0)
  }

  /** The fused filter is the source's query `Salarie.find(...)` followed by the coordinates filter. */
  lemma {:induction false} HoldersFromIsQuery(workers: seq<Worker>, skills: seq<string>, c: Contract, coordsOnly: bool, k: nat)
    ensures HoldersFrom(workers, skills, c, coordsOnly, k) ==
      if coordsOnly then WithCoords(workers, FindFrom(workers, AllSkills(skills, Some(c)), k))
      else FindFrom(workers, AllSkills(skills, Some(c)), k)
    decreases |workers| - k
  {
    if k < |workers| {
      HoldersFromIsQuery(workers, skills, c, coordsOnly, k + 1);
      var q := AllSkills(skills, Some(c));
      var rest := FindFrom(workers, q, k + 1);
      if Matches(workers[k], q) {
        assert FindFrom(workers, q, k) == [k] + rest;
        assert ([k] + rest)[1..] == rest;
      }
    }
  }

  /** Strategy A's candidates are exactly the two queries, the CDD fallback and the coordinates filter as the source chains them. */
  lemma WholeSiteCandidatesIsQuery(workers: seq<Worker>, site: Site)
    ensures WholeSiteCandidates(workers, site) ==
      var skills := SkillsOf(site.needs);
      var cdi := Find(workers, AllSkills(skills, Some(CDI)));
      var found := if |cdi| == 0 then Find(workers, AllSkills(skills, Some(CDD))) else cdi;
      if site.coords.Some? then WithCoords(workers, found) else found
  {
    var skills := SkillsOf(site.needs);
    HoldersFromIsQuery(workers, skills, CDI, false, 0);
    HoldersFromIsQuery(workers, skills, CDI, site.coords.Some?, 0);
    HoldersFromIsQuery(workers, skills, CDD, site.coords.Some?, 0);
  }

  lemma HoldersFromSpec(workers: seq<Worker>, skills: seq<string>, c: Contract, coordsOnly: bool, k: nat)
    ensures forall i :: i in HoldersFrom(workers, skills, c, coordsOnly, k) <==>
      k <= i < |workers| && Matches(workers[i], AllSkills(skills, Some(c))) && (coordsOnly ==> workers[i].coords.Some?)
    ensures Increasing(HoldersFrom(workers, skills, c, coordsOnly, k))
  {
    HoldersFromIsQuery(workers, skills, c, coordsOnly, k);
    FindFromSpec(workers, AllSkills(skills, Some(c)), k);
    WithCoordsSpec(workers, FindFrom(workers, AllSkills(skills, Some(c)), k));
  }

  /**
   * Strategy A's candidates are the workers holding every skill of the site under one contract, CDI
   * when any CDI worker holds them all and CDD otherwise, restricted to those with coordinates when
   * the site has coordinates, each once and in collection order.
   */
  lemma WholeSiteCandidatesMeaning(workers: seq<Worker>, site: Site)
    ensures var skills := SkillsOf(site.needs);
      var c := if exists i :: 0 <= i < |workers| && Matches(workers[i], AllSkills(skills, Some(CDI))) then CDI else CDD;
      && (forall i :: i in WholeSiteCandidates(workers, site) <==>
            0 <= i < |workers| && Matches(workers[i], AllSkills(skills, Some(c))) && (site.coords.Some? ==> workers[i].coords.Some?))
      && Increasing(WholeSiteCandidates(workers, site))
  {
    var skills := SkillsOf(site.needs);
    var cdi := HoldersFrom(workers, skills, CDI, false, 0);
    HoldersFromSpec(workers, skills, CDI, false, 0);
    HoldersFromSpec(workers, skills, CDI, site.coords.Some?, 0);
    HoldersFromSpec(workers, skills, CDD, site.coords.Some?, 0);
    if |cdi| != 0 {
      assert cdi[0] in cdi;
    }
  }

  lemma {:induction false} HoldersWithoutSkills(workers: seq<Worker>, c: Contract, coordsOnly: bool, k: nat)
    ensures HoldersFrom(workers, [], c, coordsOnly, k) == []
    decreases |workers| - k
  {
    if k < |workers| {
      HoldersWithoutSkills(workers, c, coordsOnly, k + 1);
    }
  }

  /** `$all` over an empty list matches nothing: a site without needs has no Strategy A candidate. */
  lemma NoNeedsNoWholeSiteCandidate(workers: seq<Worker>, site: Site)
    requires site.needs == []
    ensures WholeSiteCandidates(workers, site) == []
  {
    HoldersWithoutSkills(workers, CDI, false, 0);
    HoldersWithoutSkills(workers, CDD, site.coords.Some?, 0);
    HoldersWithoutSkills(workers, CDI, site.coords.Some?, 0);
  }

  lemma {:induction false} SlotGroupSpec(workers: seq<Worker>, skill: string, c: Contract, k: nat)
    ensures forall i :: i in SlotGroup(workers, skill, c, k) <==>
      k <= i < |workers| && skill in workers[i].skills && workers[i].coords.Some? && workers[i].contract == c
    ensures Increasing(SlotGroup(workers, skill, c, k))
    decreases |workers| - k
  {
    if k < |workers| {
      SlotGroupSpec(workers, skill, c, k + 1);
      var rest := SlotGroup(workers, skill, c, k + 1);
      if skill in workers[k].skills && workers[k].coords.Some? && workers[k].contract == c {
        assert SlotGroup(workers, skill, c, k) == [k] + rest;
        assert forall i :: i in [k] + rest <==> i == k || i in rest;
      }
    }
  }

  /** Each contract group is the source's query, coordinates filter and contract partition, in that order. */
  lemma {:induction false} SlotGroupIsQuery(workers: seq<Worker>, skill: string, c: Contract, k: nat)
    ensures SlotGroup(workers, skill, c, k) == OfContract(workers, WithCoords(workers, FindFrom(workers, OneSkill(skill), k)), c)
    decreases |workers| - k
  {
    if k < |workers| {
      SlotGroupIsQuery(workers, skill, c, k + 1);
      var found := FindFrom(workers, OneSkill(skill), k + 1);
      if skill in workers[k].skills {
        assert FindFrom(workers, OneSkill(skill), k) == [k] + found;
        assert ([k] + found)[1..] == found;
        var kept := WithCoords(workers, found);
        if workers[k].coords.Some? {
          assert WithCoords(workers, [k] + found) == [k] + kept;
          assert ([k] + kept)[1..] == kept;
        }
      }
    }
  }

  /** Two increasing groups, one of CDI and one of CDD positions, put one after the other. */
  lemma ConcatGroups(workers: seq<Worker>, g1: seq<nat>, g2: seq<nat>)
    requires forall m :: 0 <= m < |g1| ==> g1[m] < |workers| && workers[g1[m]].contract == CDI
    requires forall m :: 0 <= m < |g2| ==> g2[m] < |workers| && workers[g2[m]].contract == CDD
    requires Increasing(g1) && Increasing(g2)
    ensures var r := g1 + g2;
      && (forall a, b :: 0 <= a < b < |r| ==> r[a] != r[b])
      && (forall a, b :: 0 <= a < b < |r| && workers[r[a]].contract == CDD ==> workers[r[b]].contract == CDD)
      && (forall a, b :: 0 <= a < b < |r| && workers[r[a]].contract == workers[r[b]].contract ==> r[a] < r[b])
  {
    var r := g1 + g2;
    forall a, b | 0 <= a < b < |r|
      ensures r[a] != r[b]
      ensures workers[r[a]].contract == CDD ==> workers[r[b]].contract == CDD
      ensures workers[r[a]].contract == workers[r[b]].contract ==> r[a] < r[b]
    {
      if b < |g1| {
        assert r[a] == g1[a] && r[b] == g1[b];
      } else if a >= |g1| {
        assert r[a] == g2[a - |g1|] && r[b] == g2[b - |g1|];
      } else {
        assert r[a] == g1[a] && r[b] == g2[b - |g1|];
      }
    }
  }

  /**
   * Strategy B's candidates are exactly the workers holding the skill and having coordinates, each
   * once, every CDI before every CDD, and each contract group in collection order.
   */
  lemma SlotCandidatesMeaning(workers: seq<Worker>, skill: string)
    ensures var r := SlotCandidates(workers, skill);
      && (forall i :: i in r <==> 0 <= i < |workers| && skill in workers[i].skills && workers[i].coords.Some?)
      && (forall a, b :: 0 <= a < b < |r| ==> r[a] != r[b])
      && (forall a, b :: 0 <= a < b < |r| && workers[r[a]].contract == CDD ==> workers[r[b]].contract == CDD)
      && (forall a, b :: 0 <= a < b < |r| && workers[r[a]].contract == workers[r[b]].contract ==> r[a] < r[b])
  {
    var g1 := SlotGroup(workers, skill, CDI, 0);
    var g2 := SlotGroup(workers, skill, CDD, 0);
    SlotGroupSpec(workers, skill, CDI, 0);
    SlotGroupSpec(workers, skill, CDD, 0);
    assert forall i :: i in g1 + g2 <==> i in g1 || i in g2;
    assert forall m :: 0 <= m < |g1| ==> g1[m] in g1;
    assert forall m :: 0 <= m < |g2| ==> g2[m] in g2;
    ConcatGroups(workers, g1, g2);
  }

  /** Strategy B's candidates are the source's query, coordinates filter and stable contract sort. */
  lemma SlotCandidatesIsQuery(workers: seq<Worker>, skill: string)
    ensures SlotCandidates(workers, skill) ==
      var withCoords := WithCoords(workers, Find(workers, OneSkill(skill)));
      OfContract(workers, withCoords, CDI) + OfContract(workers, withCoords, CDD)
  {
    SlotGroupIsQuery(workers, skill, CDI, 0);
    SlotGroupIsQuery(workers, skill, CDD, 0);
  }

  // ---------------------------------------------------------------------------------------------
  // The specification of one site

  /** The candidate loop of Strategy A from position `c` on: the position of the first one that fits. */
  function FirstFitFrom(workers: seq<Worker>, sites: seq<Site>, site: Site, cands: seq<nat>, c: nat): (r: Option<nat>)
    requires forall m :: 0 <= m < |cands| ==> cands[m] < |workers|
    ensures r.Some? ==> c <= r.value < |cands|
    decreases |cands| - c
  {
    if c >= |cands| then None
    else if FitsWholeSite(workers[cands[c]], sites, site) then Some(c)
    else FirstFitFrom(workers, sites, site, cands, c + 1)
  }

  /** The candidate loop of one Strategy B slot from position `c` on: the first one that passes some date. */
  function FirstPassingFrom(workers: seq<Worker>, sites: seq<Site>, site: Site, j: Weekday, cands: seq<nat>, c: nat): (r: Option<nat>)
    requires forall m :: 0 <= m < |cands| ==> cands[m] < |workers|
    ensures r.Some? ==> c <= r.value < |cands|
    decreases |cands| - c
  {
    if c >= |cands| then None
    else if PassesSomeDay(workers[cands[c]], sites, site, j) then Some(c)
    else FirstPassingFrom(workers, sites, site, j, cands, c + 1)
  }

  /** The chosen candidate fits the whole site and every candidate before it does not; none fits when none is chosen. */
  lemma {:induction false} FirstFitIsFirst(workers: seq<Worker>, sites: seq<Site>, site: Site, cands: seq<nat>, c: nat)
    requires forall m :: 0 <= m < |cands| ==> cands[m] < |workers|
    ensures var r := FirstFitFrom(workers, sites, site, cands, c);
      && (r.Some? ==> FitsWholeSite(workers[cands[r.value]], sites, site))
      && (r.Some? ==> forall m :: c <= m < r.value ==> !FitsWholeSite(workers[cands[m]], sites, site))
      && (r.None? ==> forall m :: c <= m < |cands| ==> !FitsWholeSite(workers[cands[m]], sites, site))
    decreases |cands| - c
  {
    if c < |cands| && !FitsWholeSite(workers[cands[c]], sites, site) {
      FirstFitIsFirst(workers, sites, site, cands, c + 1);
    }
  }

  /** The chosen candidate passes at some date and every candidate before it passes at none. */
  lemma {:induction false} FirstPassingIsFirst(workers: seq<Worker>, sites: seq<Site>, site: Site, j: Weekday, cands: seq<nat>, c: nat)
    requires forall m :: 0 <= m < |cands| ==> cands[m] < |workers|
    ensures var r := FirstPassingFrom(workers, sites, site, j, cands, c);
      && (r.Some? ==> PassesSomeDay(workers[cands[r.value]], sites, site, j))
      && (r.Some? ==> forall m :: c <= m < r.value ==> !PassesSomeDay(workers[cands[m]], sites, site, j))
      && (r.None? ==> forall m :: c <= m < |cands| ==> !PassesSomeDay(workers[cands[m]], sites, site, j))
    decreases |cands| - c
  {
    if c < |cands| && !PassesSomeDay(workers[cands[c]], sites, site, j) {
      FirstPassingIsFirst(workers, sites, site, j, cands, c + 1);
    }
  }

  /** Books the weekdays of the site into the calendar of the worker at position `i` (`salarie.save()`). */
  function BookAt(workers: seq<Worker>, i: nat, site: Site, added: seq<Weekday>): seq<Worker>
    requires i < |workers|
  {
    workers[i := workers[i].(assignments := Book(workers[i].assignments, site, added))]
  }

  /**
   * What the decomposition has done so far: the store's workers, the team and the uncovered slots.
   * The team is a JavaScript `Set` of ObjectId instances, which compares them by reference: every
   * post queries the store afresh, so the same worker booked twice is listed twice.
   */
  datatype Progress = Progress(workers: seq<Worker>, team: seq<WorkerId>, uncovered: seq<Gap>)

  /**
   * An entry of the uncovered list. The allocators push its text at once; the model keeps the
   * parts and renders them with the same template when the note is written.
   */
  datatype Gap =
    | SlotGap(day: Weekday, skill: string)             // Strategy B: `${jour} [${competence}]`
    | DateGap(day: Weekday, date: Day, skill: string)  // per-date pass: `${jour} (${yyyy-mm-dd}) [${competence}]`
    | NoSingleWorkerGap                                // Strategy A from 35 hours a week up

  function GapLabel(g: Gap): string {
    match g
    case SlotGap(j, skill) => Name(j) + " [" + skill + "]"
    case DateGap(j, d, skill) => Name(j) + " (" + IsoDateString(d) + ") [" + skill + "]"
    case NoSingleWorkerGap => NoSingleWorker
  }

  function GapLabels(gaps: seq<Gap>): (r: seq<string>)
    ensures |r| == |gaps|
  {
    if gaps == [] then [] else [GapLabel(gaps[0])] + GapLabels(gaps[1..])
  }

  /** `"Jours non couverts : " + joursNonCouverts.join(", ")`. */
  function UncoveredNote(gaps: seq<Gap>): string {
    UncoveredPrefix + Join(GapLabels(gaps), ", ")
  }

  /** One post of Strategy B: the first passing candidate gets weekday `j`, or the slot is uncovered. */
  function FillSlot(p: Progress, sites: seq<Site>, site: Site, skill: string, j: Weekday): Progress {
    var cands := SlotCandidates(p.workers, skill);
    match FirstPassingFrom(p.workers, sites, site, j, cands, 0)
    case None => p.(uncovered := p.uncovered + [SlotGap(j, skill)])
    case Some(m) => Progress(BookAt(p.workers, cands[m], site, [j]), p.team + [p.workers[cands[m]].id], p.uncovered)
  }

  /** The `poste` loop: `n` posts of the skill on weekday `j`, one after the other. */
  function FillPosts(p: Progress, sites: seq<Site>, site: Site, skill: string, j: Weekday, n: int): Progress
    decreases n
  {
    if n <= 0 then p else FillSlot(FillPosts(p, sites, site, skill, j, n - 1), sites, site, skill, j)
  }

  /** The `jour` loop for one skill. */
  function FillDays(p: Progress, sites: seq<Site>, site: Site, skill: string, n: int, days: seq<Weekday>): Progress
    decreases |days|
  {
    if days == [] then p
    else FillDays(FillPosts(p, sites, site, skill, days[0], n), sites, site, skill, n, days[1..])
  }

  /** The `competence` loop over `besoins_equipe` in declaration order. */
  function FillNeeds(p: Progress, sites: seq<Site>, site: Site, needs: seq<Need>): Progress
    decreases |needs|
  {
    if needs == [] then p
    else FillNeeds(FillDays(p, sites, site, needs[0].skill, needs[0].count, site.days), sites, site, needs[1..])
  }

  /** The state a site is saved with, and the store's workers after it. */
  datatype SiteOutcome = SiteOutcome(workers: seq<Worker>, team: seq<WorkerId>, status: Status, note: Option<string>)

  const NoSingleWorker: string := "Aucun salarié dispo pour tout le chantier"

  /** The whole treatment of one site. */
  function AllocateSite(workers: seq<Worker>, sites: seq<Site>, site: Site): SiteOutcome {
    var cands := WholeSiteCandidates(workers, site);
    match FirstFitFrom(workers, sites, site, cands, 0)
    case Some(m) => SiteOutcome(BookAt(workers, cands[m], site, site.days), [workers[cands[m]].id], Planifie, None)
    case None =>
      if site.weeklyHours >= 35.0 then
        SiteOutcome(workers, [], Nouveau, Some(UncoveredPrefix + NoSingleWorker))
      else
        var p := FillNeeds(Progress(workers, [], []), sites, site, site.needs);
        SiteOutcome(p.workers, p.team, Nouveau, if p.uncovered == [] then None else Some(UncoveredNote(p.uncovered)))
  }

  /** A worker Strategy B can give the slot to: holds the skill, has coordinates and passes at some date. */
  predicate Able(w: Worker, sites: seq<Site>, site: Site, skill: string, j: Weekday) {
    skill in w.skills && w.coords.Some? && PassesSomeDay(w, sites, site, j)
  }

  /**
   * The worker at position `i` is the one the candidate order picks: it is able, no CDI worker is
   * able when it is a CDD, and no able worker of its contract comes before it in the collection.
   */
  predicate FirstAble(workers: seq<Worker>, sites: seq<Site>, site: Site, skill: string, j: Weekday, i: nat) {
    && i < |workers|
    && Able(workers[i], sites, site, skill, j)
    && (workers[i].contract == CDD ==>
          forall k :: 0 <= k < |workers| && workers[k].contract == CDI ==> !Able(workers[k], sites, site, skill, j))
    && (forall k :: 0 <= k < i && workers[k].contract == workers[i].contract ==> !Able(workers[k], sites, site, skill, j))
  }

  lemma FirstPassingIsFirstAble(workers: seq<Worker>, sites: seq<Site>, site: Site, skill: string, j: Weekday)
    ensures var cands := SlotCandidates(workers, skill);
      var r := FirstPassingFrom(workers, sites, site, j, cands, 0);
      && (r.Some? ==> FirstAble(workers, sites, site, skill, j, cands[r.value]))
      && (r.None? ==> forall k :: 0 <= k < |workers| ==> !Able(workers[k], sites, site, skill, j))
  {
    match FirstPassingFrom(workers, sites, site, j, SlotCandidates(workers, skill), 0)
    case None => NoPassingCandidate(workers, sites, site, skill, j);
    case Some(m) => PassingCandidateIsFirstAble(workers, sites, site, skill, j, m);
  }

  /** When the candidate scan finds nobody, no worker at all is able. */
  lemma NoPassingCandidate(workers: seq<Worker>, sites: seq<Site>, site: Site, skill: string, j: Weekday)
    requires FirstPassingFrom(workers, sites, site, j, SlotCandidates(workers, skill), 0).None?
    ensures forall k :: 0 <= k < |workers| ==> !Able(workers[k], sites, site, skill, j)
  {
    var cands := SlotCandidates(workers, skill);
    SlotCandidatesMeaning(workers, skill);
    FirstPassingIsFirst(workers, sites, site, j, cands, 0);
    forall k | 0 <= k < |workers| && skill in workers[k].skills && workers[k].coords.Some?
      ensures !PassesSomeDay(workers[k], sites, site, j)
    {
      assert k in cands;
      var m :| 0 <= m < |cands| && cands[m] == k;
    }
  }

  /** The candidate the scan stops at is the one the candidate order picks. */
  lemma PassingCandidateIsFirstAble(workers: seq<Worker>, sites: seq<Site>, site: Site, skill: string, j: Weekday, m: nat)
    requires FirstPassingFrom(workers, sites, site, j, SlotCandidates(workers, skill), 0) == Some(m)
    ensures FirstAble(workers, sites, site, skill, j, SlotCandidates(workers, skill)[m])
  {
    var cands := SlotCandidates(workers, skill);
    SlotCandidatesMeaning(workers, skill);
    FirstPassingIsFirst(workers, sites, site, j, cands, 0);
    var i := cands[m];
    assert cands[m] in cands;
    forall k | 0 <= k < |workers| && Able(workers[k], sites, site, skill, j)
      ensures workers[i].contract == CDD ==> workers[k].contract != CDI
      ensures workers[k].contract == workers[i].contract ==> i <= k
    {
      assert k in cands;
      var m' :| 0 <= m' < |cands| && cands[m'] == k;
      assert m <= m';
    }
  }

  /**
   * One post of Strategy B: when no worker is able, the slot is reported uncovered and nothing else
   * changes; otherwise the worker the candidate order picks is booked on that weekday for the whole
   * window and joins the team.
   */
  lemma FillSlotMeaning(p: Progress, sites: seq<Site>, site: Site, skill: string, j: Weekday)
    ensures var r := FillSlot(p, sites, site, skill, j);
      && ((forall k :: 0 <= k < |p.workers| ==> !Able(p.workers[k], sites, site, skill, j)) ==>
            r == p.(uncovered := p.uncovered + [SlotGap(j, skill)]))
      && ((exists k :: 0 <= k < |p.workers| && Able(p.workers[k], sites, site, skill, j)) ==>
            exists i: nat :: i < |p.workers| && FirstAble(p.workers, sites, site, skill, j, i)
              && r == Progress(BookAt(p.workers, i, site, [j]), p.team + [p.workers[i].id], p.uncovered))
  {
    var cands := SlotCandidates(p.workers, skill);
    FirstPassingIsFirstAble(p.workers, sites, site, skill, j);
    match FirstPassingFrom(p.workers, sites, site, j, cands, 0)
    case None =>
    case Some(m) =>
      var i := cands[m];
      assert FirstAble(p.workers, sites, site, skill, j, i);
      assert FillSlot(p, sites, site, skill, j) == Progress(BookAt(p.workers, i, site, [j]), p.team + [p.workers[i].id], p.uncovered);
  }

  // ---------------------------------------------------------------------------------------------
  // What a site's treatment does to the store's workers

  /** Every date a calendar holds busy stays busy in the other. */
  ghost predicate KeepsBusy(before: seq<Assignment>, after: seq<Assignment>) {
    forall d, j :: Busy(before, d, j) ==> Busy(after, d, j)
  }

  /** Same workers in the same positions, calendars aside, and no booking undone. */
  ghost predicate Grows(before: seq<Worker>, after: seq<Worker>) {
    && |after| == |before|
    && forall i :: 0 <= i < |before| ==>
         after[i] == before[i].(assignments := after[i].assignments) && KeepsBusy(before[i].assignments, after[i].assignments)
  }

  lemma GrowsTrans(a: seq<Worker>, b: seq<Worker>, c: seq<Worker>)
    requires Grows(a, b) && Grows(b, c)
    ensures Grows(a, c)
  {
  }

  lemma BookAtGrows(workers: seq<Worker>, i: nat, site: Site, added: seq<Weekday>)
    requires i < |workers|
    ensures Grows(workers, BookAt(workers, i, site, added))
  {
    forall d, j | Busy(workers[i].assignments, d, j)
      ensures Busy(Book(workers[i].assignments, site, added), d, j)
    {
      BookKeepsBusy(workers[i].assignments, site, added, j, d);
    }
  }

  lemma FillSlotGrows(p: Progress, sites: seq<Site>, site: Site, skill: string, j: Weekday)
    ensures Grows(p.workers, FillSlot(p, sites, site, skill, j).workers)
  {
    var cands := SlotCandidates(p.workers, skill);
    match FirstPassingFrom(p.workers, sites, site, j, cands, 0)
    case None =>
    case Some(m) => BookAtGrows(p.workers, cands[m], site, [j]);
  }

  lemma {:induction false} FillPostsGrows(p: Progress, sites: seq<Site>, site: Site, skill: string, j: Weekday, n: int)
    ensures Grows(p.workers, FillPosts(p, sites, site, skill, j, n).workers)
    decreases n
  {
    if n > 0 {
      var q := FillPosts(p, sites, site, skill, j, n - 1);
      FillPostsGrows(p, sites, site, skill, j, n - 1);
      FillSlotGrows(q, sites, site, skill, j);
      GrowsTrans(p.workers, q.workers, FillSlot(q, sites, site, skill, j).workers);
    }
  }

  lemma {:induction false} FillDaysGrows(p: Progress, sites: seq<Site>, site: Site, skill: string, n: int, days: seq<Weekday>)
    ensures Grows(p.workers, FillDays(p, sites, site, skill, n, days).workers)
    decreases |days|
  {
    if days != [] {
      var q := FillPosts(p, sites, site, skill, days[0], n);
      FillPostsGrows(p, sites, site, skill, days[0], n);
      FillDaysGrows(q, sites, site, skill, n, days[1..]);
      GrowsTrans(p.workers, q.workers, FillDays(q, sites, site, skill, n, days[1..]).workers);
    }
  }

  lemma {:induction false} FillNeedsGrows(p: Progress, sites: seq<Site>, site: Site, needs: seq<Need>)
    ensures Grows(p.workers, FillNeeds(p, sites, site, needs).workers)
    decreases |needs|
  {
    if needs != [] {
      var q := FillDays(p, sites, site, needs[0].skill, needs[0].count, site.days);
      FillDaysGrows(p, sites, site, needs[0].skill, needs[0].count, site.days);
      FillNeedsGrows(q, sites, site, needs[1..]);
      GrowsTrans(p.workers, q.workers, FillNeeds(q, sites, site, needs[1..]).workers);
    }
  }

  /** The calendar is busy on weekday `j` at every date of the site's window. */
  predicate BusyThroughout(affs: seq<Assignment>, site: Site, j: Weekday) {
    forall d :: site.start <= d <= site.end ==> Busy(affs, d, j)
  }

  lemma GrowsKeepsIds(before: seq<Worker>, after: seq<Worker>)
    requires Grows(before, after) && DistinctWorkerIds(before)
    ensures DistinctWorkerIds(after)
  {
  }

  /**
   * Once booked for a slot, a worker is busy on that weekday all over the window, and stays so
   * whatever is booked afterwards: it is never able to take a slot of that weekday again.
   */
  lemma BookedNoLongerAble(workers: seq<Worker>, i: nat, later: seq<Worker>, sites: seq<Site>, site: Site, skill: string, j: Weekday)
    requires i < |workers| && Grows(BookAt(workers, i, site, [j]), later)
    ensures BusyThroughout(later[i].assignments, site, j)
    ensures !Able(later[i], sites, site, skill, j)
  {
    var booked := BookAt(workers, i, site, [j])[i].assignments;
    forall d | site.start <= d <= site.end
      ensures Busy(later[i].assignments, d, j)
    {
      BookedDaysBusy(workers[i].assignments, site, [j], j, d);
      assert KeepsBusy(booked, later[i].assignments);
    }
    PassesSomeDayMeaning(later[i], sites, site, j);
  }

  /**
   * The team grew from `prefix` only at its end, every worker added is busy on weekday `j` all
   * over the window, and no worker was added twice.
   */
  ghost predicate PostsDistinct(prefix: seq<WorkerId>, team: seq<WorkerId>, workers: seq<Worker>, site: Site, j: Weekday) {
    && |prefix| <= |team| && team[..|prefix|] == prefix
    && (forall t :: |prefix| <= t < |team| ==>
          exists i :: 0 <= i < |workers| && team[t] == workers[i].id && BusyThroughout(workers[i].assignments, site, j))
    && (forall a, b :: |prefix| <= a < b < |team| ==> team[a] != team[b])
  }

  /**
   * The `poste` loop for one weekday: the team only grows at its end, every worker it adds is busy
   * on that weekday all over the window, and with distinct ids no worker is added twice, so the
   * posts of one weekday go to different workers.
   */
  lemma {:induction false} FillPostsDistinct(p: Progress, sites: seq<Site>, site: Site, skill: string, j: Weekday, n: int)
    requires DistinctWorkerIds(p.workers)
    ensures var r := FillPosts(p, sites, site, skill, j, n);
      PostsDistinct(p.team, r.team, r.workers, site, j)
    decreases n
  {
    if n > 0 {
      var q := FillPosts(p, sites, site, skill, j, n - 1);
      FillPostsDistinct(p, sites, site, skill, j, n - 1);
      FillPostsGrows(p, sites, site, skill, j, n - 1);
      GrowsKeepsIds(p.workers, q.workers);
      FillSlotKeepsPostsDistinct(p.team, q, sites, site, skill, j);
    } else {
      assert p.team[..|p.team|] == p.team;
    }
  }

  /** One more post keeps the weekday's posts on different workers. */
  lemma FillSlotKeepsPostsDistinct(prefix: seq<WorkerId>, q: Progress, sites: seq<Site>, site: Site, skill: string, j: Weekday)
    requires DistinctWorkerIds(q.workers) && PostsDistinct(prefix, q.team, q.workers, site, j)
    ensures var r := FillSlot(q, sites, site, skill, j);
      PostsDistinct(prefix, r.team, r.workers, site, j)
  {
    var cands := SlotCandidates(q.workers, skill);
    FirstPassingIsFirst(q.workers, sites, site, j, cands, 0);
    match FirstPassingFrom(q.workers, sites, site, j, cands, 0)
    case None =>
    case Some(m) =>
      NewPostIsAnotherWorker(prefix, q, sites, site, skill, j, cands[m]);
  }

  /** The worker a post books was not busy throughout, so it is none of the workers the earlier posts booked. */
  lemma NewPostIsAnotherWorker(prefix: seq<WorkerId>, q: Progress, sites: seq<Site>, site: Site, skill: string, j: Weekday, i: nat)
    requires DistinctWorkerIds(q.workers) && i < |q.workers|
    requires PassesSomeDay(q.workers[i], sites, site, j)
    requires PostsDistinct(prefix, q.team, q.workers, site, j)
    ensures PostsDistinct(prefix, q.team + [q.workers[i].id], BookAt(q.workers, i, site, [j]), site, j)
  {
    var team := q.team + [q.workers[i].id];
    var workers := BookAt(q.workers, i, site, [j]);
    BookAtGrows(q.workers, i, site, [j]);
    PassesSomeDayMeaning(q.workers[i], sites, site, j);
    assert !BusyThroughout(q.workers[i].assignments, site, j);
    assert team[..|prefix|] == q.team[..|prefix|];
    BookedNoLongerAble(q.workers, i, workers, sites, site, skill, j);
    forall t | |prefix| <= t < |q.team|
      ensures team[t] != q.workers[i].id
      ensures exists i :: 0 <= i < |workers| && team[t] == workers[i].id && BusyThroughout(workers[i].assignments, site, j)
    {
      var i' :| 0 <= i' < |q.workers| && q.team[t] == q.workers[i'].id && BusyThroughout(q.workers[i'].assignments, site, j);
      assert i' != i;
      assert team[t] == q.team[t];
      forall d | site.start <= d <= site.end
        ensures Busy(workers[i'].assignments, d, j)
      {
        assert Busy(q.workers[i'].assignments, d, j);
      }
    }
    assert team[|q.team|] == workers[i].id;
  }

  /** A site's treatment only adds bookings: no worker is added, removed or otherwise changed, and no booking is undone. */
  lemma AllocateSiteGrows(workers: seq<Worker>, sites: seq<Site>, site: Site)
    ensures Grows(workers, AllocateSite(workers, sites, site).workers)
  {
    var cands := WholeSiteCandidates(workers, site);
    match FirstFitFrom(workers, sites, site, cands, 0)
    case Some(m) => BookAtGrows(workers, cands[m], site, site.days);
    case None =>
      if site.weeklyHours < 35.0 {
        FillNeedsGrows(Progress(workers, [], []), sites, site, site.needs);
      }
  }

  /**
   * The status rule: a site is `Planifié` exactly when a Strategy A candidate fits the whole site,
   * and then the first such candidate is booked on all the site's weekdays, is the whole team and
   * the note is cleared. Otherwise the site stays `Nouveau`, even when Strategy B covered every slot;
   * from 35 hours a week up nothing is booked and the note says no single worker was available.
   */
  lemma AllocateSiteOutcome(workers: seq<Worker>, sites: seq<Site>, site: Site)
    ensures var o := AllocateSite(workers, sites, site);
      var cands := WholeSiteCandidates(workers, site);
      && (o.status == Planifie || o.status == Nouveau)
      && (o.status == Planifie <==> exists m :: 0 <= m < |cands| && FitsWholeSite(workers[cands[m]], sites, site))
      && (o.status == Planifie ==>
            exists m :: (&& 0 <= m < |cands| && FitsWholeSite(workers[cands[m]], sites, site)
                         && (forall m' :: 0 <= m' < m ==> !FitsWholeSite(workers[cands[m']], sites, site))
                         && o == SiteOutcome(BookAt(workers, cands[m], site, site.days), [workers[cands[m]].id], Planifie, None)))
      && (o.status == Nouveau && site.weeklyHours >= 35.0 ==>
            o == SiteOutcome(workers, [], Nouveau, Some(UncoveredPrefix + NoSingleWorker)))
  {
    FirstFitIsFirst(workers, sites, site, WholeSiteCandidates(workers, site), 0);
  }

  // ---------------------------------------------------------------------------------------------
  // Strategy B as one list of posts

  /** One post of Strategy B: a skill on a weekday. */
  datatype Post = Post(skill: string, day: Weekday)

  /** The `poste` loop's posts: `n` times the same skill and weekday. */
  function Posts(skill: string, j: Weekday, n: int): (r: seq<Post>)
    ensures |r| == if n <= 0 then 0 else n
    ensures forall m :: 0 <= m < |r| ==> r[m] == Post(skill, j)
    decreases n
  {
    if n <= 0 then [] else Posts(skill, j, n - 1) + [Post(skill, j)]
  }

  /** The `jour` loop's posts for one skill, weekday after weekday. */
  function DayPosts(skill: string, n: int, days: seq<Weekday>): seq<Post>
    decreases |days|
  {
    if days == [] then [] else Posts(skill, days[0], n) + DayPosts(skill, n, days[1..])
  }

  /** Every post of `besoins_equipe`, in the order the three nested loops visit them. */
  function NeedPosts(needs: seq<Need>, days: seq<Weekday>): seq<Post>
    decreases |needs|
  {
    if needs == [] then [] else DayPosts(needs[0].skill, needs[0].count, days) + NeedPosts(needs[1..], days)
  }

  /** The posts filled one after the other, each in the state the earlier ones left. */
  function FillAll(p: Progress, sites: seq<Site>, site: Site, posts: seq<Post>): Progress
    decreases |posts|
  {
    if posts == [] then p else FillAll(FillSlot(p, sites, site, posts[0].skill, posts[0].day), sites, site, posts[1..])
  }

  lemma {:induction false} FillAllAppend(p: Progress, sites: seq<Site>, site: Site, a: seq<Post>, b: seq<Post>)
    ensures FillAll(p, sites, site, a + b) == FillAll(FillAll(p, sites, site, a), sites, site, b)
    decreases |a|
  {
    if a == [] {
      assert a + b == b;
    } else {
      assert (a + b)[0] == a[0];
      assert (a + b)[1..] == a[1..] + b;
      FillAllAppend(FillSlot(p, sites, site, a[0].skill, a[0].day), sites, site, a[1..], b);
    }
  }

  lemma {:induction false} FillPostsIsFillAll(p: Progress, sites: seq<Site>, site: Site, skill: string, j: Weekday, n: int)
    ensures FillPosts(p, sites, site, skill, j, n) == FillAll(p, sites, site, Posts(skill, j, n))
    decreases n
  {
    if n > 0 {
      FillPostsIsFillAll(p, sites, site, skill, j, n - 1);
      FillAllAppend(p, sites, site, Posts(skill, j, n - 1), [Post(skill, j)]);
      assert [Post(skill, j)][1..] == [];
    }
  }

  lemma {:induction false} FillDaysIsFillAll(p: Progress, sites: seq<Site>, site: Site, skill: string, n: int, days: seq<Weekday>)
    ensures FillDays(p, sites, site, skill, n, days) == FillAll(p, sites, site, DayPosts(skill, n, days))
    decreases |days|
  {
    if days != [] {
      var q := FillPosts(p, sites, site, skill, days[0], n);
      FillPostsIsFillAll(p, sites, site, skill, days[0], n);
      FillDaysIsFillAll(q, sites, site, skill, n, days[1..]);
      FillAllAppend(p, sites, site, Posts(skill, days[0], n), DayPosts(skill, n, days[1..]));
    }
  }

  /** The three nested loops fill the posts of `NeedPosts` one after the other. */
  lemma {:induction false} FillNeedsIsFillAll(p: Progress, sites: seq<Site>, site: Site, needs: seq<Need>)
    ensures FillNeeds(p, sites, site, needs) == FillAll(p, sites, site, NeedPosts(needs, site.days))
    decreases |needs|
  {
    if needs != [] {
      var q := FillDays(p, sites, site, needs[0].skill, needs[0].count, site.days);
      FillDaysIsFillAll(p, sites, site, needs[0].skill, needs[0].count, site.days);
      FillNeedsIsFillAll(q, sites, site, needs[1..]);
      FillAllAppend(p, sites, site, DayPosts(needs[0].skill, needs[0].count, site.days), NeedPosts(needs[1..], site.days));
    }
  }

  /** No worker of the store is able to take the post. */
  predicate NobodyAble(q: Progress, sites: seq<Site>, site: Site, post: Post) {
    forall k :: 0 <= k < |q.workers| ==> !Able(q.workers[k], sites, site, post.skill, post.day)
  }

  /** At most one worker is the one the candidate order picks. */
  lemma FirstAbleUnique(workers: seq<Worker>, sites: seq<Site>, site: Site, skill: string, j: Weekday, i: nat, i': nat)
    requires FirstAble(workers, sites, site, skill, j, i) && FirstAble(workers, sites, site, skill, j, i')
    ensures i == i'
  {
  }

  /** What became of one post: reported uncovered, or given to the worker with that id. */
  datatype Fate = Reported | StaffedBy(id: WorkerId)

  /**
   * The fate the rules give a post in state `q`: reported when nobody is able to take it, otherwise
   * given to the worker the candidate order picks.
   */
  ghost predicate FateAt(q: Progress, sites: seq<Site>, site: Site, post: Post, f: Fate) {
    if NobodyAble(q, sites, site, post) then f == Reported
    else f.StaffedBy? && exists i: nat :: FirstAble(q.workers, sites, site, post.skill, post.day, i) && f.id == q.workers[i].id
  }

  /** The rules give each post one fate. */
  lemma FateAtUnique(q: Progress, sites: seq<Site>, site: Site, post: Post, f: Fate, g: Fate)
    requires FateAt(q, sites, site, post, f) && FateAt(q, sites, site, post, g)
    ensures f == g
  {
    if !NobodyAble(q, sites, site, post) {
      var i: nat :| FirstAble(q.workers, sites, site, post.skill, post.day, i) && f.id == q.workers[i].id;
      var i': nat :| FirstAble(q.workers, sites, site, post.skill, post.day, i') && g.id == q.workers[i'].id;
      FirstAbleUnique(q.workers, sites, site, post.skill, post.day, i, i');
    }
  }

  /**
   * `fates` gives each post, in order, the fate the rules give it at its turn, that is in the state
   * the earlier posts left.
   */
  ghost predicate FatesFrom(q: Progress, sites: seq<Site>, site: Site, posts: seq<Post>, fates: seq<Fate>)
    decreases |posts|
  {
    && |fates| == |posts|
    && (posts != [] ==>
          && FateAt(q, sites, site, posts[0], fates[0])
          && FatesFrom(FillSlot(q, sites, site, posts[0].skill, posts[0].day), sites, site, posts[1..], fates[1..]))
  }

  /** The posts whose fate is `Reported`, as uncovered-list entries, in order. */
  function Gaps(posts: seq<Post>, fates: seq<Fate>): (r: seq<Gap>)
    requires |fates| == |posts|
    ensures |r| <= |posts|
  {
    if posts == [] then []
    else (if fates[0].Reported? then [SlotGap(posts[0].day, posts[0].skill)] else []) + Gaps(posts[1..], fates[1..])
  }

  /** The ids of the staffed posts, in order. */
  function Ids(fates: seq<Fate>): (r: seq<WorkerId>)
    ensures |r| <= |fates|
  {
    if fates == [] then [] else (if fates[0].StaffedBy? then [fates[0].id] else []) + Ids(fates[1..])
  }

  /** Every post is either reported or staffed, and not both. */
  lemma {:induction false} GapsAndIds(posts: seq<Post>, fates: seq<Fate>)
    requires |fates| == |posts|
    ensures |Gaps(posts, fates)| + |Ids(fates)| == |posts|
    decreases |posts|
  {
    if posts != [] {
      GapsAndIds(posts[1..], fates[1..]);
    }
  }

  /** The rules give a list of posts one list of fates. */
  lemma {:induction false} FatesFromUnique(q: Progress, sites: seq<Site>, site: Site, posts: seq<Post>, f: seq<Fate>, g: seq<Fate>)
    requires FatesFrom(q, sites, site, posts, f) && FatesFrom(q, sites, site, posts, g)
    ensures f == g
    decreases |posts|
  {
    if posts != [] {
      FateAtUnique(q, sites, site, posts[0], f[0], g[0]);
      FatesFromUnique(FillSlot(q, sites, site, posts[0].skill, posts[0].day), sites, site, posts[1..], f[1..], g[1..]);
      assert f == [f[0]] + f[1..] && g == [g[0]] + g[1..];
    }
  }

  /** One post: the team and the uncovered list grow by what its fate says. */
  lemma FillSlotFate(q: Progress, sites: seq<Site>, site: Site, post: Post)
    ensures exists f :: (&& FateAt(q, sites, site, post, f)
                         && FillSlot(q, sites, site, post.skill, post.day).team == q.team + Ids([f])
                         && FillSlot(q, sites, site, post.skill, post.day).uncovered == q.uncovered + Gaps([post], [f]))
  {
    if NobodyAble(q, sites, site, post) {
      FillSlotMeaning(q, sites, site, post.skill, post.day);
      assert Ids([Reported]) == [];
      assert Gaps([post], [Reported]) == [SlotGap(post.day, post.skill)];
      assert FateAt(q, sites, site, post, Reported);
    } else {
      FirstPassingIsFirstAble(q.workers, sites, site, post.skill, post.day);
      var cands := SlotCandidates(q.workers, post.skill);
      var i := cands[FirstPassingFrom(q.workers, sites, site, post.day, cands, 0).value];
      var f := StaffedBy(q.workers[i].id);
      assert Ids([f]) == [q.workers[i].id];
      assert Gaps([post], [f]) == [];
      assert FateAt(q, sites, site, post, f);
    }
  }

  /**
   * Filling posts gives each its fate at its turn: the uncovered list grows by exactly the posts
   * nobody was able to take, and the team by exactly the workers the candidate order picked, both
   * in post order.
   */
  lemma {:induction false} FillAllFates(q: Progress, sites: seq<Site>, site: Site, posts: seq<Post>)
    ensures exists fates :: (&& FatesFrom(q, sites, site, posts, fates)
                             && FillAll(q, sites, site, posts).uncovered == q.uncovered + Gaps(posts, fates)
                             && FillAll(q, sites, site, posts).team == q.team + Ids(fates))
    decreases |posts|
  {
    if posts == [] {
      assert FatesFrom(q, sites, site, posts, []);
    } else {
      var post := posts[0];
      var next := FillSlot(q, sites, site, post.skill, post.day);
      FillSlotFate(q, sites, site, post);
      var f :| && FateAt(q, sites, site, post, f)
               && next.team == q.team + Ids([f])
               && next.uncovered == q.uncovered + Gaps([post], [f]);
      FillAllFates(next, sites, site, posts[1..]);
      var rest :| && FatesFrom(next, sites, site, posts[1..], rest)
                  && FillAll(next, sites, site, posts[1..]).uncovered == next.uncovered + Gaps(posts[1..], rest)
                  && FillAll(next, sites, site, posts[1..]).team == next.team + Ids(rest);
      FillAllFatesStep(q, sites, site, posts, f, rest);
    }
  }

  lemma FillAllFatesStep(q: Progress, sites: seq<Site>, site: Site, posts: seq<Post>, f: Fate, rest: seq<Fate>)
    requires posts != []
    requires var next := FillSlot(q, sites, site, posts[0].skill, posts[0].day);
      && FateAt(q, sites, site, posts[0], f)
      && next.team == q.team + Ids([f])
      && next.uncovered == q.uncovered + Gaps([posts[0]], [f])
      && FatesFrom(next, sites, site, posts[1..], rest)
      && FillAll(next, sites, site, posts[1..]).uncovered == next.uncovered + Gaps(posts[1..], rest)
      && FillAll(next, sites, site, posts[1..]).team == next.team + Ids(rest)
    ensures FatesFrom(q, sites, site, posts, [f] + rest)
    ensures FillAll(q, sites, site, posts).uncovered == q.uncovered + Gaps(posts, [f] + rest)
    ensures FillAll(q, sites, site, posts).team == q.team + Ids([f] + rest)
  {
    FatesFromCons(q, sites, site, posts, f, rest);
    FillAllConsLists(q, sites, site, posts, f, rest);
  }

  lemma FillAllConsLists(q: Progress, sites: seq<Site>, site: Site, posts: seq<Post>, f: Fate, rest: seq<Fate>)
    requires posts != [] && |rest| == |posts| - 1
    requires var next := FillSlot(q, sites, site, posts[0].skill, posts[0].day);
      && next.team == q.team + Ids([f])
      && next.uncovered == q.uncovered + Gaps([posts[0]], [f])
      && FillAll(next, sites, site, posts[1..]).uncovered == next.uncovered + Gaps(posts[1..], rest)
      && FillAll(next, sites, site, posts[1..]).team == next.team + Ids(rest)
    ensures FillAll(q, sites, site, posts).uncovered == q.uncovered + Gaps(posts, [f] + rest)
    ensures FillAll(q, sites, site, posts).team == q.team + Ids([f] + rest)
  {
    GapsAndIdsCons(posts, f, rest);
    FillAllCons(q, sites, site, posts);
    var next := FillSlot(q, sites, site, posts[0].skill, posts[0].day);
    var r := FillAll(next, sites, site, posts[1..]);
    Chain(q.uncovered, next.uncovered, r.uncovered, Gaps([posts[0]], [f]), Gaps(posts[1..], rest));
    Chain(q.team, next.team, r.team, Ids([f]), Ids(rest));
  }

  lemma Chain<T>(a: seq<T>, b: seq<T>, c: seq<T>, x: seq<T>, y: seq<T>)
    requires b == a + x && c == b + y
    ensures c == a + (x + y)
  {
  }

  lemma FillAllCons(q: Progress, sites: seq<Site>, site: Site, posts: seq<Post>)
    requires posts != []
    ensures FillAll(q, sites, site, posts) == FillAll(FillSlot(q, sites, site, posts[0].skill, posts[0].day), sites, site, posts[1..])
  {
  }

  lemma FatesFromCons(q: Progress, sites: seq<Site>, site: Site, posts: seq<Post>, f: Fate, rest: seq<Fate>)
    requires posts != [] && FateAt(q, sites, site, posts[0], f)
    requires FatesFrom(FillSlot(q, sites, site, posts[0].skill, posts[0].day), sites, site, posts[1..], rest)
    ensures FatesFrom(q, sites, site, posts, [f] + rest)
  {
    assert ([f] + rest)[0] == f && ([f] + rest)[1..] == rest;
  }

  lemma GapsAndIdsCons(posts: seq<Post>, f: Fate, rest: seq<Fate>)
    requires posts != [] && |rest| == |posts| - 1
    ensures Ids([f] + rest) == Ids([f]) + Ids(rest)
    ensures Gaps(posts, [f] + rest) == Gaps([posts[0]], [f]) + Gaps(posts[1..], rest)
  {
    IdsCons(f, rest);
    GapsCons(posts, f, rest);
  }

  lemma IdsCons(f: Fate, rest: seq<Fate>)
    ensures Ids([f] + rest) == Ids([f]) + Ids(rest)
  {
    var l := [f] + rest;
    assert l[0] == f && l[1..] == rest;
    assert Ids([f]) == (if f.StaffedBy? then [f.id] else []) by {
      assert [f][1..] == [];
    }
  }

  lemma GapsCons(posts: seq<Post>, f: Fate, rest: seq<Fate>)
    requires posts != [] && |rest| == |posts| - 1
    ensures Gaps(posts, [f] + rest) == Gaps([posts[0]], [f]) + Gaps(posts[1..], rest)
  {
    var l := [f] + rest;
    assert l[0] == f && l[1..] == rest;
    assert Gaps([posts[0]], [f]) == (if f.Reported? then [SlotGap(posts[0].day, posts[0].skill)] else []) by {
      assert [posts[0]][1..] == [] && [f][1..] == [];
    }
  }

  /**
   * When no candidate fits the whole site of under 35 hours, the site stays `Nouveau`; each post of
   * `besoins_equipe`, in the order of the loops, is either given to the worker the candidate order
   * picks at its turn, who joins the team, or, when nobody is able to take it, listed in the note;
   * no note means every post was staffed.
   */
  lemma AllocateSiteSlots(workers: seq<Worker>, sites: seq<Site>, site: Site)
    requires site.weeklyHours < 35.0
    requires forall m :: 0 <= m < |WholeSiteCandidates(workers, site)| ==>
      !FitsWholeSite(workers[WholeSiteCandidates(workers, site)[m]], sites, site)
    ensures var o := AllocateSite(workers, sites, site);
      var posts := NeedPosts(site.needs, site.days);
      && o.status == Nouveau
      && exists fates :: (&& FatesFrom(Progress(workers, [], []), sites, site, posts, fates)
                          && o.team == Ids(fates)
                          && (o.note.None? <==> Gaps(posts, fates) == [])
                          && (o.note.Some? ==> o.note.value == UncoveredNote(Gaps(posts, fates)))
                          && |Gaps(posts, fates)| + |o.team| == |posts|)
  {
    var posts := NeedPosts(site.needs, site.days);
    var start := Progress(workers, [], []);
    FallbackIsFillNeeds(workers, sites, site);
    FillNeedsIsFillAll(start, sites, site, site.needs);
    FillAllFates(start, sites, site, posts);
    var fates :| && FatesFrom(start, sites, site, posts, fates)
                 && FillAll(start, sites, site, posts).uncovered == Gaps(posts, fates)
                 && FillAll(start, sites, site, posts).team == Ids(fates);
    GapsAndIds(posts, fates);
  }

  /** Strategy B's branch: the site is saved with what the decomposition produced. */
  lemma FallbackIsFillNeeds(workers: seq<Worker>, sites: seq<Site>, site: Site)
    requires site.weeklyHours < 35.0
    requires forall m :: 0 <= m < |WholeSiteCandidates(workers, site)| ==>
      !FitsWholeSite(workers[WholeSiteCandidates(workers, site)[m]], sites, site)
    ensures var p := FillNeeds(Progress(workers, [], []), sites, site, site.needs);
      AllocateSite(workers, sites, site)
        == SiteOutcome(p.workers, p.team, Nouveau, if p.uncovered == [] then None else Some(UncoveredNote(p.uncovered)))
  {
    FirstFitIsFirst(workers, sites, site, WholeSiteCandidates(workers, site), 0);
  }

  // ---------------------------------------------------------------------------------------------
  // The specification of the pass

  /** The positions of the sites whose status is `Nouveau` (`Chantier.find({ statut: 'Nouveau' })`), from `k` on. */
  function NouveauFrom(sites: seq<Site>, k: nat): (r: seq<nat>)
    ensures forall m :: 0 <= m < |r| ==> k <= r[m] < |sites|
    decreases |sites| - k
  {
    if k >= |sites| then []
    else if sites[k].status == Nouveau then [k] + NouveauFrom(sites, k + 1)
    else NouveauFrom(sites, k + 1)
  }

  datatype PassState = PassState(workers: seq<Worker>, sites: seq<Site>, success: nat, failed: nat)

  /** `chantier.save()` with the new team, status and note. */
  function Saved(site: Site, o: SiteOutcome): Site {
    site.(team := o.team, status := o.status, note := o.note)
  }

  /** The treatment of the site at position `k` of the snapshot, `chantier.save()` and the counters. */
  function Step(s: PassState, snapshot: seq<Site>, k: nat): PassState
    requires k < |s.sites|
    requires k < |snapshot|
  {
    var site := snapshot[k];
    var o := AllocateSite(s.workers, s.sites, site);
    var planned := o.status == Planifie;
    PassState(o.workers, s.sites[k := Saved(site, o)],
              s.success + (if planned then 1 else 0), s.failed + (if planned then 0 else 1))
  }

  /** The pass over the remaining sites `todo`, each read from the snapshot the query returned. */
  function PassFrom(s: PassState, snapshot: seq<Site>, todo: seq<nat>): PassState
    requires |s.sites| == |snapshot|
    requires forall m :: 0 <= m < |todo| ==> todo[m] < |snapshot|
    decreases |todo|
  {
    if todo == [] then s
    else PassFrom(Step(s, snapshot, todo[0]), snapshot, todo[1..])
  }

  function Pass(workers: seq<Worker>, sites: seq<Site>): PassState {
    PassFrom(PassState(workers, sites, 0, 0), sites, NouveauFrom(sites, 0))
  }

  /** The query returns each `Nouveau` site once, in collection order, and no other. */
  lemma {:induction false} NouveauFromSpec(sites: seq<Site>, k: nat)
    ensures forall i :: i in NouveauFrom(sites, k) <==> k <= i < |sites| && sites[i].status == Nouveau
    ensures Increasing(NouveauFrom(sites, k))
    decreases |sites| - k
  {
    if k < |sites| {
      NouveauFromSpec(sites, k + 1);
      var rest := NouveauFrom(sites, k + 1);
      if sites[k].status == Nouveau {
        assert NouveauFrom(sites, k) == [k] + rest;
        assert forall i :: i in [k] + rest <==> i == k || i in rest;
      }
    }
  }

  /** The saved site differs from the one read only in team, status and note, and its status is one of the two the pass writes. */
  predicate SavedFrom(now: Site, read: Site) {
    && now == read.(team := now.team, status := now.status, note := now.note)
    && (now.status == Planifie || now.status == Nouveau)
  }

  /**
   * One step saves the treated site, leaves every other site alone, counts the site as a success
   * exactly when it was saved `Planifié` and as a failure otherwise, and only adds bookings.
   */
  lemma StepFacts(s: PassState, snapshot: seq<Site>, k: nat)
    requires k < |s.sites| && k < |snapshot|
    ensures var r := Step(s, snapshot, k);
      && |r.sites| == |s.sites|
      && SavedFrom(r.sites[k], snapshot[k])
      && (forall m :: 0 <= m < |s.sites| && m != k ==> r.sites[m] == s.sites[m])
      && r.success == s.success + (if r.sites[k].status == Planifie then 1 else 0)
      && r.failed == s.failed + (if r.sites[k].status == Planifie then 0 else 1)
      && Grows(s.workers, r.workers)
  {
    AllocateSiteOutcome(s.workers, s.sites, snapshot[k]);
    AllocateSiteGrows(s.workers, s.sites, snapshot[k]);
  }

  /** How many of the positions `todo` hold a site whose status is `Planifié`. */
  function PlannedAmong(sites: seq<Site>, todo: seq<nat>): nat
    requires forall m :: 0 <= m < |todo| ==> todo[m] < |sites|
    ensures PlannedAmong(sites, todo) <= |todo|
  {
    if todo == [] then 0 else (if sites[todo[0]].status == Planifie then 1 else 0) + PlannedAmong(sites, todo[1..])
  }

  lemma {:induction false} PassFromFacts(s: PassState, snapshot: seq<Site>, todo: seq<nat>)
    requires |s.sites| == |snapshot|
    requires forall m :: 0 <= m < |todo| ==> todo[m] < |snapshot|
    requires Increasing(todo)
    ensures var r := PassFrom(s, snapshot, todo);
      && |r.sites| == |s.sites|
      && r.success == s.success + PlannedAmong(r.sites, todo)
      && r.failed == s.failed + |todo| - PlannedAmong(r.sites, todo)
      && (forall k :: 0 <= k < |s.sites| && k !in todo ==> r.sites[k] == s.sites[k])
      && (forall k :: 0 <= k < |s.sites| && k in todo ==> SavedFrom(r.sites[k], snapshot[k]))
      && Grows(s.workers, r.workers)
    decreases |todo|
  {
    if todo != [] {
      var next := Step(s, snapshot, todo[0]);
      StepFacts(s, snapshot, todo[0]);
      assert Increasing(todo[1..]) by {
        forall a, b | 0 <= a < b < |todo[1..]| ensures todo[1..][a] < todo[1..][b] {
          assert todo[1..][a] == todo[a + 1] && todo[1..][b] == todo[b + 1];
        }
      }
      PassFromFacts(next, snapshot, todo[1..]);
      var r := PassFrom(next, snapshot, todo[1..]);
      GrowsTrans(s.workers, next.workers, r.workers);
      assert forall k :: k in todo <==> k == todo[0] || k in todo[1..];
      assert todo[0] !in todo[1..] by {
        forall m | 0 <= m < |todo[1..]| ensures todo[1..][m] != todo[0] {
          assert todo[1..][m] == todo[m + 1];
        }
      }
      assert r.sites[todo[0]] == next.sites[todo[0]];
    }
  }

  /**
   * The pass saves every `Nouveau` site once, with status `Planifié` or `Nouveau` and only its
   * team, status and note changed, and leaves every other site as it was. `success` is the number
   * of `Nouveau` sites it saved `Planifié` and `failed` the number of the others, and it only ever
   * adds bookings to the workers.
   */
  lemma PassMeaning(workers: seq<Worker>, sites: seq<Site>)
    ensures var r := Pass(workers, sites);
      var todo := NouveauFrom(sites, 0);
      && |r.sites| == |sites|
      && (forall i :: i in todo <==> 0 <= i < |sites| && sites[i].status == Nouveau)
      && r.success == PlannedAmong(r.sites, todo)
      && r.failed == |todo| - PlannedAmong(r.sites, todo)
      && (forall k :: 0 <= k < |sites| && sites[k].status != Nouveau ==> r.sites[k] == sites[k])
      && (forall k :: 0 <= k < |sites| && sites[k].status == Nouveau ==> SavedFrom(r.sites[k], sites[k]))
      && Grows(workers, r.workers)
  {
    NouveauFromSpec(sites, 0);
    PassFromFacts(PassState(workers, sites, 0, 0), sites, NouveauFrom(sites, 0));
  }

  // ---------------------------------------------------------------------------------------------
  // The imperative pass

  /** The tests at one concrete date, in the source's order: busy, hours, end of contract. */
  method TestDate(w: Worker, sites: seq<Site>, hParJour: real, jour: Weekday, current: Day) returns (ok: bool)
    ensures ok == PassesOn(w, sites, hParJour, jour, current)
  {
    var dejaAffecte := Busy(w.assignments, current, jour);
    if dejaAffecte {
      return false;
    }
    var heuresJour := HeuresAffecteesJour(w, sites, jour);
    var heuresSemaine := HeuresAffecteesSemaine(w, sites, WeekNumber(current), YearOf(current));
    if heuresJour + hParJour > 7.0 || heuresSemaine + hParJour > 35.0 {
      return false;
    }
    return !Expired(w, current);
  }

  /** The date loop of Strategy A for one weekday: every concrete date must pass. */
  method CheckWeekday(w: Worker, sites: seq<Site>, site: Site, jour: Weekday) returns (ok: bool)
    ensures ok == FitsOnWeekday(w, sites, site, jour)
  {
    var hParJour := HoursPerServiceDay(site);
    var current := AdvanceToWeekday(site.start, jour);
    ghost var goal := EveryWeekPasses(w, sites, hParJour, jour, current, site.end);
    while current <= site.end
      invariant EveryWeekPasses(w, sites, hParJour, jour, current, site.end) == goal
      decreases site.end + 1 - current
    {
      var passes := TestDate(w, sites, hParJour, jour, current);
      assert EveryWeekPasses(w, sites, hParJour, jour, current, site.end)
        == (passes && EveryWeekPasses(w, sites, hParJour, jour, current + 7, site.end));
      if !passes {
        return false;
      }
      current := current + 7;
    }
    return true;
  }

  /** Strategy A's test of one candidate: the weekday loops, stopping at the first failure. */
  method CheckWholeSite(w: Worker, sites: seq<Site>, site: Site) returns (dispo: bool)
    ensures dispo == FitsWholeSite(w, sites, site)
  {
    for k := 0 to |site.days|
      invariant FitsEveryDay(w, sites, site, site.days[k..]) == FitsWholeSite(w, sites, site)
    {
      assert site.days[k..][1..] == site.days[k + 1..];
      var ok := CheckWeekday(w, sites, site, site.days[k]);
      if !ok {
        return false;
      }
    }
    return true;
  }

  /** Strategy B's date loop for one candidate: a failing date moves on to the next week. */
  method ScanSlotDates(w: Worker, sites: seq<Site>, site: Site, jour: Weekday) returns (trouve: bool)
    ensures trouve == PassesSomeDay(w, sites, site, jour)
  {
    var hParJour := HoursPerServiceDay(site);
    var current := AdvanceToWeekday(site.start, jour);
    ghost var goal := SomeWeekPasses(w, sites, hParJour, jour, current, site.end);
    while current <= site.end
      invariant SomeWeekPasses(w, sites, hParJour, jour, current, site.end) == goal
      decreases site.end + 1 - current
    {
      var passes := TestDate(w, sites, hParJour, jour, current);
      assert SomeWeekPasses(w, sites, hParJour, jour, current, site.end)
        == (passes || SomeWeekPasses(w, sites, hParJour, jour, current + 7, site.end));
      if passes {
        return true;
      }
      current := current + 7;
    }
    return false;
  }

  /** `if (!jours.includes(jour)) jours.push(jour)` for each added weekday. */
  method MergeInto(days: seq<Weekday>, added: seq<Weekday>) returns (jours: seq<Weekday>)
    ensures jours == MergeDays(days, added)
  {
    jours := days;
    for m := 0 to |added|
      invariant MergeDays(jours, added[m..]) == MergeDays(days, added)
    {
      assert added[m..][1..] == added[m + 1..];
      if added[m] !in jours {
        jours := jours + [added[m]];
      }
    }
  }

  /** The merge rule applied to the worker at position `i`, then `salarie.save()`. */
  method BookWorker(db: Database, i: nat, site: Site, added: seq<Weekday>)
    requires i < |db.workers|
    modifies db
    ensures db.workers == BookAt(old(db.workers), i, site, added)
    ensures db.sites == old(db.sites)
  {
    var salarie := db.workers[i];
    var affectationExistante := FindRecord(salarie.assignments, site);
    if affectationExistante.Some? {
      var k := affectationExistante.value;
      var jours := MergeInto(salarie.assignments[k].days, added);
      salarie := salarie.(assignments := salarie.assignments[k := salarie.assignments[k].(days := jours)]);
    } else {
      salarie := salarie.(assignments := salarie.assignments + [Assignment(site.id, site.start, site.end, added, map[])]);
    }
    db.workers := db.workers[i := salarie];
  }

  /** Strategy A: the first candidate that fits the whole site is booked on all its weekdays. */
  method WholeSite(db: Database, site: Site) returns (affecte: bool, equipe: seq<WorkerId>)
    modifies db
    ensures db.sites == old(db.sites)
    ensures var cands := WholeSiteCandidates(old(db.workers), site);
      match FirstFitFrom(old(db.workers), old(db.sites), site, cands, 0)
      case Some(m) => affecte && equipe == [old(db.workers)[cands[m]].id] && db.workers == BookAt(old(db.workers), cands[m], site, site.days)
      case None => !affecte && equipe == [] && db.workers == old(db.workers)
  {
    var candidats := WholeSiteCandidates(db.workers, site);
    for c := 0 to |candidats|
      invariant db.workers == old(db.workers) && db.sites == old(db.sites)
      invariant FirstFitFrom(db.workers, db.sites, site, candidats, c) == FirstFitFrom(db.workers, db.sites, site, candidats, 0)
    {
      var salarie := db.workers[candidats[c]];
      var dispo := CheckWholeSite(salarie, db.sites, site);
      if dispo {
        BookWorker(db, candidats[c], site, site.days);
        return true, [salarie.id];
      }
    }
    return false, [];
  }

  /** One post of Strategy B. */
  method FillSlotInPlace(db: Database, site: Site, competence: string, jour: Weekday, equipe: seq<WorkerId>, nonCouverts: seq<Gap>)
    returns (equipe': seq<WorkerId>, nonCouverts': seq<Gap>)
    modifies db
    ensures db.sites == old(db.sites)
    ensures Progress(db.workers, equipe', nonCouverts') == FillSlot(Progress(old(db.workers), equipe, nonCouverts), old(db.sites), site, competence, jour)
  {
    var candidats := SlotCandidates(db.workers, competence);
    for c := 0 to |candidats|
      invariant db.workers == old(db.workers) && db.sites == old(db.sites)
      invariant FirstPassingFrom(db.workers, db.sites, site, jour, candidats, c)
        == FirstPassingFrom(db.workers, db.sites, site, jour, candidats, 0)
    {
      var salarie := db.workers[candidats[c]];
      var trouve := ScanSlotDates(salarie, db.sites, site, jour);
      if trouve {
        BookWorker(db, candidats[c], site, [jour]);
        return equipe + [salarie.id], nonCouverts;
      }
    }
    return equipe, nonCouverts + [SlotGap(jour, competence)];
  }

  /** One more post is one more `FillSlot` after the posts so far. */
  lemma FillPostsStep(p: Progress, sites: seq<Site>, site: Site, skill: string, j: Weekday, n: nat)
    ensures FillPosts(p, sites, site, skill, j, n + 1) == FillSlot(FillPosts(p, sites, site, skill, j, n), sites, site, skill, j)
  {
  }

  /** The `poste` loop: `nombreRequis` slots of one skill on one weekday. */
  method FillPostsInPlace(db: Database, site: Site, competence: string, jour: Weekday, nombreRequis: int,
                          equipe: seq<WorkerId>, nonCouverts: seq<Gap>)
    returns (equipe': seq<WorkerId>, nonCouverts': seq<Gap>)
    modifies db
    ensures db.sites == old(db.sites)
    ensures Progress(db.workers, equipe', nonCouverts')
      == FillPosts(Progress(old(db.workers), equipe, nonCouverts), old(db.sites), site, competence, jour, nombreRequis)
  {
    equipe', nonCouverts' := equipe, nonCouverts;
    var total := if nombreRequis > 0 then nombreRequis else 0;
    for poste := 0 to total
      invariant db.sites == old(db.sites)
      invariant Progress(db.workers, equipe', nonCouverts')
        == FillPosts(Progress(old(db.workers), equipe, nonCouverts), db.sites, site, competence, jour, poste)
    {
      FillPostsStep(Progress(old(db.workers), equipe, nonCouverts), db.sites, site, competence, jour, poste);
      equipe', nonCouverts' := FillSlotInPlace(db, site, competence, jour, equipe', nonCouverts');
    }
  }

  /** The `jour` loop for one skill. */
  method FillDaysInPlace(db: Database, site: Site, competence: string, nombreRequis: int,
                         equipe: seq<WorkerId>, nonCouverts: seq<Gap>)
    returns (equipe': seq<WorkerId>, nonCouverts': seq<Gap>)
    modifies db
    ensures db.sites == old(db.sites)
    ensures Progress(db.workers, equipe', nonCouverts')
      == FillDays(Progress(old(db.workers), equipe, nonCouverts), old(db.sites), site, competence, nombreRequis, site.days)
  {
    equipe', nonCouverts' := equipe, nonCouverts;
    for d := 0 to |site.days|
      invariant db.sites == old(db.sites)
      invariant FillDays(Progress(db.workers, equipe', nonCouverts'), db.sites, site, competence, nombreRequis, site.days[d..])
        == FillDays(Progress(old(db.workers), equipe, nonCouverts), db.sites, site, competence, nombreRequis, site.days)
    {
      assert site.days[d..][1..] == site.days[d + 1..];
      equipe', nonCouverts' := FillPostsInPlace(db, site, competence, site.days[d], nombreRequis, equipe', nonCouverts');
    }
  }

  /** Strategy B: the `competence` loop over `besoins_equipe`. */
  method Decompose(db: Database, site: Site) returns (equipe: seq<WorkerId>, nonCouverts: seq<Gap>)
    modifies db
    ensures db.sites == old(db.sites)
    ensures Progress(db.workers, equipe, nonCouverts) == FillNeeds(Progress(old(db.workers), [], []), old(db.sites), site, site.needs)
  {
    equipe, nonCouverts := [], [];
    for i := 0 to |site.needs|
      invariant db.sites == old(db.sites)
      invariant FillNeeds(Progress(db.workers, equipe, nonCouverts), db.sites, site, site.needs[i..])
        == FillNeeds(Progress(old(db.workers), [], []), db.sites, site, site.needs)
    {
      assert site.needs[i..][1..] == site.needs[i + 1..];
      equipe, nonCouverts := FillDaysInPlace(db, site, site.needs[i].skill, site.needs[i].count, equipe, nonCouverts);
    }
  }

  /** The treatment of one site, up to (not including) `chantier.save()`. */
  method AllocateOne(db: Database, chantier: Site) returns (equipe: seq<WorkerId>, statut: Status, note: Option<string>)
    modifies db
    ensures db.sites == old(db.sites)
    ensures SiteOutcome(db.workers, equipe, statut, note) == AllocateSite(old(db.workers), old(db.sites), chantier)
  {
    var joursNonCouverts: seq<Gap> := [];
    var affecte;
    affecte, equipe := WholeSite(db, chantier);
    if !affecte {
      if chantier.weeklyHours >= 35.0 {
        joursNonCouverts := joursNonCouverts + [NoSingleWorkerGap];
      } else {
        equipe, joursNonCouverts := Decompose(db, chantier);
      }
    }
    statut := if affecte && |joursNonCouverts| == 0 then Planifie else Nouveau;
    note := if |joursNonCouverts| > 0 then Some(UncoveredNote(joursNonCouverts)) else None;
  }

  /** One iteration of the pass: the site is treated and saved, and one counter moves. */
  method PlanSite(db: Database, ghost snapshot: seq<Site>, k: nat, chantier: Site, success: nat, failed: nat)
    returns (success': nat, failed': nat)
    requires k < |db.sites| && k < |snapshot| && chantier == snapshot[k]
    modifies db
    ensures PassState(db.workers, db.sites, success', failed')
      == Step(PassState(old(db.workers), old(db.sites), success, failed), snapshot, k)
  {
    var equipe, statut, note := AllocateOne(db, chantier);
    db.sites := db.sites[k := chantier.(team := equipe, status := statut, note := note)];
    if statut == Planifie {
      success', failed' := success + 1, failed;
    } else {
      success', failed' := success, failed + 1;
    }
  }

  /** `affectationFractionneeParHeure`. */
  method AffectationFractionneeParHeure(db: Database) returns (success: nat, failed: nat)
    modifies db
    ensures PassState(db.workers, db.sites, success, failed) == Pass(old(db.workers), old(db.sites))
  {
    var chantiers := db.sites;
    var todo := NouveauFrom(chantiers, 0);
    success, failed := 0, 0;
    for t := 0 to |todo|
      invariant |db.sites| == |chantiers|
      invariant PassFrom(PassState(db.workers, db.sites, success, failed), chantiers, todo[t..]) == Pass(old(db.workers), old(db.sites))
    {
      assert todo[t..][1..] == todo[t + 1..];
      success, failed := PlanSite(db, chantiers, todo[t], chantiers[todo[t]], success, failed);
    }
  }
}
