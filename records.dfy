/**
 * The two Mongoose schemas, src/models/salarie.model.js and src/models/chantier.model.js: a worker
 * (salarié) owns an ordered calendar of assignment records; a site (chantier) states its staffing
 * needs, its service window, its service weekdays and its weekly hours.
 */
module Records {
  import opened Wrappers
  import opened Calendar

  type WorkerId = nat
  type SiteId = nat

  /** `type_contrat`: permanent (CDI) or fixed-term (CDD). */
  datatype Contract = CDI | CDD

  /** `statut`: the four values of the enum; `Nouveau` is the default. */
  datatype Status = Nouveau | Planifie | EnCours | Termine

  datatype Coords = Coords(lat: real, lng: real)

  /**
   * One entry of `affectations` (affectationSchema): the site it books, its window, the weekdays
   * it covers and a per-weekday hours map that defaults to empty.
   */
  datatype Assignment = Assignment(
    site: SiteId,
    start: Day,
    end: Day,
    days: seq<Weekday>,
    hoursByDay: map<Weekday, real>)

  /** A worker (salarieSchema). */
  datatype Worker = Worker(
    id: WorkerId,
    name: string,
    skills: seq<string>,
    address: string,
    coords: Option<Coords>,
    contract: Contract,
    contractEnd: Option<Day>,
    contractStart: Option<Day>,
    durationMonths: Option<real>,
    assignments: seq<Assignment>)

  /** One entry of `besoins_equipe`: a skill and the headcount it needs. */
  datatype Need = Need(skill: string, count: int)

  /** A site (chantierSchema). `besoins_equipe` is a Map, kept here in its insertion order. */
  datatype Site = Site(
    id: SiteId,
    name: string,
    address: string,
    coords: Option<Coords>,
    start: Day,
    end: Day,
    needs: seq<Need>,
    note: Option<string>,
    status: Status,
    team: seq<WorkerId>,
    weeklyHours: real,
    days: seq<Weekday>)

  /** The schema's `default: 'Nouveau'`. */
  const DefaultStatus: Status := Nouveau

  /**
   * What the worker schema's validators demand at save time: a non-empty name, address and skill
   * names, and a contract end date whenever the contract is a CDD.
   */
  predicate WorkerSchemaValid(w: Worker) {
    && |w.name| > 0
    && |w.address| > 0
    && (forall k :: 0 <= k < |w.skills| ==> |w.skills[k]| > 0)
    && (w.contract == CDD ==> w.contractEnd.Some?)
  }

  /** What the site schema's validators demand at save time (the Map keys are distinct). */
  predicate SiteSchemaValid(s: Site) {
    && |s.name| > 0
    && |s.address| > 0
    && (forall a, b :: 0 <= a < b < |s.needs| ==> s.needs[a].skill != s.needs[b].skill)
  }

  /** The `type_prestation` virtual. */
  datatype PrestationType = PleineSemaine | Espacee | Inconnue

  function TypePrestation(weeklyHours: real): (t: PrestationType)
    ensures t == PleineSemaine <==> weeklyHours == 35.0
    ensures t == Espacee <==> weeklyHours < 35.0
    ensures t == Inconnue <==> weeklyHours > 35.0
  {
    if weeklyHours == 35.0 then PleineSemaine
    else if weeklyHours < 35.0 then Espacee
    else Inconnue
  }

  /** `nombre_heures_par_semaine / (jours_prestation.length || 1)`: the hours of one service day. */
  function HoursPerServiceDay(s: Site): real {
    s.weeklyHours / (if |s.days| == 0 then 1 else |s.days|) as real
  }

  /** `hpd` hours for each of `count` service dates, added one date at a time as the simulation and the report do. */
  function DatesHours(hpd: real, count: nat): real {
    if count == 0 then 0.0 else hpd + DatesHours(hpd, count - 1)
  }

  lemma {:induction false} DatesHoursIsProduct(hpd: real, count: nat)
    ensures DatesHours(hpd, count) == hpd * count as real
  {
    if count > 0 {
      DatesHoursIsProduct(hpd, count - 1);
    }
  }

  /** `m[key] || 0`: the hours filed under a key of an hours dictionary. */
  function Get<K>(m: map<K, real>, key: K): real {
    if key in m then m[key] else 0.0
  }

  /** `m[key] = (m[key] || 0) + h`. */
  function Add<K(!new)>(m: map<K, real>, key: K, h: real): (r: map<K, real>)
    ensures key in r && r[key] == Get(m, key) + h
    ensures forall k :: k != key ==> Get(r, k) == Get(m, k)
  {
    m[key := Get(m, key) + h]
  }

  /** The skills of `besoins_equipe`, in declaration order (`Array.from(besoins.keys())`). */
  function SkillsOf(needs: seq<Need>): (r: seq<string>)
    ensures |r| == |needs|
    ensures forall k :: 0 <= k < |needs| ==> r[k] == needs[k].skill
  {
    if needs == [] then [] else [needs[0].skill] + SkillsOf(needs[1..])
  }

  /** `Chantier.findById(id)`: the first site with that id, if any. */
  function Lookup(sites: seq<Site>, id: SiteId): (r: Option<Site>)
    ensures r.Some? <==> exists k :: 0 <= k < |sites| && sites[k].id == id
    ensures r.Some? ==> r.value in sites && r.value.id == id
  {
    if sites == [] then None
    else if sites[0].id == id then Some(sites[0])
    else Lookup(sites[1..], id)
  }

  /** Mongo `_id`s are unique. */
  predicate DistinctWorkerIds(workers: seq<Worker>) {
    forall a, b :: 0 <= a < b < |workers| ==> workers[a].id != workers[b].id
  }

  predicate DistinctSiteIds(sites: seq<Site>) {
    forall a, b :: 0 <= a < b < |sites| ==> sites[a].id != sites[b].id
  }

  /** With distinct ids, looking up the id of an entry finds that very entry. */
  lemma {:induction false} LookupFindsEntry(sites: seq<Site>, k: nat)
    requires DistinctSiteIds(sites) && k < |sites|
    ensures Lookup(sites, sites[k].id) == Some(sites[k])
  {
    if k > 0 {
      assert sites[0].id != sites[k].id;
      LookupFindsEntry(sites[1..], k - 1);
    }
  }
}
