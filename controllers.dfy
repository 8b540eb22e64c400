/**
 * The decision logic of the two creation endpoints: `createChantier` in
 * src/controllers/chantier.controller.js and `createSalarie` in
 * src/controllers/salarie.controller.js. A request body becomes either an error message or the
 * document that is saved, with the warning the response carries when no coordinates are known.
 * The geocoding call is a parameter: `None` stands for a failed or empty lookup.
 */
module Controllers {
  import opened Wrappers
  import opened Calendar
  import opened Records

  const RatioMessage: string := "Impossible d'affecter plus de 8h par jour sur ce chantier."
  const MissingFieldsMessage: string := "Champs obligatoires manquants ou invalides."
  const CddEndMessage: string := "fin_contrat est obligatoire pour un CDD."
  /** A Mongoose `ValidationError` at `save()` (its wording is Mongoose's own). */
  const SchemaMessage: string := "validation failed"
  const NoCoordsWarning: string := "Adresse non géocodable, coordonnées absentes"

  /** A saved document and the `warning` of the response, if any. */
  datatype Created<T> = Created(doc: T, warning: Option<string>)

  /** `coordonnees` from the body, else the geocoder's answer. */
  function CoordsAfterGeocode(given: Option<Coords>, geocoded: Option<Coords>): (c: Option<Coords>)
    ensures c.None? <==> given.None? && geocoded.None?
    ensures given.Some? ==> c == given
  {
    if given.Some? then given else geocoded
  }

  /** The response's warning: present exactly when the document has no coordinates. */
  function CoordsWarning(c: Option<Coords>): (w: Option<string>)
    ensures w.Some? <==> c.None?
  {
    if c.None? then Some(NoCoordsWarning) else None
  }

  // ---------------------------------------------------------------------------------------------
  // createChantier

  /**
   * The body of `POST /api/chantiers`. An absent field is `None`; a weekly-hours value that is not
   * a number (`Number(x)` is NaN) is `None` too; `hoursPerDay` is `Some` only when the body holds a
   * JavaScript number.
   */
  datatype SiteRequest = SiteRequest(
    name: string,
    address: string,
    start: Option<Day>,
    end: Option<Day>,
    needs: seq<Need>,
    hoursPerDay: Option<real>,
    weeklyHours: Option<real>,
    days: Option<seq<string>>,
    coords: Option<Coords>)

  /** `nombre_heures_par_semaine` is truthy: present, a number and not zero. */
  predicate WeeklyGiven(req: SiteRequest) {
    req.weeklyHours.Some? && req.weeklyHours.value != 0.0
  }

  /** The 8 h/day check: the weekly hours shared over the listed service days exceed 8. */
  predicate ExceedsDailyCap(req: SiteRequest) {
    && WeeklyGiven(req)
    && req.days.Some? && |req.days.value| > 0
    && req.weeklyHours.value / |req.days.value| as real > 8.0
  }

  /** `Math.ceil((d2 - d1) / 86400000 + 1)` on two midnights: the days of the window, both ends included. */
  function WindowDays(start: Day, end: Day): int {
    end - start + 1
  }

  /** The weekly hours saved: the given value, else hours per day times the window's days up to a week, else 0. */
  function WeeklyHours(req: SiteRequest): real {
    if WeeklyGiven(req) then req.weeklyHours.value
    else if req.hoursPerDay.Some? && req.start.Some? && req.end.Some? then
      var n := WindowDays(req.start.value, req.end.value);
      req.hoursPerDay.value * (if n < 7 then n else 7) as real
    else 0.0
  }

  /** The saved `jours_prestation`: a fixed list for 21, 14 and 7 weekly hours, else empty. */
  function DerivedDays(weekly: real): (r: seq<Weekday>)
    ensures r != [] <==> weekly == 21.0 || weekly == 14.0 || weekly == 7.0
  {
    if 0.0 < weekly < 35.0 then
      if weekly == 21.0 then [Lundi, Mercredi, Vendredi]
      else if weekly == 14.0 then [Lundi, Jeudi]
      else if weekly == 7.0 then [Mercredi]
      else []
    else []
  }

  /**
   * `createChantier`: the 8 h/day check, then the geocode, the derived weekly hours and service
   * days, and the schema's validation at `save()` (dates required, name and address non-empty,
   * distinct skills).
   */
  function CreateSite(req: SiteRequest, geocoded: Option<Coords>, id: SiteId): Result<Created<Site>, string> {
    if ExceedsDailyCap(req) then Err(RatioMessage)
    else if req.start.None? || req.end.None? then Err(SchemaMessage)
    else
      var coords := CoordsAfterGeocode(req.coords, geocoded);
      var weekly := WeeklyHours(req);
      var site := Site(id, req.name, req.address, coords, req.start.value, req.end.value, req.needs,
                       None, DefaultStatus, [], weekly, DerivedDays(weekly));
      if !SiteSchemaValid(site) then Err(SchemaMessage)
      else Ok(Created(site, CoordsWarning(coords)))
  }

  /**
   * A derived service-day list always gives exactly 7 hours per service day, over distinct
   * weekdays, and marks the site `espacée`.
   */
  lemma DerivedDaysSevenHoursEach(weekly: real)
    requires DerivedDays(weekly) != []
    ensures weekly / |DerivedDays(weekly)| as real == 7.0
    ensures forall a, b :: 0 <= a < b < |DerivedDays(weekly)| ==> DerivedDays(weekly)[a] != DerivedDays(weekly)[b]
    ensures TypePrestation(weekly) == Espacee
  {
  }

  /**
   * The site is refused with the ratio message exactly when the 8 h/day check fails; it is
   * created exactly when that check passes, both dates are given and the schema accepts it. A
   * created site is `Nouveau`, without team or note, keeps the given weekly hours when they are
   * truthy, takes its service days from its weekly hours alone, keeps the given coordinates, and
   * the response warns exactly when it has none.
   */
  lemma CreateSiteOutcome(req: SiteRequest, geocoded: Option<Coords>, id: SiteId)
    ensures var r := CreateSite(req, geocoded, id);
      && (r == Err(RatioMessage) <==> ExceedsDailyCap(req))
      && (r.Ok? <==> !ExceedsDailyCap(req) && req.start.Some? && req.end.Some?
                     && |req.name| > 0 && |req.address| > 0
                     && forall a, b :: 0 <= a < b < |req.needs| ==> req.needs[a].skill != req.needs[b].skill)
      && (r.Ok? ==>
            && r.value.doc.id == id && r.value.doc.name == req.name && r.value.doc.needs == req.needs
            && r.value.doc.start == req.start.value && r.value.doc.end == req.end.value
            && r.value.doc.status == Nouveau && r.value.doc.team == [] && r.value.doc.note.None?
            && (WeeklyGiven(req) ==> r.value.doc.weeklyHours == req.weeklyHours.value)
            && r.value.doc.days == DerivedDays(r.value.doc.weeklyHours)
            && (req.coords.Some? ==> r.value.doc.coords == req.coords)
            && (r.value.warning.Some? <==> r.value.doc.coords.None?))
  {
  }

  /** The service days a request lists play no part beyond the 8 h/day check. */
  lemma RequestDaysIgnored(req: SiteRequest, other: Option<seq<string>>, geocoded: Option<Coords>, id: SiteId)
    requires !ExceedsDailyCap(req) && !ExceedsDailyCap(req.(days := other))
    ensures CreateSite(req, geocoded, id) == CreateSite(req.(days := other), geocoded, id)
  {
    assert WeeklyHours(req) == WeeklyHours(req.(days := other));
  }

  /**
   * Without truthy weekly hours, a numeric per-day value and both dates, the saved weekly hours are
   * the per-day hours of every day of the window's first week: never more than seven days' worth,
   * exactly seven days' worth once the window spans a week.
   */
  lemma WeeklyFallbackBounds(req: SiteRequest)
    requires !WeeklyGiven(req) && req.hoursPerDay.Some? && req.start.Some? && req.end.Some?
    requires req.start.value <= req.end.value && req.hoursPerDay.value >= 0.0
    ensures 0.0 <= WeeklyHours(req) <= 7.0 * req.hoursPerDay.value
    ensures req.end.value - req.start.value >= 6 ==> WeeklyHours(req) == 7.0 * req.hoursPerDay.value
    ensures req.end.value - req.start.value < 6 ==>
      WeeklyHours(req) == (req.end.value - req.start.value + 1) as real * req.hoursPerDay.value
  {
    var n := WindowDays(req.start.value, req.end.value);
    var m := if n < 7 then n else 7;
    var p := req.hoursPerDay.value;
    assert WeeklyHours(req) == p * m as real;
    assert 1 <= m <= 7;
    assert 0.0 <= p * m as real by {
      assert 0.0 <= m as real;
    }
    assert p * m as real <= p * 7.0 by {
      assert p * 7.0 - p * m as real == p * (7 - m) as real;
      assert 0.0 <= (7 - m) as real;
    }
  }

  /** Otherwise, without a per-day number or a date, the saved weekly hours are 0 and no service day is listed. */
  lemma WeeklyFallbackZero(req: SiteRequest)
    requires !WeeklyGiven(req) && (req.hoursPerDay.None? || req.start.None? || req.end.None?)
    ensures WeeklyHours(req) == 0.0 && DerivedDays(WeeklyHours(req)) == []
  {
  }

  /**
   * The 8 h/day check reads the request's service days, but the site saves derived ones: 20 weekly
   * hours over three requested days pass the check, and the saved site has no service day, so one
   * service day counts 20 hours.
   */
  lemma RatioCheckDoesNotBoundSavedSite()
    ensures var req := SiteRequest("A", "B", Some(0), Some(30), [], None, Some(20.0), Some(["lundi", "mardi", "mercredi"]), None);
      && !ExceedsDailyCap(req)
      && CreateSite(req, None, 0).Ok?
      && HoursPerServiceDay(CreateSite(req, None, 0).value.doc) == 20.0
  {
    var req := SiteRequest("A", "B", Some(0), Some(30), [], None, Some(20.0), Some(["lundi", "mardi", "mercredi"]), None);
    assert 20.0 / 3 as real <= 8.0;
    var site := CreateSite(req, None, 0).value.doc;
    assert WeeklyHours(req) == 20.0;
    assert site.days == [];
  }

  // ---------------------------------------------------------------------------------------------
  // createSalarie

  /**
   * The body of `POST /api/salaries`. An absent string is empty; `skills` is `None` when
   * `competences` is not an array; `contract` is the raw `type_contrat` string.
   */
  datatype WorkerRequest = WorkerRequest(
    name: string,
    skills: Option<seq<string>>,
    address: string,
    contract: string,
    contractEnd: Option<Day>,
    contractStart: Option<Day>,
    durationMonths: Option<real>,
    coords: Option<Coords>)

  /** The controller's first check: name, a non-empty skill array, address and contract type. */
  predicate HasRequiredFields(req: WorkerRequest) {
    |req.name| > 0 && req.skills.Some? && |req.skills.value| > 0 && |req.address| > 0 && |req.contract| > 0
  }

  /** The schema's `enum: ['CDI', 'CDD']`. */
  function ContractOf(s: string): (c: Option<Contract>)
    ensures c == Some(CDI) <==> s == "CDI"
    ensures c == Some(CDD) <==> s == "CDD"
  {
    if s == "CDI" then Some(CDI) else if s == "CDD" then Some(CDD) else None
  }

  /**
   * `createSalarie`: the two checks of the controller, then the geocode and the schema's
   * validation at `save()`; the new worker's calendar is empty.
   */
  function CreateWorker(req: WorkerRequest, geocoded: Option<Coords>, id: WorkerId): Result<Created<Worker>, string> {
    if !HasRequiredFields(req) then Err(MissingFieldsMessage)
    else if req.contract == "CDD" && req.contractEnd.None? then Err(CddEndMessage)
    else match ContractOf(req.contract)
      case None => Err(SchemaMessage)
      case Some(c) =>
        var coords := CoordsAfterGeocode(req.coords, geocoded);
        var w := Worker(id, req.name, req.skills.value, req.address, coords, c,
                        req.contractEnd, req.contractStart, req.durationMonths, []);
        if !WorkerSchemaValid(w) then Err(SchemaMessage)
        else Ok(Created(w, CoordsWarning(coords)))
  }

  /**
   * A request missing a required field gets the first message; a CDD without an end date gets the
   * second. A worker is created exactly when both checks pass, the contract is `CDI` or `CDD` and
   * every skill name is non-empty; it starts with an empty calendar, satisfies the schema, and the
   * response warns exactly when it has no coordinates.
   */
  lemma CreateWorkerOutcome(req: WorkerRequest, geocoded: Option<Coords>, id: WorkerId)
    ensures var r := CreateWorker(req, geocoded, id);
      && (r == Err(MissingFieldsMessage) <==> !HasRequiredFields(req))
      && (r == Err(CddEndMessage) <==> HasRequiredFields(req) && req.contract == "CDD" && req.contractEnd.None?)
      && (r.Ok? <==> && HasRequiredFields(req)
                     && (req.contract == "CDI" || (req.contract == "CDD" && req.contractEnd.Some?))
                     && forall k :: 0 <= k < |req.skills.value| ==> |req.skills.value[k]| > 0)
      && (r.Ok? ==>
            && r.value.doc.id == id && r.value.doc.name == req.name && r.value.doc.skills == req.skills.value
            && r.value.doc.assignments == []
            && WorkerSchemaValid(r.value.doc)
            && (req.coords.Some? ==> r.value.doc.coords == req.coords)
            && (r.value.warning.Some? <==> r.value.doc.coords.None?))
  {
  }
}
