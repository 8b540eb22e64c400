# Affectation API — a Dafny model of the staffing allocator

The repository is a small REST service that books cleaning staff (`Salarie`, here *workers*) onto
job sites (`Chantier`, here *sites*). This project models its core in Dafny and proves properties
of that model:

- **Calendar and hours helpers** (`calendar.dfy`, `affectation_utils.dfy`). Dates are whole days
  counted from 1 January 1970, a Thursday, so the weekday of a date is `(d + 4) % 7`, Sunday first,
  like `Date.getDay()`. The ISO week number follows section 4.1.4 of ISO 8601:2004: the date moves to the
  Thursday of its week and the week is counted in that Thursday's year. Hours are exact `real`s,
  and a service day of a site is worth its weekly hours divided by its number of service weekdays
  (or by 1 when it has none). Each helper that loops in the source is a method proved equal to a
  recursive specification function, and the properties are lemmas about those functions.
- **The per-date rules** every allocator shares (`allocation_rules.dfy`):
  - the busy, 7-hour day, 35-hour week and CDD end-of-contract tests at one concrete date;
  - the `Salarie.find` queries;
  - the merge rule that books weekdays into a worker's record for a site;
  - the `$pull` that removes a site's records.
- **The live allocation pass** `affectationFractionneeParHeure` (`affectation_algos.dfy`).
  Strategy A looks for one worker for the whole site. Strategy B splits the site into
  (skill, weekday, post) slots, and only sites under 35 hours a week reach it. The pass then
  sets the status and note and counts each site as a success or a failure. An uncovered slot or
  date is kept as a `Gap` (its weekday, date and skill) and rendered into the `Jours non couverts`
  note with the source's template (`<jour> [<competence>]`, `<jour> (<YYYY-MM-DD>) [<competence>]`)
  when the note is written.
- **Three calendar rules of the design against the live pass** (`pass_invariants.dfy`): no two
  records of a worker on the same date and weekday, no date past a CDD's end, at most 35 hours in
  any (ISO week, year). Each rule the pass breaks is shown on a concrete store, and the test that
  keeps it is proved beside it (see "## Findings").
- **The single-site allocator and its reset** (`affectation_service.dfy`):
  `affecterEquipePourChantier` and `resetAffectationPourChantier`.
- **The creation rules** of the two controllers (`controllers.dfy`), **the schemas**
  (`records.dfy`) and **the report arithmetic** of the PDF service (`report.dfy`).

The store is a `class Database` with a `seq<Worker>` and a `seq<Site>` (`store.dfy`). Methods that
save documents reassign those fields, and each such method is proved to leave the store as a
specification function of the old store says. Workers are identified by their position in the
collection; ids are assumed distinct where a lemma needs it (`DistinctWorkerIds`, `DistinctSiteIds`).

Where the system's design and its code disagree, the model follows the code:

- The design ranks candidates by distance and filters them by a 30 km radius. The code has no
  radius filter. Its distance comparator passes two coordinate objects to a four-number function,
  so every comparison yields `NaN` and the sort leaves the order unchanged. The only ordering in
  effect is CDI before CDD in Strategy B (`src/services/affectation.algos.js:186`).
- Callers of the week helpers pair the ISO week with the calendar year of the date itself. The
  PDF report uses the year of the shifted Thursday instead. The model keeps both keys,
  `CallerWeekKey` and `ReportWeekKey`.
- The design keeps every worker within 35 hours a week. Strategy A of the live pass tests each
  service date against the week's existing hours plus ONE service day, then books all the site's
  weekdays at once, so a week can end above 35 hours (`src/services/affectation.algos.js:59-95`).
- The design never books a worker twice on one date, and never past a CDD's end. Strategy B of the
  live pass gives a slot to a worker who passes at ONE date of the weekday, then books that weekday
  for the whole window, so later dates may already be taken or lie past the contract's end
  (`src/services/affectation.algos.js:199-229`).
- The design says the reset clears the site's note. The code sets only the team and the status, so
  the note stays (`src/services/affectation.service.js:263-280`).
- The design says partial coverage is never an error. The single-site allocator saves the site
  `Nouveau` with its note, keeps the bookings it made, and throws `Tous les jours n'ont pas pu être
  couverts` (`src/services/affectation.service.js:225-230`).

## Model

| member | source | states |
|---|---|---|
| Records.TypePrestation | src/models/chantier.model.js:26-30 | `pleine semaine` exactly when the weekly hours are 35, `espacée` exactly when they are under 35, `inconnue` exactly when they are over 35 |
| Records.Lookup | src/utils/affectationUtils.js:58-59 | `Chantier.findById`: a site is found exactly when some site has the id, and the site found is one of the collection's with that id |
| Records.LookupFindsEntry | src/utils/affectationUtils.js:58-59 | with distinct ids, looking up a stored site's id returns that very site |
| Records.DatesHoursIsProduct | src/services/affectation.service.js:112 | adding a service day once per date adds the number of dates times the service-day hours |
| Calendar.SameWeekdayIffWeeksApart | src/utils/affectationUtils.js:132-135 | two dates fall on the same weekday exactly when they are a multiple of seven days apart |
| Calendar.YearStartPlusDayOfYear | src/utils/affectationUtils.js:51-52 | the first day of a date's calendar year plus its day-of-year index is the date again |
| Calendar.ShiftedThursday | src/utils/affectationUtils.js:50 | the date moved by `4 - (getDay() or 7)` days is a Thursday, and the Monday-first day number plus the shifted date is the date plus 4 |
| Calendar.WeekNumber | src/utils/affectationUtils.js:47-53 | the ISO week number lies in 1..53 |
| Calendar.WeekNumberConstantMondayToSunday | src/utils/affectationUtils.js:47-53 | Monday to Sunday of one week have day numbers 1 to 7 (Sunday maps to 7) and all share the Monday's week number |
| Calendar.CallerKeySplitsAnIsoWeek | src/utils/affectationUtils.js:68-69 | 31 December 1970 and 1 January 1971 lie in ISO week 53 of 1970 (the report's key), yet callers file them under (1970, 53) and (1971, 53) |
| Calendar.DatesOverlapSymmetricAndStrict | src/utils/affectationUtils.js:4-6 | the overlap test is symmetric, and windows that merely touch (`end1 == start2`) do not overlap |
| Calendar.FirstOnOrAfter | src/utils/affectationUtils.js:127-131 | the walk one day at a time from the start ends within six days of the start, on the weekday sought |
| Calendar.FirstOnOrAfterIsFirst | src/utils/affectationUtils.js:127-131 | no date from the start up to the one the walk ends at falls on the weekday sought, so it is the first such date |
| Calendar.AdvanceToWeekday | src/services/affectation.algos.js:53-58 | the loop that moves `current` forward one day at a time stops at `FirstOnOrAfter(start, w)` |
| Calendar.DatesFromShape | src/utils/affectationUtils.js:132-135 | the date walk lists `d + 7i` for each `i`, all within the end, and every date up to the end a whole number of weeks after `d` |
| Calendar.WeekdayDatesExactly | src/utils/affectationUtils.js:125-137 | `getAllMondaysBetween` lists only dates with the weekday, inside the window, the first within six days of the start, each seven days after the previous, and every date of the window with that weekday |
| Calendar.AllWeekdaysBetween | src/utils/affectationUtils.js:125-137 | the loop that pushes into `result` returns exactly `WeekdayDates(start, end, w)` |
| Calendar.MonthOf | src/services/pdf.service.js:227 | `getMonth()`: the month index is below 12, and the day of the year falls between that month's first and last day |
| Calendar.DayOfMonth | src/services/pdf.service.js:232 | the day of the month lies between 1 and the month's length |
| Calendar.MonthLength | src/services/pdf.service.js:233 | every month is 28 to 31 days long |
| Calendar.DateFromOwnParts | src/services/pdf.service.js:232-237 | `new Date(year, month, day)` rebuilt from a date's own year, month and day is the date again |
| AffectationUtils.IsSalarieDisponiblePourJours | src/utils/affectationUtils.js:8-20 | the loop with its early exits returns exactly `AvailableFor`: no record whose window overlaps the site's lists a requested weekday |
| AffectationUtils.AvailabilityCases | src/utils/affectationUtils.js:8-20 | a worker with no records is available; otherwise they are unavailable exactly when some record overlapping the site's window shares a weekday with the request |
| AffectationUtils.EligibleAmong | src/utils/affectationUtils.js:22-36 | keeps exactly the workers holding the skill who are available on all the site's weekdays, have coordinates while the site has them too, and are not a CDD ending before the site's end (a site without coordinates keeps nobody) (an unset `coordonnees` read as absent; see "## Left out") |
| AffectationUtils.GetSalariesEligibles | src/utils/affectationUtils.js:22-36 | the filtering loop returns exactly `EligibleAmong` |
| AffectationUtils.AffecterSalarieAChantier | src/utils/affectationUtils.js:38-45 | exactly one record with the site and its window and no weekday is appended to that worker's calendar; nothing else in the store changes |
| AffectationUtils.BareRecordChangesNoHours | src/utils/affectationUtils.js:38-45 | such a record adds no day hours and no week hours and changes no availability |
| AffectationUtils.HeuresAffecteesJour | src/utils/affectationUtils.js:83-94 | the loop total is `DayHours`: each record whose site exists and whose weekdays include the day adds that site's service-day hours, whatever its dates |
| AffectationUtils.DayHoursAppend | src/utils/affectationUtils.js:83-94 | the day total of two calendars put end to end is the sum of their totals |
| AffectationUtils.DayHoursNonNegative | src/utils/affectationUtils.js:83-94 | the day total is never negative when no site has negative weekly hours |
| AffectationUtils.HeuresAffecteesSemaine | src/utils/affectationUtils.js:55-81 | the nested loops' total is `WeekHours`: one service day for each date of each record's window whose weekday is listed and whose (ISO week, calendar year) is the target |
| AffectationUtils.AddWindowWeekHours | src/utils/affectationUtils.js:62-77 | the day loop over one record's window adds to the running total exactly `WindowWeekHours`: one service day per listed-weekday date of the target week and year |
| AffectationUtils.WeekHoursNonNegative | src/utils/affectationUtils.js:55-81 | the week total is never negative when no site has negative weekly hours |
| AffectationUtils.WeekHoursAppend | src/utils/affectationUtils.js:55-81 | the week total of two calendars put end to end is the sum of their totals |
| AffectationUtils.WindowWithoutDaysIsEmpty | src/utils/affectationUtils.js:70-75 | a record listing no weekday adds no week hours |
| AffectationUtils.WeekOrderCovers | src/utils/affectationUtils.js:97 | the seven names of the dictionary cover every weekday |
| AffectationUtils.ZeroHours | src/utils/affectationUtils.js:98-101 | the dictionary starts with every weekday at zero |
| AffectationUtils.AddServiceDays | src/utils/affectationUtils.js:110-115 | each weekday's entry grows by the service-day hours once per listing of that weekday |
| AffectationUtils.CalendarLoads | src/utils/affectationUtils.js:102-109 | each weekday holds the calendar's load for that day, skipping records whose site is missing or has no weekly hours |
| AffectationUtils.DepassementSemaineAvecChantierJours | src/utils/affectationUtils.js:96-123 | the result is the summed excess over seven hours of the seven weekdays' projected totals |
| AffectationUtils.ExcessZeroIffEveryDayWithinCap | src/utils/affectationUtils.js:116-122 | the excess is never negative, and it is zero exactly when every weekday's total (existing records plus the added days) is at most seven hours |
| AllocationRules.EveryWeekPassesFrom | src/services/affectation.algos.js:59-76 | walking a weekday's dates seven days at a time passes exactly when every date of that weekday up to the end passes |
| AllocationRules.SomeWeekPassesFrom | src/services/affectation.algos.js:199-229 | the walk that skips failing dates finds one exactly when some date of that weekday up to the end passes |
| AllocationRules.FitsOnWeekdayMeaning | src/services/affectation.algos.js:52-77 | Strategy A's weekday walk succeeds exactly when the worker passes all four tests at every date of the window on that weekday |
| AllocationRules.FitsEveryDayMeaning | src/services/affectation.algos.js:52-78 | the weekday loop succeeds exactly when each listed weekday's walk does |
| AllocationRules.FitsWholeSiteMeaning | src/services/affectation.algos.js:49-79 | a whole-site candidate is accepted exactly when it passes at every date of the window that falls on a service weekday |
| AllocationRules.PassesSomeDayMeaning | src/services/affectation.algos.js:192-229 | a slot's walk succeeds exactly when the worker passes at some date of the window on that weekday |
| AllocationRules.FindFromSpec | src/services/affectation.algos.js:30-33 | `Salarie.find` returns exactly the matching workers, each once, in collection order (`$all` with an empty list matches nothing) |
| AllocationRules.WithCoordsSpec | src/services/affectation.algos.js:42 | the coordinates filter keeps exactly the candidates with coordinates, in their order (an unset `coordonnees` read as absent; see "## Left out") |
| AllocationRules.FindRecord | src/services/affectation.algos.js:81 | the record found is the first one of this site with exactly the site's window; none is found when no record has both |
| AllocationRules.MergeDaysSpec | src/services/affectation.algos.js:83-87 | merging keeps the old weekdays as a prefix, adds exactly the missing ones and never introduces a duplicate |
| AllocationRules.BookChangesOneRecord | src/services/affectation.algos.js:81-95 | the merge rule touches one record: the calendar gains at most one record, every record that is not of this site with the site's window stays in place, and the first record of this site with the site's window (or, when there is none, one record appended at the end) ends up listing, as a set, its former weekdays (none when new) plus the added ones, its hours map kept |
| AllocationRules.WeekHoursUpdate | src/utils/affectationUtils.js:55-81 | replacing one record changes a week's total by the new record's hours minus the old record's |
| AllocationRules.BookWeekHoursAtMost | src/services/affectation.algos.js:81-95 | booking weekdays of a stored site raises any week's total by at most the hours those weekdays carry in the site's window that week |
| AllocationRules.BookedDaysBusy | src/services/affectation.algos.js:200-205 | after a booking, the worker is busy on each booked weekday at every date of the site's window |
| AllocationRules.BookKeepsBusy | src/services/affectation.algos.js:212-224 | a booking never frees a date the worker was busy on |
| AllocationRules.RemoveSite | src/services/affectation.service.js:269-272 | the `$pull` keeps exactly the records of other sites and never lengthens the calendar |
| AllocationRules.RemoveSiteIdempotent | src/services/affectation.service.js:269-272 | pulling a site twice is pulling it once |
| AllocationRules.RemoveSiteAppend | src/services/affectation.service.js:269-272 | pulling from two calendars put end to end is pulling from each |
| AllocationRules.ResetUndoesBook | src/services/affectation.service.js:263-280 | pulling a site after booking it leaves what pulling it before the booking leaves |
| AffectationAlgos.OfContractSpec | src/services/affectation.algos.js:30-38 | the contract filter keeps exactly the candidates with that contract, in their order |
| AffectationAlgos.HoldersFromSpec | src/services/affectation.algos.js:29-48 | the fused query keeps exactly the workers holding all the skills under the contract, with coordinates when asked, in collection order (an unset `coordonnees` read as absent; see "## Left out") |
| AffectationAlgos.WholeSiteCandidatesIsQuery | src/services/affectation.algos.js:29-48 | Strategy A's candidates are the CDI query, the CDD query only when the CDI query returns nothing, then the coordinates filter when the site has coordinates |
| AffectationAlgos.WholeSiteCandidatesMeaning | src/services/affectation.algos.js:29-48 | Strategy A's candidates are exactly the workers holding every skill under one contract (CDI when any CDI holds them all, CDD otherwise), with coordinates when the site has them, each once, in order (an unset `coordonnees` read as absent; see "## Left out") |
| AffectationAlgos.HoldersWithoutSkills | src/services/affectation.algos.js:30-33 | with no skill to look for, the query returns nobody |
| AffectationAlgos.NoNeedsNoWholeSiteCandidate | src/services/affectation.algos.js:29-39 | a site with no needs has no Strategy A candidate |
| AffectationAlgos.SlotGroupSpec | src/services/affectation.algos.js:182-190 | one contract group of Strategy B keeps exactly the workers with the skill, coordinates and that contract, in order (an unset `coordonnees` read as absent; see "## Left out") |
| AffectationAlgos.SlotGroupIsQuery | src/services/affectation.algos.js:182-190 | the fused group is the query, then the coordinates filter, then the contract filter |
| AffectationAlgos.SlotCandidatesMeaning | src/services/affectation.algos.js:182-190 | Strategy B's candidates are exactly the workers with the skill and coordinates, each once, every CDI before every CDD, each contract group in collection order (an unset `coordonnees` read as absent; see "## Left out") |
| AffectationAlgos.SlotCandidatesIsQuery | src/services/affectation.algos.js:182-190 | Strategy B's candidates are the query, the coordinates filter and the stable CDI-before-CDD sort |
| AffectationAlgos.FirstFitIsFirst | src/services/affectation.algos.js:49-79 | the candidate chosen fits the whole site and none before it does; when none is chosen, none fits |
| AffectationAlgos.FirstPassingIsFirst | src/services/affectation.algos.js:192-231 | the candidate chosen passes at some date and none before it does; when none is chosen, none does |
| AffectationAlgos.FirstPassingIsFirstAble | src/services/affectation.algos.js:182-231 | the worker a slot goes to is able, no CDI is able when it is a CDD, and no able worker of its contract comes before it; when none is chosen, no worker is able |
| AffectationAlgos.FillSlotMeaning | src/services/affectation.algos.js:181-234 | one post: with no able worker the slot is reported uncovered as `<jour> [<competence>]` and nothing else changes; otherwise the first able worker is booked on that weekday and joins the team |
| AffectationAlgos.BookedNoLongerAble | src/services/affectation.algos.js:200-224 | once booked for a slot, the worker is busy on that weekday at every date of the window in every later state that only gained bookings, so is never able to take a slot of that weekday again |
| AffectationAlgos.FillPostsDistinct | src/services/affectation.algos.js:181-231 | the `poste` loop of one weekday extends the team only at its end, every worker it adds is busy on that weekday all over the window, and with distinct ids no worker is added twice: the posts of one weekday go to different workers |
| AffectationAlgos.GrowsTrans | src/services/affectation.algos.js:11-248 | workers only gaining bookings is transitive |
| AffectationAlgos.BookAtGrows | src/services/affectation.algos.js:81-96 | a booking keeps every busy date busy and changes no other field of any worker |
| AffectationAlgos.FillSlotGrows | src/services/affectation.algos.js:181-234 | one post only adds bookings |
| AffectationAlgos.FillPostsGrows | src/services/affectation.algos.js:181-234 | the post loop only adds bookings |
| AffectationAlgos.FillDaysGrows | src/services/affectation.algos.js:180-236 | the weekday loop only adds bookings |
| AffectationAlgos.FillNeedsGrows | src/services/affectation.algos.js:179-237 | the whole decomposition only adds bookings |
| AffectationAlgos.AllocateSiteGrows | src/services/affectation.algos.js:17-239 | treating one site only adds bookings |
| AffectationAlgos.AllocateSiteOutcome | src/services/affectation.algos.js:27-104 | a site ends `Planifié` exactly when some Strategy A candidate fits, and then the first such candidate is booked on all its weekdays and is the whole team; a site of 35 hours or more that nobody fits stays `Nouveau`, untouched, with note `Jours non couverts : Aucun salarié dispo pour tout le chantier` |
| AffectationAlgos.FallbackIsFillNeeds | src/services/affectation.algos.js:176-242 | when no candidate fits a site under 35 hours, the site is saved `Nouveau` with the workers, team and uncovered list the decomposition produced |
| AffectationAlgos.FillNeedsIsFillAll | src/services/affectation.algos.js:179-234 | the three nested loops fill the posts (skill, weekday) of `besoins_equipe` one after the other, `nombreRequis` times each, in loop order |
| AffectationAlgos.FateAtUnique | src/services/affectation.algos.js:190-233 | the rules give a post one fate: reported when nobody is able, else the worker the candidate order picks |
| AffectationAlgos.FatesFromUnique | src/services/affectation.algos.js:181-234 | the rules give a list of posts, each judged in the state the earlier ones left, one list of fates |
| AffectationAlgos.GapsAndIds | src/services/affectation.algos.js:181-234 | every post is either reported uncovered or staffed, never both |
| AffectationAlgos.FillSlotFate | src/services/affectation.algos.js:181-234 | one post extends the team by the id of the worker the rules pick, or the uncovered list by the post when nobody is able |
| AffectationAlgos.FillAllFates | src/services/affectation.algos.js:181-234 | filling the posts gives each its fate at its turn: the uncovered list grows by exactly the posts nobody was able to take and the team by exactly the workers picked, both in post order |
| AffectationAlgos.AllocateSiteSlots | src/services/affectation.algos.js:178-242 | when Strategy A fails under 35 hours, the site stays `Nouveau` even if every post was staffed; each post of `besoins_equipe`, in loop order, goes to the first able worker at its turn or is reported; the team is the staffed posts' workers in order, the note lists the reported posts, there is no note exactly when none was reported, and reported plus staffed is the number of posts |
| AffectationAlgos.NouveauFromSpec | src/services/affectation.algos.js:13 | the query returns exactly the `Nouveau` sites, each once, in collection order |
| AffectationAlgos.StepFacts | src/services/affectation.algos.js:238-245 | one site's treatment saves that site with only team, status and note changed and status `Planifié` or `Nouveau`, leaves the other sites alone, adds one to `success` exactly when the site was saved `Planifié` and one to `failed` otherwise, and only adds bookings |
| AffectationAlgos.PassFromFacts | src/services/affectation.algos.js:16-246 | the loop over the remaining sites saves each of them once and leaves the rest alone; `success` grows by the number of them saved `Planifié` and `failed` by the others; workers only gain bookings |
| AffectationAlgos.PassMeaning | src/services/affectation.algos.js:11-248 | the pass saves every `Nouveau` site with status `Planifié` or `Nouveau`, leaves every other site as it was; `success` is the number of `Nouveau` sites saved `Planifié` and `failed` the number of the others; workers only gain bookings |
| AffectationAlgos.TestDate | src/services/affectation.algos.js:61-74 | the three tests at one date return exactly `PassesOn` |
| AffectationAlgos.CheckWeekday | src/services/affectation.algos.js:53-77 | the weekday's date loop returns exactly `FitsOnWeekday` |
| AffectationAlgos.CheckWholeSite | src/services/affectation.algos.js:51-78 | the weekday loop returns exactly `FitsWholeSite` |
| AffectationAlgos.ScanSlotDates | src/services/affectation.algos.js:193-229 | a slot's date loop finds a date exactly when `PassesSomeDay` |
| AffectationAlgos.MergeInto | src/services/affectation.algos.js:83-87 | pushing each missing weekday returns exactly `MergeDays` |
| AffectationAlgos.BookWorker | src/services/affectation.algos.js:81-96 | `salarie.save()` leaves the workers as `BookAt` says and the sites unchanged |
| AffectationAlgos.WholeSite | src/services/affectation.algos.js:49-101 | Strategy A's candidate loop books the first candidate that fits, returns `affecte` and that worker's id; with no fitting candidate it changes nothing |
| AffectationAlgos.FillSlotInPlace | src/services/affectation.algos.js:182-234 | one post changes the store, team and uncovered list exactly as `FillSlot` |
| AffectationAlgos.FillPostsInPlace | src/services/affectation.algos.js:181-235 | the post loop changes them exactly as `FillPosts` |
| AffectationAlgos.FillDaysInPlace | src/services/affectation.algos.js:180-236 | the weekday loop changes them exactly as `FillDays` |
| AffectationAlgos.Decompose | src/services/affectation.algos.js:179-237 | the decomposition changes them exactly as `FillNeeds` from an empty team |
| AffectationAlgos.AllocateOne | src/services/affectation.algos.js:17-242 | one site's treatment yields exactly `AllocateSite`'s workers, team, status and note |
| AffectationAlgos.PlanSite | src/services/affectation.algos.js:17-245 | one iteration of the site loop leaves the store and counters as `Step` |
| AffectationAlgos.AffectationFractionneeParHeure | src/services/affectation.algos.js:11-248 | the whole pass leaves the store and returns the counters exactly as `Pass` of the old store |
| PassInvariants.OnlyWorkerGetsSlot | src/services/affectation.algos.js:190-229 | in a store of one worker, an able worker gets the slot: booked on that weekday and the whole team |
| PassInvariants.SlotTestBooksPastContractEnd | src/services/affectation.algos.js:199-229 | a CDD whose contract ends on day 3 passes on Thursday day 0, gets a `jeudi` slot over days 0 to 30, and is then busy on Thursday day 28, past the contract's end |
| PassInvariants.SlotTestDoubleBooks | src/services/affectation.algos.js:199-229 | a worker with a `lundi` record over days 10 to 12 passes on Monday day 4, gets a `lundi` slot over days 0 to 30, and two of their records then cover Monday day 11, which one did before |
| PassInvariants.WholeSiteTestOverbooksAWeek | src/services/affectation.algos.js:59-95 | a worker holding 28 hours in ISO week 2 of 1970 fits a 14-hour `lundi`/`vendredi` site at each date (28 + 7 hours), is booked on both weekdays as the whole `Planifié` team, and that week then carries 42 hours |
| PassInvariants.BookKeepsExclusive | src/services/affectation.algos.js:81-95 | a date that no two records covered still has none after a booking, provided the worker was free there whenever the booking covers it (in the window, on a booked weekday) |
| PassInvariants.WholeSiteKeepsExclusive | src/services/affectation.algos.js:49-95 | Strategy A's whole-site test keeps every date free of double bookings and books no date past a CDD's end |
| PassInvariants.SlotTestEveryWeekKeepsRules | src/services/affectation.algos.js:199-229 | the slot test corrected to require a pass at every date of the weekday books the worker at each such date, creates no double booking and books no date past a CDD's end |
| PassInvariants.SlotTestEveryWeekRefusesCdd | src/services/affectation.algos.js:199-229 | the corrected slot test refuses the CDD of the as-written counterexample |
| PassInvariants.SlotTestEveryWeekRefusesBusy | src/services/affectation.algos.js:199-229 | the corrected slot test refuses the worker of the double-booking counterexample |
| PassInvariants.WindowWeekHoursCounted | src/utils/affectationUtils.js:55-81 | a window carries hours in a week only if one of its dates on a listed weekday falls in that week |
| PassInvariants.WholeSiteWeeklyCapKept | src/services/affectation.algos.js:59-95 | the whole-site test corrected to add all the site's hours of the week keeps every week of the booked worker within 35 hours |
| PassInvariants.WholeSiteWithOwnHoursRefuses | src/services/affectation.algos.js:59-95 | the corrected whole-site test refuses the worker of the 42-hour counterexample |
| AffectationService.FindSite | src/services/affectation.service.js:33 | `findById`: the position found holds the id and no earlier site does; none is found when no site has it |
| AffectationService.FindSiteFinds | src/services/affectation.service.js:33 | with distinct ids, a stored site's id finds its own position |
| AffectationService.ZeroDemandIffNoHeadcount | src/services/affectation.service.js:44-45 | with no negative headcount, the total demand is never negative, and it is zero exactly when every need asks for zero |
| AffectationService.SimulatedKeepsLoads | src/services/affectation.service.js:110-112 | a simulated booking keeps every simulated load non-negative and adds one service day to the total |
| AffectationService.SimPassesLive | src/services/affectation.service.js:83-107 | a date that passes the simulated tests also passes the live pass's tests and the availability check |
| AffectationService.SimDatesSound | src/services/affectation.service.js:75-114 | a weekday's simulation that succeeds implies every date of that weekday passes, the worker is available for the weekday when there is a date, and the total grows by one service day per date |
| AffectationService.SimDaysSound | src/services/affectation.service.js:68-116 | a simulation that succeeds implies the worker fits every listed weekday, is available for each weekday with a date in the window, and has the site's service hours as its total |
| AffectationService.StrictFitsSound | src/services/affectation.service.js:117 | a candidate Strategy A accepts fits the whole site as the live pass defines it, is available for its weekdays, and the site's hours total at most 35 |
| AffectationService.FirstStrictIsFirst | src/services/affectation.service.js:62-139 | the candidate chosen passes the simulation and none before it does; when none is chosen, none passes |
| AffectationService.DateCandidatesSpec | src/services/affectation.service.js:155-166 | a per-date slot's candidates are exactly the workers with the skill, restricted to those with coordinates when the site has them, in collection order (an unset `coordonnees` read as absent; see "## Left out") |
| AffectationService.CoverFromCounts | src/services/affectation.service.js:176-217 | one date's candidate loop books at most `nombreRequis` workers (at most one when `nombreRequis` is 0 or less), appends exactly as many ids to the team as it books, keeps the earlier team and reports nothing |
| AffectationService.CoverFromBooksOnlyPassingWorkers | src/services/affectation.service.js:176-217 | every worker the loop changes is a candidate who passed every test at that date and gains exactly that weekday for the site |
| AffectationService.CoverFromTeamIsBooked | src/services/affectation.service.js:176-217 | the team only grows at its end, and every new team member is a candidate who passed at that date and was booked on that weekday |
| AffectationService.CoverFromGrows | src/services/affectation.service.js:176-217 | one date's loop only adds bookings |
| AffectationService.CoverDateGrows | src/services/affectation.service.js:175-220 | one date with its uncovered report only adds bookings |
| AffectationService.CoverDatesGrows | src/services/affectation.service.js:174-222 | the date loop only adds bookings |
| AffectationService.CoverDaysGrows | src/services/affectation.service.js:153-223 | the weekday loop only adds bookings |
| AffectationService.CoverNeedsGrows | src/services/affectation.service.js:152-224 | the whole per-date pass only adds bookings |
| AffectationService.CoverFromComplete | src/services/affectation.service.js:176-217 | at one date the candidate loop either fills every post it may, or each candidate it leaves untouched fails a test at that date |
| AffectationService.CoverDateMeaning | src/services/affectation.service.js:174-221 | one date: the team gains exactly the workers booked, at most `nombreRequis`; the date is reported exactly when fewer than `nombreRequis` were booked, and then no holder of the skill left untouched passes the tests there |
| AffectationService.CoverDatesMeaning | src/services/affectation.service.js:167-222 | the dates of one weekday: the team gains exactly the workers booked, and every reported date is one where no untouched holder of the skill passes |
| AffectationService.CoverDaysMeaning | src/services/affectation.service.js:153-223 | the weekday loop of one skill: the team gains exactly the workers booked, and only such blocked dates are reported |
| AffectationService.CoverNeedsMeaning | src/services/affectation.service.js:152-224 | the whole per-date pass: the team lists exactly the workers it booked, each of whom gained a busy date, and only such blocked dates are reported |
| AffectationService.AllocateGuards | src/services/affectation.service.js:33-35 | an unknown id fails with `Chantier non trouvé` and a site that is not `Nouveau` with `Le chantier est déjà planifié ou en cours.`, both before any write |
| AffectationService.AllocateZeroDemand | src/services/affectation.service.js:44-50 | zero total demand saves the site `Planifié` with an empty team and touches no worker |
| AffectationService.AllocateOutcome | src/services/affectation.service.js:52-237 | only this site changes and workers only gain bookings. When some all-skills candidate passes the simulation, the first one is booked on all weekdays and is the whole team, `Planifié`. Otherwise the per-date pass runs; it books exactly the workers its list names, and each reported date is one where no holder of the skill it left untouched passes the tests. Success exactly when nothing is reported, with that list as the team and `Planifié`; failure saves `Nouveau` with note `Jours non couverts : …`, the team as it was, throws `Tous les jours n'ont pas pu être couverts` and keeps the bookings |
| AffectationService.DemandNeedsSomeNeed | src/services/affectation.service.js:44-45 | a non-zero demand comes from at least one need |
| AffectationService.AsWrittenNeverStaffsAServiceDay | src/services/affectation.service.js:71 | as written, any `Nouveau` site with demand and a service weekday throws `joursSemaine is not defined` and nothing is written |
| AffectationService.IntendedStaffsAServiceDay | src/services/affectation.service.js:58-147 | with the weekday list meant, the same call succeeds and plans the site whenever some all-skills candidate passes the simulation, where the call as written throws |
| AffectationService.PassesDateTests | src/services/affectation.service.js:178-198 | the per-date tests return exactly `PassesOn` |
| AffectationService.SimulatedDateTests | src/services/affectation.service.js:83-108 | the simulated tests at one date return exactly `SimPasses` |
| AffectationService.SimulateWeekday | src/services/affectation.service.js:69-114 | one weekday's simulation loop updates `heuresJourMap`, `heuresSemaineMap` and `totalHeures` exactly as `SimDates` |
| AffectationService.SimulateCandidate | src/services/affectation.service.js:64-116 | `peutToutFaire` and `totalHeures` are exactly the outcome and total of `SimDays` from an empty simulation |
| AffectationService.CoverDateInPlace | src/services/affectation.service.js:175-220 | one date changes the store, team and uncovered list exactly as `CoverDate` |
| AffectationService.CoverDatesInPlace | src/services/affectation.service.js:167-222 | the date loop changes them exactly as `CoverDates` from the first date on that weekday |
| AffectationService.CoverDaysInPlace | src/services/affectation.service.js:153-223 | the weekday loop changes them exactly as `CoverDays` |
| AffectationService.CoverNeedsInPlace | src/services/affectation.service.js:150-224 | the per-date pass changes them exactly as `CoverNeeds` from an empty team |
| AffectationService.AffecterEquipePourChantier | src/services/affectation.service.js:32-238 | the call leaves the store and returns or throws exactly as `Allocate` of the old store |
| AffectationService.FindWorker | src/services/affectation.service.js:269-270 | `updateOne({ _id })`: the worker found has the id; none is found when no worker has it |
| AffectationService.PullFromSpec | src/services/affectation.service.js:269-272 | with distinct ids, pulling from one id changes exactly that worker, who loses the site's records |
| AffectationService.PullAllSpec | src/services/affectation.service.js:266-275 | with distinct ids, every worker whose id is in the team loses the site's records and every other worker is unchanged |
| AffectationService.ResetMeaning | src/services/affectation.service.js:263-280 | an unknown id fails with `Chantier non trouvé`; otherwise the team becomes empty, the status `Nouveau`, the note stays, the team's workers lose the site's records, and with an empty team no worker changes |
| AffectationService.ResetLeavesNoRecord | src/services/affectation.service.js:266-275 | after a reset each former team member holds exactly their records of other sites |
| AffectationService.ResetUndoesWholeSiteBooking | src/services/affectation.service.js:263-280 | resetting after a whole-site booking leaves the workers as resetting before it would |
| AffectationService.FindWorkerIgnoresCalendars | src/services/affectation.service.js:269-270 | finding a worker by id depends only on the ids, not on the calendars |
| AffectationService.UpdateOne | src/services/affectation.service.js:269-272 | one `updateOne` leaves the workers as `PullFrom` and the sites unchanged |
| AffectationService.ResetAffectationPourChantier | src/services/affectation.service.js:263-280 | the reset leaves the store and returns or throws exactly as `Reset` of the old store |
| Controllers.CoordsAfterGeocode | src/controllers/chantier.controller.js:20-28 | coordinates are absent only when none were given and the geocode failed; given coordinates are kept |
| Controllers.CoordsWarning | src/controllers/chantier.controller.js:61-63 | the response carries a warning exactly when coordinates are absent |
| Controllers.DerivedDays | src/controllers/chantier.controller.js:51-56 | the stored weekdays are non-empty exactly when the weekly hours are 21, 14 or 7 |
| Controllers.DerivedDaysSevenHoursEach | src/controllers/chantier.controller.js:51-56 | each derived list has distinct weekdays, makes the service day exactly 7 hours, and the site is `espacée` |
| Controllers.CreateSiteOutcome | src/controllers/chantier.controller.js:12-63 | the 8-hour ratio error comes exactly when the requested weekly hours over the requested days exceed 8. Creation succeeds exactly when that check passes, both dates are given, the name and address are not empty, and no skill is repeated. The created site is `Nouveau`, unteamed, with the weekly hours given or derived, derived weekdays, the given coordinates, and a warning exactly when it has no coordinates |
| Controllers.RequestDaysIgnored | src/controllers/chantier.controller.js:43-57 | once the ratio check passes, the requested weekday list has no effect on the created site |
| Controllers.WeeklyFallbackBounds | src/controllers/chantier.controller.js:31-41 | without weekly hours, the fallback is the daily hours times the window's day count capped at 7, so it lies between 0 and 7 days' worth |
| Controllers.WeeklyFallbackZero | src/controllers/chantier.controller.js:31-41 | without weekly hours, and without the daily hours or a date, the weekly hours are 0 and no weekday is stored |
| Controllers.RatioCheckDoesNotBoundSavedSite | src/controllers/chantier.controller.js:12-56 | 20 hours over three requested days passes the check, yet the saved site has no weekday and a 20-hour service day |
| Controllers.ContractOf | src/models/salarie.model.js:16 | the contract is CDI exactly for `"CDI"` and CDD exactly for `"CDD"`, and nothing else is accepted |
| Controllers.CreateWorkerOutcome | src/controllers/salarie.controller.js:12-45 | the missing-fields error comes exactly when a required field is missing; the CDD error exactly when a CDD has no `fin_contrat`. A created worker satisfies the schema and starts with an empty calendar, keeps the given coordinates, and carries a warning exactly when it has no coordinates |
| Report.Spaces | src/services/pdf.service.js:122 | `' '.repeat(n)` is n spaces |
| Report.PadShape | src/services/pdf.service.js:121-123 | `pad` always has the given length: the string cut when longer, otherwise the string followed by spaces; padding twice is padding once |
| Report.Assigned | src/services/pdf.service.js:27 | keeps exactly the sites with a non-empty team |
| Report.Unassigned | src/services/pdf.service.js:32 | keeps exactly the sites with an empty team |
| Report.UnassignedByDifference | src/services/pdf.service.js:26-32 | total minus assigned sites is the number of unassigned sites |
| Report.PersonsOfAssigned | src/services/pdf.service.js:87-91 | total persons over the assigned sites equals total persons over all sites and is at least the number of assigned sites |
| Report.PersonsAppend | src/services/pdf.service.js:91 | total persons is additive over two lists put end to end |
| Report.TeamDetails | src/services/pdf.service.js:112-114 | keeps exactly the workers whose id is in the site's team |
| Report.FiledIsCountTimesHours | src/services/pdf.service.js:166 | a week's load is the number of service days filed under it times the service-day hours |
| Report.FileKeysCounts | src/services/pdf.service.js:166 | filing service days adds to each week's entry exactly the hours of the days filed under it, and creates entries only for those weeks |
| Report.FileDatesFilesListedKeys | src/services/pdf.service.js:152-169 | the date walk over one record files one service day under the report key of each date whose weekday is listed |
| Report.WeekLoadsFilesSiteKeys | src/services/pdf.service.js:147-170 | the aggregation over the worker's records for this site files each listed date of each window |
| Report.WeekLoadsMeaning | src/services/pdf.service.js:147-170 | each week's entry is the hours of this site's listed dates filed under it (ISO year of the shifted Thursday, ISO week), and a week has an entry exactly when some such date falls in it |
| Report.MaxOfValues | src/services/pdf.service.js:171 | the result is the largest value of the dictionary, or 0 when it is empty |
| Report.MaxHeuresSemaine | src/services/pdf.service.js:147-171 | the reported maximum is the largest week load of the worker on this site, or 0 when there is none |
| Report.MaxCellMeaning | src/services/pdf.service.js:147-171 | the reported maximum is at least every week's load, is the load of some week when a date was filed, and is 0 when none was |
| Report.DaysBeforeMonthGrows | src/services/pdf.service.js:232-237 | each month adds at least 28 days |
| Report.PeriodBoundsMeaning | src/services/pdf.service.js:226-238 | the period holds today; for `mois` it runs from the first to the last day of this month, otherwise over the three months of this quarter |
| Report.InPeriodIffSharesADate | src/services/pdf.service.js:241-245 | a site is in the period exactly when its window and the period share a date |
| Report.SitesInPeriod | src/services/pdf.service.js:241-245 | keeps exactly the sites whose start is on or before the period's end and whose end is on or after its start |
| Report.InsertPermutes | src/services/pdf.service.js:264 | inserting a site adds exactly that site |
| Report.InsertKeepsSorted | src/services/pdf.service.js:264 | inserting into a list sorted by start keeps it sorted |
| Report.SortByStartSorted | src/services/pdf.service.js:264 | the sort returns the same sites, ordered by ascending start |
| Report.InProgress | src/services/pdf.service.js:251-256 | keeps exactly the sites whose window holds today |
| Report.StateLabelMeaning | src/services/pdf.service.js:280-286 | `À venir` exactly before the start, `Terminé` exactly after the end, `En cours` exactly within the window; the in-progress count lists exactly the `En cours` sites |

## Left out

- Persistence: Mongoose queries, `save`, `updateOne`, `$pull`, `populate` and the database connection become reads and writes of the in-memory collections of `Database`.
- Write failures: a failed write is not modelled.
- Geocoding and distance: they are network calls and floating-point trigonometry. A geocode result is a parameter (`geocoded`). The distance sort is the identity, because its comparator always yields `NaN`.
- HTTP glue: routes, status codes, the other controllers (`affectation.controller.js` runs the global pass and ignores its id) and the export controller.
- Rendering and logging: pdfkit output, `toLocaleDateString` and console output are not modelled.
- `getAllAffectations`: it is a populate projection and is left out.
- `logHeuresParSemaine`: it is console output. The model keeps only the fact that it reads `joursSemaine` (`LogReachesUndeclared`).
- The five stub strategies (`src/services/affectation.algos.js:250-268`): they return constant strings.
- Time: time zones, daylight saving, times within a day and `toISOString` keys are not modelled. Dates are whole days from 1970 on.
- Weekday names: only the seven lower-case French names are modelled. `toLowerCase` and a name outside them are left out; with such a name the source's advance loop never ends.
- Concurrency: `async`/`await` and `Promise.all` in the reset are modelled as sequential loops.
- NaN and missing fields: NaN inputs, a missing `besoins_equipe` and the Mongoose validation error wording are left out. A schema failure is the single message `validation failed`.
- Team duplicates: the team is a sequence that may hold one worker twice. The source's `Set` of separately fetched ids does not deduplicate them.
- Outdated test expectations: the repository's tests expect an `Aucun salarié disponible` error that the code never raises.
- Report.SortByStartSorted: it states sorted and a permutation but not the sort's stability on equal starts.
- Report.MaxHeuresSemaine: it computes `Math.max` over the dictionary's values with a loop over its keys.
- AffectationAlgos.WholeSite: the distance sort is left out as the identity; see above.
- Coordinates: the model reads an unset `coordonnees` as absent (`None`), and the guards `if (chantier.coordonnees)` and `filter(s => s.coordonnees)` as a test for presence. Both schemas declare `coordonnees` as a nested path (`src/models/chantier.model.js:6`, `src/models/salarie.model.js:15`), and on a loaded Mongoose document a nested path reads as an object, possibly empty, so in the running service those guards may keep every worker and site. `AffectationUtils.EligibleAmong`, `AllocationRules.WithCoordsSpec`, `AffectationAlgos.HoldersFromSpec`, `AffectationAlgos.WholeSiteCandidatesMeaning`, `AffectationAlgos.SlotGroupSpec`, `AffectationAlgos.SlotCandidatesMeaning` and `AffectationService.DateCandidatesSpec` state the presence reading; the framework's reading is not modelled.
- Fractional headcounts: `besoins_equipe` maps skills to `Number`s, but `Need.count` is an integer. With 1.5 the source's `poste < nombreRequis` loop fills 2 posts (`src/services/affectation.algos.js:181`) and the per-date pass stops at `pourvuCeJour >= 1.5`; the model cannot state such a headcount.
- Controllers.CreateSiteOutcome: a weekly-hours value of 35 or more, or 0, leaves `jours_prestation` unset in the source; the model stores an empty list.

## Findings

| source | as written | input that shows it | evidently intended | confidence | as-written member | corrected member |
|---|---|---|---|---|---|---|
| src/services/affectation.service.js:71 | `joursSemaine` is read at lines 71, 169 and 297 but never declared in the file, so past the guards and the zero-demand shortcut the call throws a `ReferenceError` | a `Nouveau` site needing one `vitres` worker on `lundi`, with at least one worker holding `vitres` | the Sunday-first weekday list the live pass declares (`src/services/affectation.algos.js:12`), so that a site with a fitting all-skills candidate is planned | not executed | AffectationService.AsWrittenNeverStaffsAServiceDay | AffectationService.IntendedStaffsAServiceDay |
| src/services/affectation.algos.js:59-76 | each date is tested against the week's hours plus one service day (`heuresSemaine + hParJour > 35`), then every weekday of the site is booked at once | a worker with 28 hours in a week (a record on `mardi`, `mercredi`, `jeudi`, `samedi`, 7 hours a day) and a 14-hour `lundi`/`vendredi` site over that week: each date passes with 35 hours, the booked week holds 42 | the weekly test counts every hour the site adds to that week, so no week exceeds 35 hours | not executed | PassInvariants.WholeSiteTestOverbooksAWeek | PassInvariants.WholeSiteWeeklyCapKept |
| src/services/affectation.algos.js:199-229 | the first date of the weekday that passes (busy dates skipped) books that weekday over the whole window | a worker with a `lundi` record over days 10 to 12 and a `lundi` site over days 0 to 30: Monday day 4 passes and Monday day 11 ends up in two records | the slot goes only to a worker passing at every date of the weekday | not executed | PassInvariants.SlotTestDoubleBooks | PassInvariants.SlotTestEveryWeekKeepsRules |
| src/services/affectation.algos.js:209-224 | the end-of-contract test of one passing date stands for the whole window | a CDD ending on day 3 and a `jeudi` site over days 0 to 30: Thursday day 0 passes, and the worker is booked on Thursday day 28 | a CDD is booked only on dates before the contract's end | not executed | PassInvariants.SlotTestBooksPastContractEnd | PassInvariants.SlotTestEveryWeekKeepsRules |

The live pass (`AffectationAlgos`) models the code as written for these three rows. The corrected
tests (`FitsWholeSiteWithOwnHours`, `AbleEveryWeek`) are stated and proved beside it in
`PassInvariants`, and each is shown to refuse the worker of its counterexample.
