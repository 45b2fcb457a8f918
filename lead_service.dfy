/** The lead service (src/lib/server/services/lead.service.ts): the opportunity
    score, duplicate-checked creation, not-found handling around the
    repository, and the dashboard figures. */
module LeadService {
  import opened Wrappers
  import opened Text
  import opened LeadModel
  import opened Sorting
  import opened LeadRepository

  /** What the service throws. */
  datatype ServiceError =
    | NotFound
    | Duplicate(name: string, city: Option<string>)
    | Db(cause: DbError)

  // ---------------------------------------------------------------------
  // Opportunity score

  /** The fields `calculateScore` reads. */
  datatype ScoreInput = ScoreInput(
    websiteUrl: Option<string>,
    websiteScore: Option<int>,
    city: Option<string>,
    businessType: Option<string>)

  const TargetCities: seq<string> :=
    ["wien", "vienna", "korneuburg", "klosterneuburg", "stockerau", "graz", "linz", "salzburg"]

  const HighValueTypes: seq<string> :=
    ["restaurant", "hotel", "arzt", "rechtsanwalt", "handwerk", "immobilien", "gastro"]

  /** JavaScript truthiness of an optional string. */
  predicate Truthy(s: Option<string>)
  {
    s.Some? && s.value != ""
  }

  /** `names.some((n) => text.toLowerCase().includes(n))`. */
  predicate MentionsAny(text: string, names: seq<string>)
  {
    exists i | 0 <= i < |names| :: Contains(ToLower(text), names[i])
  }

  function WebsiteTerm(websiteScore: Option<int>): int
  {
    if websiteScore.Some? then (if 10 - websiteScore.value > 0 then 10 - websiteScore.value else 0) else 0
  }

  function CityBonus(city: Option<string>): int
  {
    if Truthy(city) && MentionsAny(city.value, TargetCities) then 2 else 0
  }

  function TypeBonus(businessType: Option<string>): int
  {
    if Truthy(businessType) && MentionsAny(businessType.value, HighValueTypes) then 2 else 0
  }

  function Clamp(n: int, lo: int, hi: int): int
    requires lo <= hi
  {
    if n < lo then lo else if n > hi then hi else n
  }

  /** The sum before clamping: base 5, the inverted website score, 3 for no
      website, 2 for a target city, 2 for a high-value type. */
  function RawScore(l: ScoreInput): int
  {
    5 + WebsiteTerm(l.websiteScore) + (if Truthy(l.websiteUrl) then 0 else 3)
    + CityBonus(l.city) + TypeBonus(l.businessType)
  }

  /** `calculateScore`: always an integer from 1 to 10. */
  function CalculateScore(l: ScoreInput): (r: int)
    ensures 1 <= r <= 10
  {
    Clamp(RawScore(l), 1, 10)
  }

  /** No term is negative, so the score never falls below the base of 5. */
  lemma ScoreAtLeastBase(l: ScoreInput)
    ensures 5 <= CalculateScore(l) <= 10
  {
  }

  /** A lead without a website scores at least 8. */
  lemma NoWebsiteScoresHigh(l: ScoreInput)
    requires !Truthy(l.websiteUrl)
    ensures CalculateScore(l) >= 8
  {
  }

  /** A worse website never lowers the score, and having a score never
      lowers it compared with having none. */
  lemma ScoreMonotoneInWebsiteScore(l: ScoreInput, lower: int, higher: int)
    requires lower <= higher
    ensures CalculateScore(l.(websiteScore := Some(lower))) >= CalculateScore(l.(websiteScore := Some(higher)))
    ensures CalculateScore(l.(websiteScore := Some(higher))) >= CalculateScore(l.(websiteScore := None))
  {
  }

  /** A website score of 5 or less alone pushes the score to the top. */
  lemma PoorWebsiteScoresTen(l: ScoreInput)
    requires l.websiteScore.Some? && l.websiteScore.value <= 5
    ensures CalculateScore(l) == 10
  {
  }

  /** A perfect website, with no target city and no high-value type, leaves
      the base score. */
  lemma PerfectWebsiteScoresBase(l: ScoreInput)
    requires l.websiteScore == Some(10) && Truthy(l.websiteUrl)
    requires CityBonus(l.city) == 0 && TypeBonus(l.businessType) == 0
    ensures CalculateScore(l) == 5
  {
  }

  /** The city bonus is earned exactly by a city whose lower-cased text
      contains one of the eight target names. */
  lemma CityBonusIff(l: ScoreInput)
    ensures RawScore(l) - RawScore(l.(city := None)) == 2
        <==> l.city.Some? && exists i | 0 <= i < |TargetCities| :: Contains(ToLower(l.city.value), TargetCities[i])
  {
    if l.city.Some? && exists i | 0 <= i < |TargetCities| :: Contains(ToLower(l.city.value), TargetCities[i]) {
      var i :| 0 <= i < |TargetCities| && Contains(ToLower(l.city.value), TargetCities[i]);
      assert l.city.value != "";
    }
  }

  /** The type bonus is earned exactly by a type whose lower-cased text
      contains one of the seven high-value names. */
  lemma TypeBonusIff(l: ScoreInput)
    ensures RawScore(l) - RawScore(l.(businessType := None)) == 2
        <==> l.businessType.Some?
             && exists i | 0 <= i < |HighValueTypes| :: Contains(ToLower(l.businessType.value), HighValueTypes[i])
  {
    if l.businessType.Some? && exists i | 0 <= i < |HighValueTypes| :: Contains(ToLower(l.businessType.value), HighValueTypes[i]) {
      var i :| 0 <= i < |HighValueTypes| && Contains(ToLower(l.businessType.value), HighValueTypes[i]);
      assert l.businessType.value != "";
    }
  }

  /** The category labels discovery assigns to restaurants, doctors, hotels,
      trades, lawyers and estate agents. */
  const BonusLabels: seq<string> :=
    ["Gastronomie", "Arzt/Gesundheit", "Hotel/Unterkunft", "Handwerk/KFZ", "Handwerk", "Rechtsanwalt", "Immobilien"]

  /** Each of those labels earns the type bonus. */
  lemma DiscoveryLabelsEarnTypeBonus(j: nat)
    requires j < |BonusLabels|
    ensures TypeBonus(Some(BonusLabels[j])) == 2
  {
    var keyword := [6, 2, 1, 4, 4, 3, 5];
    StartsWithMention(BonusLabels[j], keyword[j]);
  }

  /** A text whose lower-cased start is a high-value name mentions it. */
  lemma StartsWithMention(text: string, i: nat)
    requires i < |HighValueTypes| && |HighValueTypes[i]| <= |text|
    requires forall k :: 0 <= k < |HighValueTypes[i]| ==> LowerChar(text[k]) == HighValueTypes[i][k]
    ensures MentionsAny(text, HighValueTypes)
  {
    var name := HighValueTypes[i];
    assert ToLower(text)[..|name|] == name;
    assert OccursAt(ToLower(text), name, 0);
  }

  // ---------------------------------------------------------------------
  // Creation with duplicate check

  /** `l.city?.toLowerCase() === data.city?.toLowerCase()`: two absent cities
      are equal. */
  predicate SameCity(a: Option<string>, b: Option<string>)
  {
    (a.None? && b.None?) || (a.Some? && b.Some? && ToLower(a.value) == ToLower(b.value))
  }

  /** `l.websiteUrl === data.websiteUrl`: a stored NULL equals an explicit
      `null` but not a key left out. */
  predicate SameUrl(stored: Option<string>, given: Nullable<string>)
  {
    match given
    case Undefined => false
    case Null => stored.None?
    case Present(v) => stored == Some(v)
  }

  /** A stored lead is a duplicate of a new one: the same name ignoring case,
      and the same city ignoring case or the same website URL. */
  predicate IsDuplicateOf(l: Lead, d: NewLead)
  {
    ToLower(l.businessName) == ToLower(d.businessName)
    && (SameCity(l.city, d.city) || SameUrl(l.websiteUrl, d.websiteUrl))
  }

  /** The name search `createLead` runs before inserting. */
  function DedupFilters(name: string): LeadFilters
  {
    LeadFilters(Some(name), None, None, None, None, None, None, None, Some(10), None)
  }

  /** What the duplicate check sees: among the (at most ten) newest rows the
      name search finds, one is a duplicate. */
  predicate DuplicateFound(rows: seq<Lead>, d: NewLead)
  {
    exists l :: l in PageOf(rows, DedupFilters(d.businessName)).items && IsDuplicateOf(l, d)
  }

  /** Whatever the check reports as a duplicate is a stored duplicate. */
  lemma DuplicateFoundSound(rows: seq<Lead>, d: NewLead)
    requires DuplicateFound(rows, d)
    ensures exists l :: l in rows && IsDuplicateOf(l, d)
  {
    PageOfSound(rows, DedupFilters(d.businessName));
  }

  /** When the name search finds at most ten rows, every stored duplicate is
      found; beyond ten, only the newest ten are examined. */
  lemma DuplicateFoundComplete(rows: seq<Lead>, d: NewLead, l: Lead)
    requires l in rows && IsDuplicateOf(l, d)
    requires |Matching(rows, DedupFilters(d.businessName))| <= 10
    ensures DuplicateFound(rows, d)
  {
    var f := DedupFilters(d.businessName);
    PageOfSound(rows, f);
    assert OccursAt(ToLower(l.businessName), ToLower(d.businessName), 0);
    assert Matches(f, l);
    assert l in multiset(Matching(rows, f));
  }

  /** What `createLead` answers for `d` when the store holds `rows` and its
      next key is `next`: a duplicate is refused, then whatever Postgres
      refuses in the row, and otherwise the row is created. */
  function CreateOutcome(rows: seq<Lead>, next: LeadId, d: NewLead, now: int): (r: Result<Lead, ServiceError>)
    ensures r.Ok? <==> !DuplicateFound(rows, d) && InsertError(RowOf(next, d, now)).None?
    ensures r.Ok? ==> r.value == RowOf(next, d, now)
    ensures r.Err? && r.error.Duplicate? <==> DuplicateFound(rows, d)
  {
    if DuplicateFound(rows, d) then Err(Duplicate(d.businessName, d.city))
    else
      var e := InsertError(RowOf(next, d, now));
      if e.Some? then Err(Db(e.value)) else Ok(RowOf(next, d, now))
  }

  /** `createLead`: refuses a duplicate without touching the store; otherwise
      inserts the lead and then one `note` activity "Lead created" for it. */
  method CreateLead(store: LeadStore, d: NewLead, now: int) returns (r: Result<Lead, ServiceError>)
    requires store.Valid()
    modifies store
    ensures store.Valid()
    ensures r.Err? && r.error.Duplicate? <==> DuplicateFound(old(store.leads), d)
    ensures r.Err? ==> store.leads == old(store.leads) && store.activities == old(store.activities)
    ensures r.Err? ==> r.error.Duplicate? || r.error.Db?
    ensures r == CreateOutcome(old(store.leads), old(store.nextLeadId), d, now)
    ensures store.nextLeadId == old(store.nextLeadId) + (if r.Ok? then 1 else 0)
    ensures r.Ok? <==>
              && !DuplicateFound(old(store.leads), d)
              && InDbSourceEnum(Override(d.source, Manual))
              && RowFits(RowOf(old(store.nextLeadId), d, now))
    ensures r.Ok? ==>
              store.leads == old(store.leads) + [r.value] && r.value == RowOf(old(store.nextLeadId), d, now)
    ensures r.Ok? ==>
              && |store.activities| == |old(store.activities)| + 1
              && store.activities[..|old(store.activities)|] == old(store.activities)
              && var a := store.activities[|old(store.activities)|];
                 a.leadId == r.value.id && a.kind == Note && a.title == "Lead created" && a.createdAt == now
  {
    var existing := store.FindAll(DedupFilters(d.businessName));
    var page := existing.value;
    if exists l :: l in page.items && IsDuplicateOf(l, d) {
      return Err(Duplicate(d.businessName, d.city));
    }
    var created := store.Create(d, now);
    if created.Err? {
      return Err(Db(created.error));
    }
    var lead := created.value;
    var description := "Lead \"" + lead.businessName + "\" was added via " + SourceName(lead.source);
    var added := store.AddActivity(NewActivity(lead.id, Note, "Lead created", Some(description)), now);
    assert store.leads[|store.leads| - 1] == lead;
    r := Ok(lead);
  }

  // ---------------------------------------------------------------------
  // Not-found handling

  /** `getLeadById`. */
  method GetLeadById(store: LeadStore, id: LeadId) returns (r: Result<Lead, ServiceError>)
    requires store.Valid()
    ensures r.Err? <==> !HasId(store.leads, id)
    ensures r.Err? ==> r.error == NotFound
    ensures r.Ok? ==> r.value in store.leads && r.value.id == id
  {
    var found := store.FindById(id);
    if found.None? {
      return Err(NotFound);
    }
    r := Ok(found.value);
  }

  /** `updateLead`. */
  method UpdateLead(store: LeadStore, id: LeadId, p: LeadPatch, now: int) returns (r: Result<Lead, ServiceError>)
    requires store.Valid()
    modifies store
    ensures store.Valid()
    ensures r.Err? ==> store.leads == old(store.leads)
    ensures r.Err? ==> r.error == NotFound || r.error.Db?
    ensures r.Err? && r.error.Db? <==> !PatchBinds(p) || PatchRefused(old(store.leads), id, p, now)
    ensures !PatchBinds(p) ==> r.Err? && r.error.Db? && Some(r.error.cause) == PatchBindError(p)
    ensures r.Ok? <==> PatchBinds(p) && HasId(old(store.leads), id) && !PatchRefused(old(store.leads), id, p, now)
    ensures !HasId(old(store.leads), id) && PatchBinds(p) ==> r == Err(NotFound)
    ensures r.Ok? ==>
              exists k :: 0 <= k < |old(store.leads)| && old(store.leads)[k].id == id
                            && r.value == Patched(old(store.leads)[k], p, now)
                            && store.leads == old(store.leads)[k := r.value]
    ensures store.activities == old(store.activities)
  {
    var updated := store.Update(id, p, now);
    if updated.Err? {
      return Err(Db(updated.error));
    }
    if updated.value.None? {
      return Err(NotFound);
    }
    r := Ok(updated.value.value);
  }

  /** `updateLeadStatus`: a missing lead throws and logs nothing; otherwise
      the status changes and exactly one `status_change` activity is logged. */
  method UpdateLeadStatus(store: LeadStore, id: LeadId, s: LeadStatus, now: int) returns (r: Result<Lead, ServiceError>)
    requires store.Valid()
    modifies store
    ensures store.Valid()
    ensures r.Err? <==> !HasId(old(store.leads), id)
    ensures r.Err? ==>
              r.error == NotFound && store.leads == old(store.leads) && store.activities == old(store.activities)
    ensures r.Ok? ==>
              exists k :: 0 <= k < |old(store.leads)| && old(store.leads)[k].id == id
                            && r.value == WithStatus(old(store.leads)[k], s, now)
                            && store.leads == old(store.leads)[k := r.value]
    ensures r.Ok? ==>
              && |store.activities| == |old(store.activities)| + 1
              && store.activities[..|old(store.activities)|] == old(store.activities)
              && var a := store.activities[|old(store.activities)|];
                 a.leadId == id && a.kind == StatusChange && a.title == StatusChangeTitle(s)
  {
    var updated := store.UpdateStatus(id, s, now);
    if updated.None? {
      return Err(NotFound);
    }
    assert HasId(store.leads, id) by {
      var k :| 0 <= k < |old(store.leads)| && old(store.leads)[k].id == id
        && store.leads == old(store.leads)[k := updated.value];
      assert store.leads[k].id == id;
    }
    var description := "Lead status was updated to \"" + StatusName(s) + "\"";
    var added := store.AddActivity(NewActivity(id, StatusChange, StatusChangeTitle(s), Some(description)), now);
    r := Ok(updated.value);
  }

  function StatusChangeTitle(s: LeadStatus): (t: string)
    ensures |t| <= 255
  {
    "Status changed to \"" + StatusName(s) + "\""
  }

  /** `deleteLead`. */
  method DeleteLead(store: LeadStore, id: LeadId) returns (r: Result<Lead, ServiceError>)
    requires store.Valid()
    modifies store
    ensures store.Valid()
    ensures r.Err? <==> !HasId(old(store.leads), id)
    ensures r.Err? ==>
              r.error == NotFound && store.leads == old(store.leads) && store.activities == old(store.activities)
    ensures r.Ok? ==>
              && r.value.id == id && !HasId(store.leads, id)
              && (exists k :: 0 <= k < |old(store.leads)| && old(store.leads)[k] == r.value
                               && store.leads == old(store.leads)[..k] + old(store.leads)[k + 1..])
              && store.activities == WithoutLead(old(store.activities), id)
  {
    var deleted := store.Delete(id);
    if deleted.None? {
      return Err(NotFound);
    }
    r := Ok(deleted.value);
  }

  // ---------------------------------------------------------------------
  // Dashboard

  datatype Dashboard = Dashboard(
    totalLeads: int,
    totalPipelineValue: int,
    byStatus: map<LeadStatus, StatsRow>,
    newLeads: nat,
    contacted: nat,
    qualified: nat,
    proposals: nat,
    won: nat,
    lost: nat)

  /** `Object.fromEntries`: keyed by status, a later entry replacing an
      earlier one. */
  function ByStatus(stats: seq<StatsRow>): (m: map<LeadStatus, StatsRow>)
    ensures forall s :: s in m <==> exists g :: g in stats && g.status == s
    ensures forall s :: s in m ==> m[s] in stats && m[s].status == s
  {
    if stats == [] then map[]
    else
      var last := stats[|stats| - 1];
      var m := ByStatus(stats[..|stats| - 1]);
      assert forall g :: g in stats <==> g in stats[..|stats| - 1] || g == last;
      m[last.status := last]
  }

  /** `statusMap[s]?.count ?? 0`. */
  function CountFor(m: map<LeadStatus, StatsRow>, s: LeadStatus): nat
  {
    if s in m then m[s].count else 0
  }

  /** The dashboard figures computed from the status groups. */
  function DashboardOf(stats: seq<StatsRow>): Dashboard
  {
    var m := ByStatus(stats);
    Dashboard(SumCounts(stats), SumValues(stats), m,
      CountFor(m, New), CountFor(m, Contacted), CountFor(m, Qualified),
      CountFor(m, Proposal), CountFor(m, Won), CountFor(m, Lost))
  }

  /** A status without a group counts 0 on the dashboard. */
  lemma AbsentStatusCountsZero(stats: seq<StatsRow>, s: LeadStatus)
    requires forall g :: g in stats ==> g.status != s
    ensures CountFor(DashboardOf(stats).byStatus, s) == 0
  {
  }

  /** On the groups of a table, the dashboard's total is the number of leads,
      the pipeline value the sum of estimated values (NULL as 0), and each
      named figure the number of leads with that status. */
  lemma DashboardOfTable(rows: seq<Lead>)
    ensures var db := DashboardOf(StatsOf(rows));
      && db.totalLeads == |rows| && db.totalPipelineValue == TotalValue(rows)
      && db.newLeads == CountOf(rows, New) && db.contacted == CountOf(rows, Contacted)
      && db.qualified == CountOf(rows, Qualified) && db.proposals == CountOf(rows, Proposal)
      && db.won == CountOf(rows, Won) && db.lost == CountOf(rows, Lost)
  {
    StatsOfTotals(rows);
    StatsOfGroups(rows);
    var m := ByStatus(StatsOf(rows));
    forall s ensures CountFor(m, s) == CountOf(rows, s) {
      if s in m {
        assert m[s] in StatsOf(rows);
      }
    }
  }

  /** `getDashboardStats`. */
  method GetDashboardStats(store: LeadStore) returns (r: Result<Dashboard, ServiceError>)
    requires store.Valid()
    ensures r.Ok? <==> forall g :: g in StatsOf(store.leads) ==> IsInt4(g.count) && IsInt4(g.totalValue)
    ensures r.Ok? ==> r.value == DashboardOf(StatsOf(store.leads))
    ensures r.Ok? ==> r.value.totalLeads == |store.leads| && r.value.newLeads == CountOf(store.leads, New)
  {
    var stats := store.GetStats();
    if stats.Err? {
      return Err(Db(stats.error));
    }
    DashboardOfTable(store.leads);
    r := Ok(DashboardOf(stats.value));
  }
}
