/** The lead repository (src/lib/server/repositories/lead.repository.ts) over
    an in-memory copy of the `leads` and `activities` tables. What the
    query-builder calls ask of Postgres (filter, order, limit/offset, count,
    update, delete with cascade, group-count) is stated here directly. */
module LeadRepository {
  import opened Wrappers
  import opened Text
  import opened LeadModel
  import opened Sorting

  datatype SortColumn = CreatedAt | UpdatedAt | BusinessName | WebsiteScore | EstimatedValue

  datatype SortOrder = Asc | Desc

  /** `LeadFilters`. Limit and offset are never negative where the
      repository is called. */
  datatype LeadFilters = LeadFilters(
    search: Option<string>,
    status: Option<LeadStatus>,
    source: Option<LeadSource>,
    city: Option<string>,
    minScore: Option<int>,
    maxScore: Option<int>,
    sortBy: Option<SortColumn>,
    sortOrder: Option<SortOrder>,
    limit: Option<nat>,
    offset: Option<nat>)

  /** One page of `findAll`: the rows, the number of all matching rows, and
      the limit and offset that were applied. */
  datatype Page = Page(items: seq<Lead>, total: nat, limit: nat, offset: nat)

  /** One group of `getStats`. */
  datatype StatsRow = StatsRow(status: LeadStatus, count: nat, totalValue: int)

  /** One element of the `conditions` array `findAll` builds. */
  datatype Condition =
    | SearchAny(term: string)
    | StatusIs(status: LeadStatus)
    | SourceIs(source: LeadSource)
    | CityLike(term: string)
    | ScoreAtLeast(bound: int)
    | ScoreAtMost(bound: int)

  /** `column ILIKE '%term%'`; a NULL column never matches. */
  predicate ILike(column: Option<string>, term: string)
  {
    column.Some? && ContainsIgnoreCase(column.value, term)
  }

  /** What Postgres makes of one condition on one row (a comparison with a
      NULL score is not true). */
  predicate Holds(c: Condition, l: Lead)
  {
    match c
    case SearchAny(t) =>
      ILike(Some(l.businessName), t) || ILike(l.contactPerson, t) || ILike(l.email, t)
      || ILike(l.city, t) || ILike(l.businessType, t)
    case StatusIs(s) => l.status == s
    case SourceIs(s) => l.source == s
    case CityLike(t) => ILike(l.city, t)
    case ScoreAtLeast(n) => l.websiteScore.Some? && l.websiteScore.value >= n
    case ScoreAtMost(n) => l.websiteScore.Some? && l.websiteScore.value <= n
  }

  predicate AllHold(cs: seq<Condition>, l: Lead)
  {
    forall c :: c in cs ==> Holds(c, l)
  }

  /** The row satisfies every filter that is supplied: an empty search or city
      text is no filter, as in the source's truthiness tests. */
  predicate Matches(f: LeadFilters, l: Lead)
  {
    && (f.search.Some? && f.search.value != "" ==>
          ContainsIgnoreCase(l.businessName, f.search.value)
          || ILike(l.contactPerson, f.search.value) || ILike(l.email, f.search.value)
          || ILike(l.city, f.search.value) || ILike(l.businessType, f.search.value))
    && (f.status.Some? ==> l.status == f.status.value)
    && (f.source.Some? ==> l.source == f.source.value)
    && (f.city.Some? && f.city.value != "" ==> ILike(l.city, f.city.value))
    && (f.minScore.Some? ==> l.websiteScore.Some? && l.websiteScore.value >= f.minScore.value)
    && (f.maxScore.Some? ==> l.websiteScore.Some? && l.websiteScore.value <= f.maxScore.value)
  }

  /** The matching rows, in table order. */
  function Matching(rows: seq<Lead>, f: LeadFilters): (r: seq<Lead>)
    ensures |r| <= |rows|
    ensures forall l :: l in r <==> l in rows && Matches(f, l)
    ensures multiset(r) <= multiset(rows)
  {
    if rows == [] then []
    else
      var last := rows[|rows| - 1];
      assert rows == rows[..|rows| - 1] + [last];
      Matching(rows[..|rows| - 1], f) + if Matches(f, last) then [last] else []
  }

  /** A NULL sorts after every number: Postgres' default for ascending order
      (and so first in descending order). */
  predicate NullsLastLe(a: Option<int>, b: Option<int>)
  {
    b.None? || (a.Some? && a.value <= b.value)
  }

  /** Ascending order on one column. */
  predicate KeyLe(col: SortColumn, a: Lead, b: Lead)
  {
    match col
    case CreatedAt => a.createdAt <= b.createdAt
    case UpdatedAt => a.updatedAt <= b.updatedAt
    case BusinessName => TextLe(a.businessName, b.businessName)
    case WebsiteScore => NullsLastLe(a.websiteScore, b.websiteScore)
    case EstimatedValue => NullsLastLe(a.estimatedValue, b.estimatedValue)
  }

  /** `orderBy(asc(col))` or `orderBy(desc(col))`. */
  function RowOrder(col: SortColumn, ord: SortOrder): (Lead, Lead) -> bool
  {
    if ord == Asc then (a: Lead, b: Lead) => KeyLe(col, a, b)
    else (a: Lead, b: Lead) => KeyLe(col, b, a)
  }

  lemma KeyLeTotalPreorder(col: SortColumn, a: Lead, b: Lead, c: Lead)
    ensures KeyLe(col, a, b) || KeyLe(col, b, a)
    ensures KeyLe(col, a, b) && KeyLe(col, b, c) ==> KeyLe(col, a, c)
  {
    if col == BusinessName {
      TextLeTotal(a.businessName, b.businessName);
      if KeyLe(col, a, b) && KeyLe(col, b, c) {
        TextLeTransitive(a.businessName, b.businessName, c.businessName);
      }
    }
  }

  /** Every column order, either way round, is a total preorder, so sorting by
      it is well defined up to ties. */
  lemma RowOrderIsTotalPreorder(col: SortColumn, ord: SortOrder)
    ensures IsTotalPreorder(RowOrder(col, ord))
  {
    var le := RowOrder(col, ord);
    forall a, b ensures le(a, b) || le(b, a) {
      KeyLeTotalPreorder(col, a, b, a);
    }
    forall a, b, c | le(a, b) && le(b, c) ensures le(a, c) {
      if ord == Asc { KeyLeTotalPreorder(col, a, b, c); } else { KeyLeTotalPreorder(col, c, b, a); }
    }
  }

  function SortColumnOf(f: LeadFilters): SortColumn
  {
    if f.sortBy.Some? then f.sortBy.value else CreatedAt
  }

  function SortOrderOf(f: LeadFilters): SortOrder
  {
    if f.sortOrder == Some(Asc) then Asc else Desc
  }

  function LimitOf(f: LeadFilters): nat
  {
    if f.limit.Some? then f.limit.value else 50
  }

  function OffsetOf(f: LeadFilters): nat
  {
    if f.offset.Some? then f.offset.value else 0
  }

  /** The page `findAll` answers for `rows`: the matching rows in the chosen
      order, cut to the window, with the full count. */
  function PageOf(rows: seq<Lead>, f: LeadFilters): Page
  {
    RowOrderIsTotalPreorder(SortColumnOf(f), SortOrderOf(f));
    var matched := Matching(rows, f);
    Page(Window(SortBy(matched, RowOrder(SortColumnOf(f), SortOrderOf(f))), OffsetOf(f), LimitOf(f)),
         |matched|, LimitOf(f), OffsetOf(f))
  }

  /** A page never holds more rows than its limit. */
  lemma PageWithinLimit(rows: seq<Lead>, f: LeadFilters)
    ensures |PageOf(rows, f).items| <= LimitOf(f)
  {
    var p := PageOf(rows, f);
    assert p.limit == LimitOf(f);
  }

  /** Every row on a page is a stored row satisfying every filter; the page
      holds at most `limit` rows (50 by default) in the chosen order; `total`
      counts every matching row whatever the limit and offset. */
  lemma {:induction false} PageOfSound(rows: seq<Lead>, f: LeadFilters)
    ensures var p := PageOf(rows, f);
      && (forall l :: l in p.items ==> l in rows && Matches(f, l))
      && |p.items| <= p.limit && p.limit == LimitOf(f) && p.offset == OffsetOf(f)
      && p.total == |Matching(rows, f)|
      && (forall l :: l in rows && Matches(f, l) ==> l in Matching(rows, f))
      && SortedBy(p.items, RowOrder(SortColumnOf(f), SortOrderOf(f)))
      && (p.offset == 0 && p.total <= p.limit ==> multiset(p.items) == multiset(Matching(rows, f)))
  {
    var le := RowOrder(SortColumnOf(f), SortOrderOf(f));
    RowOrderIsTotalPreorder(SortColumnOf(f), SortOrderOf(f));
    var matched := Matching(rows, f);
    var sorted := SortBy(matched, le);
    var p := PageOf(rows, f);
    assert p.items == Window(sorted, OffsetOf(f), LimitOf(f));
    WindowSorted(sorted, OffsetOf(f), LimitOf(f), le);
    forall l | l in p.items ensures l in rows && Matches(f, l) {
      var i :| 0 <= i < |p.items| && p.items[i] == l;
      assert sorted[OffsetOf(f) + i] in multiset(sorted);
    }
    if p.offset == 0 && p.total <= p.limit {
      assert p.items == sorted;
    }
  }

  /** The position of the row with key `id`. */
  function IndexOf(rows: seq<Lead>, id: LeadId): (k: Option<nat>)
    ensures k.Some? ==> k.value < |rows| && rows[k.value].id == id
    ensures k.None? ==> forall i :: 0 <= i < |rows| ==> rows[i].id != id
  {
    if rows == [] then None
    else if rows[0].id == id then Some(0)
    else
      var k := IndexOf(rows[1..], id);
      if k.Some? then Some(k.value + 1) else None
  }

  predicate HasId(rows: seq<Lead>, id: LeadId)
  {
    exists i | 0 <= i < |rows| :: rows[i].id == id
  }

  /** What Postgres refuses in a row to be inserted: a source outside the
      column's enum, or else the first column out of range. */
  function InsertError(row: Lead): (e: Option<DbError>)
    ensures e.None? <==> InDbSourceEnum(row.source) && RowFits(row)
  {
    if !InDbSourceEnum(row.source) then Some(InvalidEnumValue(SourceName(row.source))) else RowViolation(row)
  }

  /** The row with key `id` exists and Postgres would refuse it once `p` is
      applied. */
  predicate PatchRefused(rows: seq<Lead>, id: LeadId, p: LeadPatch, now: int)
  {
    exists k | 0 <= k < |rows| :: rows[k].id == id && !RowFits(Patched(rows[k], p, now))
  }

  /** The parameters of an update are accepted when Postgres binds them:
      the source is in the database enum and both numbers are within int4.
      postgres-js sends numbers untyped, so the server reads each one as its
      column's `integer` before any row is matched. */
  predicate PatchBinds(p: LeadPatch)
  {
    && FitsInt4(p.websiteScore)
    && (p.source.None? || InDbSourceEnum(p.source.value))
    && FitsInt4(p.estimatedValue)
  }

  /** The first parameter of an update, in column order, that Postgres
      refuses while binding; `None` when all of them bind. */
  function PatchBindError(p: LeadPatch): (e: Option<DbError>)
    ensures e.None? <==> PatchBinds(p)
    ensures e.Some? && p.source.Some? && !InDbSourceEnum(p.source.value) && FitsInt4(p.websiteScore) ==>
              e.value == InvalidEnumValue(SourceName(p.source.value))
  {
    if !FitsInt4(p.websiteScore) then Some(IntegerOutOfRange("website_score"))
    else if p.source.Some? && !InDbSourceEnum(p.source.value) then Some(InvalidEnumValue(SourceName(p.source.value)))
    else if !FitsInt4(p.estimatedValue) then Some(IntegerOutOfRange("estimated_value"))
    else None
  }

  /** The score bounds of a list query are accepted when Postgres binds
      them, and so is its source; otherwise the first refused one, in the
      order the conditions are pushed. */
  function FilterBindError(f: LeadFilters): (e: Option<DbError>)
    ensures e.None? <==>
              (f.source.None? || InDbSourceEnum(f.source.value)) && FitsInt4(f.minScore) && FitsInt4(f.maxScore)
  {
    if f.source.Some? && !InDbSourceEnum(f.source.value) then Some(InvalidEnumValue(SourceName(f.source.value)))
    else if !FitsInt4(f.minScore) then Some(IntegerOutOfRange("website_score"))
    else if !FitsInt4(f.maxScore) then Some(IntegerOutOfRange("website_score"))
    else None
  }

  /** The activities left when the lead `id` is deleted (`ON DELETE CASCADE`). */
  function WithoutLead(acts: seq<Activity>, id: LeadId): (r: seq<Activity>)
    ensures forall a :: a in r <==> a in acts && a.leadId != id
    ensures |r| <= |acts|
  {
    if acts == [] then []
    else (if acts[0].leadId == id then [] else [acts[0]]) + WithoutLead(acts[1..], id)
  }

  /** The activities of one lead, in table order. */
  function ActivitiesOf(acts: seq<Activity>, id: LeadId): (r: seq<Activity>)
    ensures forall a :: a in r <==> a in acts && a.leadId == id
  {
    if acts == [] then []
    else (if acts[0].leadId == id then [acts[0]] else []) + ActivitiesOf(acts[1..], id)
  }

  /** `orderBy(desc(activities.createdAt))`. */
  function NewestFirst(): (Activity, Activity) -> bool
  {
    (a: Activity, b: Activity) => b.createdAt <= a.createdAt
  }

  /** The row `updateStatus` writes: the new status, `updatedAt` now, and
      `contactedAt` now exactly when the new status is `contacted`. */
  function WithStatus(l: Lead, s: LeadStatus, now: int): Lead
  {
    l.(status := s, updatedAt := now, contactedAt := if s == Contacted then Some(now) else l.contactedAt)
  }

  function CountOf(rows: seq<Lead>, s: LeadStatus): nat
  {
    if rows == [] then 0 else (if rows[0].status == s then 1 else 0) + CountOf(rows[1..], s)
  }

  function ValueOrZero(v: Option<int>): int
  {
    if v.Some? then v.value else 0
  }

  /** `coalesce(sum(estimated_value), 0)` over the rows of one status. */
  function ValueOf(rows: seq<Lead>, s: LeadStatus): int
  {
    if rows == [] then 0
    else (if rows[0].status == s then ValueOrZero(rows[0].estimatedValue) else 0) + ValueOf(rows[1..], s)
  }

  /** The estimated values of all rows, NULL counted as 0. */
  function TotalValue(rows: seq<Lead>): int
  {
    if rows == [] then 0 else ValueOrZero(rows[0].estimatedValue) + TotalValue(rows[1..])
  }

  /** The group of one status, present only when some row has it. */
  function Group(rows: seq<Lead>, s: LeadStatus): seq<StatsRow>
  {
    if CountOf(rows, s) > 0 then [StatsRow(s, CountOf(rows, s), ValueOf(rows, s))] else []
  }

  /** `GROUP BY status`: one group per status that occurs, in enum order. */
  function StatsOf(rows: seq<Lead>): seq<StatsRow>
  {
    Group(rows, New) + Group(rows, Contacted) + Group(rows, Qualified)
    + Group(rows, Proposal) + Group(rows, Won) + Group(rows, Lost)
  }

  function SumCounts(g: seq<StatsRow>): nat
  {
    if g == [] then 0 else g[0].count + SumCounts(g[1..])
  }

  function SumValues(g: seq<StatsRow>): int
  {
    if g == [] then 0 else g[0].totalValue + SumValues(g[1..])
  }

  /** Every row has exactly one of the six statuses. */
  lemma {:induction false} CountsPartition(rows: seq<Lead>)
    ensures CountOf(rows, New) + CountOf(rows, Contacted) + CountOf(rows, Qualified)
      + CountOf(rows, Proposal) + CountOf(rows, Won) + CountOf(rows, Lost) == |rows|
    ensures ValueOf(rows, New) + ValueOf(rows, Contacted) + ValueOf(rows, Qualified)
      + ValueOf(rows, Proposal) + ValueOf(rows, Won) + ValueOf(rows, Lost) == TotalValue(rows)
  {
    if rows != [] {
      CountsPartition(rows[1..]);
    }
  }

  lemma GroupSums(rows: seq<Lead>, s: LeadStatus)
    ensures SumCounts(Group(rows, s)) == CountOf(rows, s)
    ensures SumValues(Group(rows, s)) == ValueOf(rows, s)
  {
    if CountOf(rows, s) == 0 {
      ZeroCountZeroValue(rows, s);
    }
  }

  lemma {:induction false} ZeroCountZeroValue(rows: seq<Lead>, s: LeadStatus)
    requires CountOf(rows, s) == 0
    ensures ValueOf(rows, s) == 0
  {
    if rows != [] {
      ZeroCountZeroValue(rows[1..], s);
    }
  }

  lemma {:induction false} SumsAppend(a: seq<StatsRow>, b: seq<StatsRow>)
    ensures SumCounts(a + b) == SumCounts(a) + SumCounts(b)
    ensures SumValues(a + b) == SumValues(a) + SumValues(b)
  {
    if a == [] {
      assert a + b == b;
    } else {
      SumsAppend(a[1..], b);
      assert (a + b)[1..] == a[1..] + b;
    }
  }

  /** `getStats` answers one group per status present, with that status'
      count and value sum. */
  lemma StatsOfGroups(rows: seq<Lead>)
    ensures forall g :: g in StatsOf(rows) ==>
                g.count == CountOf(rows, g.status) > 0 && g.totalValue == ValueOf(rows, g.status)
    ensures forall s :: CountOf(rows, s) > 0 ==> StatsRow(s, CountOf(rows, s), ValueOf(rows, s)) in StatsOf(rows)
  {
  }

  /** The group counts of `getStats` add up to the number of rows, and the
      group values to the sum of all estimated values with NULL as 0. */
  lemma StatsOfTotals(rows: seq<Lead>)
    ensures SumCounts(StatsOf(rows)) == |rows|
    ensures SumValues(StatsOf(rows)) == TotalValue(rows)
  {
    CountsPartition(rows);
    GroupSums(rows, New);
    GroupSums(rows, Contacted);
    GroupSums(rows, Qualified);
    GroupSums(rows, Proposal);
    GroupSums(rows, Won);
    GroupSums(rows, Lost);
    var g1, g2, g3 := Group(rows, New), Group(rows, Contacted), Group(rows, Qualified);
    var g4, g5, g6 := Group(rows, Proposal), Group(rows, Won), Group(rows, Lost);
    SumsAppend(g1, g2);
    SumsAppend(g1 + g2, g3);
    SumsAppend(g1 + g2 + g3, g4);
    SumsAppend(g1 + g2 + g3 + g4, g5);
    SumsAppend(g1 + g2 + g3 + g4 + g5, g6);
  }

  /** The leads and activities tables. */
  class LeadStore {
    var leads: seq<Lead>
    var activities: seq<Activity>
    var nextLeadId: nat
    var nextActivityId: nat

    /** Keys are unique and below the next key handed out; every activity
        belongs to a stored lead (the foreign key). */
    ghost predicate Valid()
      reads this
    {
      && (forall i :: 0 <= i < |leads| ==> leads[i].id < nextLeadId)
      && (forall i, j :: 0 <= i < j < |leads| ==> leads[i].id != leads[j].id)
      && (forall a :: a in activities ==> a.id < nextActivityId && HasId(leads, a.leadId))
    }

    constructor ()
      ensures Valid() && leads == [] && activities == []
    {
      leads, activities := [], [];
      nextLeadId, nextActivityId := 0, 0;
    }

    /** `findAll`: builds the condition list, collects the matching rows,
        orders them, and returns the requested window with the full count.
        A `source` filter outside the database enum, or a score bound outside
        int4, fails in Postgres when the parameters are bound. */
    method FindAll(f: LeadFilters) returns (r: Result<Page, DbError>)
      requires Valid()
      ensures r.Err? <==>
                (f.source.Some? && !InDbSourceEnum(f.source.value)) || !FitsInt4(f.minScore) || !FitsInt4(f.maxScore)
      ensures r.Err? ==> Some(r.error) == FilterBindError(f)
      ensures r.Ok? ==> r.value == PageOf(leads, f)
    {
      var conditions := BuildConditions(f);
      var refused := FilterBindError(f);
      if refused.Some? {
        return Err(refused.value);
      }
      ConditionsMeanFilters(f, conditions);

      var matched: seq<Lead> := [];
      var i := 0;
      while i < |leads|
        invariant 0 <= i <= |leads|
        invariant matched == Matching(leads[..i], f)
      {
        assert leads[..i + 1][..i] == leads[..i];
        if AllHold(conditions, leads[i]) {
          matched := matched + [leads[i]];
        }
        i := i + 1;
      }
      assert leads[..i] == leads;

      var col, ord := SortColumnOf(f), SortOrderOf(f);
      RowOrderIsTotalPreorder(col, ord);
      var sorted := SortBy(matched, RowOrder(col, ord));
      var limit, offset := LimitOf(f), OffsetOf(f);
      r := Ok(Page(Window(sorted, offset, limit), |matched|, limit, offset));
    }

    /** `findById`: the row with that key, or null. */
    method FindById(id: LeadId) returns (r: Option<Lead>)
      requires Valid()
      ensures r.Some? ==> r.value in leads && r.value.id == id
      ensures r.None? <==> !HasId(leads, id)
    {
      var k := IndexOf(leads, id);
      r := if k.Some? then Some(leads[k.value]) else None;
    }

    /** `create`: inserts one row with a fresh key and the column defaults, or
        fails without a change when Postgres refuses a value. */
    method Create(d: NewLead, now: int) returns (r: Result<Lead, DbError>)
      requires Valid()
      modifies this
      ensures Valid()
      ensures r.Err? <==> !InDbSourceEnum(Override(d.source, Manual)) || !RowFits(RowOf(old(nextLeadId), d, now))
      ensures r.Ok? ==> r.value == RowOf(old(nextLeadId), d, now) && !HasId(old(leads), r.value.id)
      ensures r.Ok? ==> leads == old(leads) + [r.value]
      ensures r.Err? ==> leads == old(leads) && InsertError(RowOf(old(nextLeadId), d, now)) == Some(r.error)
      ensures activities == old(activities)
      ensures nextLeadId == old(nextLeadId) + (if r.Ok? then 1 else 0) && nextActivityId == old(nextActivityId)
    {
      if d.source.Some? && !InDbSourceEnum(d.source.value) {
        return Err(InvalidEnumValue(SourceName(d.source.value)));
      }
      var row := RowOf(nextLeadId, d, now);
      var violation := RowViolation(row);
      if violation.Some? {
        return Err(violation.value);
      }
      leads := leads + [row];
      nextLeadId := nextLeadId + 1;
      forall a | a in activities ensures HasId(leads, a.leadId) {
        var i :| 0 <= i < |old(leads)| && old(leads)[i].id == a.leadId;
        assert leads[i] == old(leads)[i];
      }
      r := Ok(row);
    }

    /** `update`: replaces the given columns of the row with that key and sets
        `updatedAt`; a missing key gives null and changes nothing. Parameters
        Postgres cannot bind fail whether or not the key exists. */
    method Update(id: LeadId, p: LeadPatch, now: int) returns (r: Result<Option<Lead>, DbError>)
      requires Valid()
      modifies this
      ensures Valid()
      ensures r.Err? <==> !PatchBinds(p) || PatchRefused(old(leads), id, p, now)
      ensures !PatchBinds(p) ==> r.Err? && Some(r.error) == PatchBindError(p)
      ensures !HasId(old(leads), id) && PatchBinds(p) ==> r == Ok(None)
      ensures r.Ok? && r.value.None? ==> !HasId(old(leads), id)
      ensures r.Err? || r.value.None? ==> leads == old(leads)
      ensures r.Ok? && r.value.Some? ==>
        exists k :: 0 <= k < |old(leads)| && old(leads)[k].id == id
          && r.value.value == Patched(old(leads)[k], p, now) && RowFits(r.value.value)
          && leads == old(leads)[k := r.value.value]
      ensures activities == old(activities)
      ensures nextLeadId == old(nextLeadId) && nextActivityId == old(nextActivityId)
    {
      var refused := PatchBindError(p);
      if refused.Some? {
        return Err(refused.value);
      }
      var k := IndexOf(leads, id);
      if k.None? {
        return Ok(None);
      }
      var row := Patched(leads[k.value], p, now);
      var violation := RowViolation(row);
      if violation.Some? {
        assert !RowFits(Patched(leads[k.value], p, now));
        return Err(violation.value);
      }
      forall j | 0 <= j < |leads| && leads[j].id == id
        ensures RowFits(Patched(leads[j], p, now))
      {
        assert j == k.value;
      }
      leads := leads[k.value := row];
      SameKeys(old(leads), k.value, row);
      r := Ok(Some(row));
    }

    /** `delete`: removes the row with that key and, by the cascade, its
        activities; a missing key gives null and changes nothing. */
    method Delete(id: LeadId) returns (r: Option<Lead>)
      requires Valid()
      modifies this
      ensures Valid()
      ensures r.None? <==> !HasId(old(leads), id)
      ensures r.None? ==> leads == old(leads) && activities == old(activities)
      ensures r.Some? ==>
                exists k :: 0 <= k < |old(leads)| && old(leads)[k] == r.value && r.value.id == id
                              && leads == old(leads)[..k] + old(leads)[k + 1..]
      ensures r.Some? ==> activities == WithoutLead(old(activities), id)
      ensures !HasId(leads, id)
      ensures nextLeadId == old(nextLeadId) && nextActivityId == old(nextActivityId)
    {
      var k := IndexOf(leads, id);
      if k.None? {
        return None;
      }
      var gone := leads[k.value];
      RemoveAtKeys(leads, k.value, nextLeadId);
      leads := leads[..k.value] + leads[k.value + 1..];
      activities := WithoutLead(activities, id);
      r := Some(gone);
    }

    /** `updateStatus`: sets the status and `updatedAt`, and `contactedAt` when
        the new status is `contacted`; a missing key gives null and changes
        nothing. */
    method UpdateStatus(id: LeadId, s: LeadStatus, now: int) returns (r: Option<Lead>)
      requires Valid()
      modifies this
      ensures Valid()
      ensures r.None? <==> !HasId(old(leads), id)
      ensures r.None? ==> leads == old(leads)
      ensures r.Some? ==>
                exists k :: 0 <= k < |old(leads)| && old(leads)[k].id == id
                              && r.value == WithStatus(old(leads)[k], s, now) && leads == old(leads)[k := r.value]
      ensures activities == old(activities)
      ensures nextLeadId == old(nextLeadId) && nextActivityId == old(nextActivityId)
    {
      var k := IndexOf(leads, id);
      if k.None? {
        return None;
      }
      var row := WithStatus(leads[k.value], s, now);
      leads := leads[k.value := row];
      SameKeys(old(leads), k.value, row);
      r := Some(row);
    }

    /** `getStats`; the `::int` cast of a group's value sum fails in Postgres
        when it leaves the integer range. */
    method GetStats() returns (r: Result<seq<StatsRow>, DbError>)
      requires Valid()
      ensures r.Ok? <==> forall g :: g in StatsOf(leads) ==> IsInt4(g.count) && IsInt4(g.totalValue)
      ensures r.Ok? ==> r.value == StatsOf(leads)
    {
      var stats := StatsOf(leads);
      if exists g :: g in stats && !IsInt4(g.count) {
        r := Err(IntegerOutOfRange("count"));
      } else if exists g :: g in stats && !IsInt4(g.totalValue) {
        r := Err(IntegerOutOfRange("total_value"));
      } else {
        r := Ok(stats);
      }
    }

    /** `getActivities`: the lead's activities, newest first. */
    method GetActivities(id: LeadId) returns (r: seq<Activity>)
      requires Valid()
      ensures multiset(r) == multiset(ActivitiesOf(activities, id))
      ensures forall a :: a in r <==> a in activities && a.leadId == id
      ensures SortedBy(r, NewestFirst())
    {
      r := SortBy(ActivitiesOf(activities, id), NewestFirst());
      forall a ensures a in r <==> a in multiset(ActivitiesOf(activities, id)) { }
    }

    /** `addActivity`: inserts one activity with a fresh serial key; a title
        over 255 characters or an unknown lead fails without a change. */
    method AddActivity(d: NewActivity, now: int) returns (r: Result<Activity, DbError>)
      requires Valid()
      modifies this
      ensures Valid()
      ensures r.Err? <==> |d.title| > 255 || !HasId(leads, d.leadId)
      ensures r.Ok? ==> r.value == Activity(old(nextActivityId), d.leadId, d.kind, d.title, d.description, map[], now)
      ensures r.Ok? ==> activities == old(activities) + [r.value]
      ensures r.Err? ==> activities == old(activities)
      ensures leads == old(leads) && nextLeadId == old(nextLeadId)
      ensures nextActivityId == old(nextActivityId) + (if r.Ok? then 1 else 0)
    {
      if |d.title| > 255 {
        return Err(ValueTooLong("title"));
      }
      if IndexOf(leads, d.leadId).None? {
        return Err(ForeignKeyViolation);
      }
      var a := Activity(nextActivityId, d.leadId, d.kind, d.title, d.description, map[], now);
      activities := activities + [a];
      nextActivityId := nextActivityId + 1;
      r := Ok(a);
    }
  }

  /** The condition list `findAll` builds: one condition per supplied
      filter, an empty search or city text counting as not supplied. */
  method BuildConditions(f: LeadFilters) returns (conditions: seq<Condition>)
    ensures forall c :: c in conditions <==>
      || (f.search.Some? && f.search.value != "" && c == SearchAny(f.search.value))
      || (f.status.Some? && c == StatusIs(f.status.value))
      || (f.source.Some? && c == SourceIs(f.source.value))
      || (f.city.Some? && f.city.value != "" && c == CityLike(f.city.value))
      || (f.minScore.Some? && c == ScoreAtLeast(f.minScore.value))
      || (f.maxScore.Some? && c == ScoreAtMost(f.maxScore.value))
  {
    conditions := [];
    if f.search.Some? && f.search.value != "" {
      conditions := conditions + [SearchAny(f.search.value)];
    }
    if f.status.Some? {
      conditions := conditions + [StatusIs(f.status.value)];
    }
    if f.source.Some? {
      conditions := conditions + [SourceIs(f.source.value)];
    }
    if f.city.Some? && f.city.value != "" {
      conditions := conditions + [CityLike(f.city.value)];
    }
    if f.minScore.Some? {
      conditions := conditions + [ScoreAtLeast(f.minScore.value)];
    }
    if f.maxScore.Some? {
      conditions := conditions + [ScoreAtMost(f.maxScore.value)];
    }
  }

  /** The pushed conditions all hold of a row exactly when it satisfies every
      supplied filter. */
  lemma ConditionsMeanFilters(f: LeadFilters, cs: seq<Condition>)
    requires forall c :: c in cs <==>
      || (f.search.Some? && f.search.value != "" && c == SearchAny(f.search.value))
      || (f.status.Some? && c == StatusIs(f.status.value))
      || (f.source.Some? && c == SourceIs(f.source.value))
      || (f.city.Some? && f.city.value != "" && c == CityLike(f.city.value))
      || (f.minScore.Some? && c == ScoreAtLeast(f.minScore.value))
      || (f.maxScore.Some? && c == ScoreAtMost(f.maxScore.value))
    ensures forall l :: AllHold(cs, l) <==> Matches(f, l)
  {
    forall l ensures AllHold(cs, l) <==> Matches(f, l) {
      if f.search.Some? && f.search.value != "" { assert SearchAny(f.search.value) in cs; }
      if f.status.Some? { assert StatusIs(f.status.value) in cs; }
      if f.source.Some? { assert SourceIs(f.source.value) in cs; }
      if f.city.Some? && f.city.value != "" { assert CityLike(f.city.value) in cs; }
      if f.minScore.Some? { assert ScoreAtLeast(f.minScore.value) in cs; }
      if f.maxScore.Some? { assert ScoreAtMost(f.maxScore.value) in cs; }
    }
  }

  /** Removing the row at `k` from a table with unique keys removes exactly
      its key, and keeps the others unique and below `bound`. */
  lemma RemoveAtKeys(rows: seq<Lead>, k: nat, bound: nat)
    requires k < |rows|
    requires forall i, j :: 0 <= i < j < |rows| ==> rows[i].id != rows[j].id
    requires forall i :: 0 <= i < |rows| ==> rows[i].id < bound
    ensures var rest := rows[..k] + rows[k + 1..];
      && (forall id :: HasId(rest, id) <==> HasId(rows, id) && id != rows[k].id)
      && (forall i, j :: 0 <= i < j < |rest| ==> rest[i].id != rest[j].id)
      && (forall i :: 0 <= i < |rest| ==> rest[i].id < bound)
  {
    var rest := rows[..k] + rows[k + 1..];
    assert forall i :: 0 <= i < |rest| ==> rest[i] == if i < k then rows[i] else rows[i + 1];
    forall id ensures HasId(rest, id) <==> HasId(rows, id) && id != rows[k].id {
      if HasId(rows, id) && id != rows[k].id {
        var i :| 0 <= i < |rows| && rows[i].id == id;
        if i < k { assert rest[i].id == id; } else { assert rest[i - 1].id == id; }
      }
    }
  }

  /** Replacing a row by one with the same key keeps the set of keys. */
  lemma SameKeys(rows: seq<Lead>, k: nat, row: Lead)
    requires k < |rows| && row.id == rows[k].id
    ensures forall id :: HasId(rows[k := row], id) <==> HasId(rows, id)
  {
    forall id ensures HasId(rows[k := row], id) <==> HasId(rows, id) {
      if HasId(rows, id) {
        var i :| 0 <= i < |rows| && rows[i].id == id;
        assert rows[k := row][i].id == id;
      }
      if HasId(rows[k := row], id) {
        var i :| 0 <= i < |rows| && rows[k := row][i].id == id;
        assert rows[i].id == id;
      }
    }
  }
}
