/** The records and enumerations of the lead CRM's database schema
    (src/lib/server/db/schema.ts): the `leads` and `activities` tables, the
    three Postgres enums, the column width limits and the column defaults. */
module LeadModel {
  import opened Wrappers

  /** Postgres enum `lead_status`; the validation schema lists the same six values. */
  datatype LeadStatus = New | Contacted | Qualified | Proposal | Won | Lost

  /** Every lead source either enum knows: the database enum `lead_source`
      has `google_places` and no `bigl_bot`; the validation schema has
      `bigl_bot` and no `google_places`. */
  datatype LeadSource = Scraped | Manual | Referral | GooglePlaces | Directory | BiglBot

  /** Postgres enum `activity_type`. */
  datatype ActivityType = Note | Email | Call | Meeting | ProposalSent | StatusChange

  const AllStatuses: seq<LeadStatus> := [New, Contacted, Qualified, Proposal, Won, Lost]

  function StatusName(s: LeadStatus): string
  {
    match s
    case New => "new"
    case Contacted => "contacted"
    case Qualified => "qualified"
    case Proposal => "proposal"
    case Won => "won"
    case Lost => "lost"
  }

  function SourceName(s: LeadSource): string
  {
    match s
    case Scraped => "scraped"
    case Manual => "manual"
    case Referral => "referral"
    case GooglePlaces => "google_places"
    case Directory => "directory"
    case BiglBot => "bigl_bot"
  }

  function ActivityTypeName(t: ActivityType): string
  {
    match t
    case Note => "note"
    case Email => "email"
    case Call => "call"
    case Meeting => "meeting"
    case ProposalSent => "proposal_sent"
    case StatusChange => "status_change"
  }

  /** Reading a status back from its text form; anything else is not a status. */
  function ParseStatus(t: string): (r: Option<LeadStatus>)
    ensures r.Some? ==> StatusName(r.value) == t
  {
    if t == "new" then Some(New)
    else if t == "contacted" then Some(Contacted)
    else if t == "qualified" then Some(Qualified)
    else if t == "proposal" then Some(Proposal)
    else if t == "won" then Some(Won)
    else if t == "lost" then Some(Lost)
    else None
  }

  function ParseSource(t: string): (r: Option<LeadSource>)
    ensures r.Some? ==> SourceName(r.value) == t
  {
    if t == "scraped" then Some(Scraped)
    else if t == "manual" then Some(Manual)
    else if t == "referral" then Some(Referral)
    else if t == "google_places" then Some(GooglePlaces)
    else if t == "directory" then Some(Directory)
    else if t == "bigl_bot" then Some(BiglBot)
    else None
  }

  function ParseActivityType(t: string): (r: Option<ActivityType>)
    ensures r.Some? ==> ActivityTypeName(r.value) == t
  {
    if t == "note" then Some(Note)
    else if t == "email" then Some(Email)
    else if t == "call" then Some(Call)
    else if t == "meeting" then Some(Meeting)
    else if t == "proposal_sent" then Some(ProposalSent)
    else if t == "status_change" then Some(StatusChange)
    else None
  }

  /** Each enumeration's text form reads back as the same value. */
  lemma NamesRoundTrip(s: LeadStatus, src: LeadSource, t: ActivityType)
    ensures ParseStatus(StatusName(s)) == Some(s)
    ensures ParseSource(SourceName(src)) == Some(src)
    ensures ParseActivityType(ActivityTypeName(t)) == Some(t)
  {
  }

  /** The values the database enum `lead_source` accepts. */
  predicate InDbSourceEnum(s: LeadSource)
  {
    s != BiglBot
  }

  /** Primary key of the `leads` table; the model hands out fresh keys
      instead of random UUIDs. */
  type LeadId = nat

  /** A value in a `jsonb` metadata object. */
  datatype MetaValue = MetaText(text: string) | MetaNumber(number: real) | MetaPoint(lat: real, lng: real)

  type Metadata = map<string, MetaValue>

  /** An insert value that distinguishes a key left out (`undefined`) from an
      explicit `null`, as `===` does. */
  datatype Nullable<+T> = Undefined | Null | Present(value: T)
  {
    function ToOption(): Option<T>
    {
      if Present? then Some(value) else None
    }
  }

  /** A row of the `leads` table. Nullable columns are `Option`s; timestamps
      are abstract clock values. */
  datatype Lead = Lead(
    id: LeadId,
    businessName: string,
    contactPerson: Option<string>,
    email: Option<string>,
    phone: Option<string>,
    websiteUrl: Option<string>,
    websiteScore: Option<int>,
    address: Option<string>,
    city: Option<string>,
    postalCode: Option<string>,
    country: Option<string>,
    businessType: Option<string>,
    source: LeadSource,
    status: LeadStatus,
    estimatedValue: Option<int>,
    notes: Option<string>,
    tags: seq<string>,
    metadata: Metadata,
    createdAt: int,
    updatedAt: int,
    contactedAt: Option<int>)

  /** The values of an insert into `leads` (`NewLead`); `None` leaves the column
      to its default. */
  datatype NewLead = NewLead(
    businessName: string,
    contactPerson: Option<string>,
    email: Option<string>,
    phone: Option<string>,
    websiteUrl: Nullable<string>,
    websiteScore: Option<int>,
    address: Option<string>,
    city: Option<string>,
    postalCode: Option<string>,
    country: Option<string>,
    businessType: Option<string>,
    source: Option<LeadSource>,
    status: Option<LeadStatus>,
    estimatedValue: Option<int>,
    notes: Option<string>,
    tags: Option<seq<string>>,
    metadata: Option<Metadata>)

  /** The values of an update of `leads` (`Partial<NewLead>`); `None` leaves the
      column as it is. */
  datatype LeadPatch = LeadPatch(
    businessName: Option<string>,
    contactPerson: Option<string>,
    email: Option<string>,
    phone: Option<string>,
    websiteUrl: Option<string>,
    websiteScore: Option<int>,
    address: Option<string>,
    city: Option<string>,
    postalCode: Option<string>,
    country: Option<string>,
    businessType: Option<string>,
    source: Option<LeadSource>,
    status: Option<LeadStatus>,
    estimatedValue: Option<int>,
    notes: Option<string>,
    tags: Option<seq<string>>,
    metadata: Option<Metadata>)

  /** A row of the `activities` table. */
  datatype Activity = Activity(
    id: nat,
    leadId: LeadId,
    kind: ActivityType,
    title: string,
    description: Option<string>,
    metadata: Metadata,
    createdAt: int)

  /** The values of an insert into `activities`. */
  datatype NewActivity = NewActivity(leadId: LeadId, kind: ActivityType, title: string, description: Option<string>)

  /** Why Postgres refuses a statement. */
  datatype DbError =
    | ValueTooLong(column: string)
    | IntegerOutOfRange(column: string)
    | InvalidEnumValue(value: string)
    | ForeignKeyViolation

  /** The range of a Postgres `integer` column. */
  predicate IsInt4(n: int)
  {
    -0x8000_0000 <= n < 0x8000_0000
  }

  /** A `varchar(n)` column holds at most `n` characters. */
  predicate FitsVarchar(v: Option<string>, n: nat)
  {
    v.None? || |v.value| <= n
  }

  predicate FitsInt4(v: Option<int>)
  {
    v.None? || IsInt4(v.value)
  }

  /** The first column of a row whose value Postgres would refuse, in column
      order; `None` when the row fits the table. */
  function RowViolation(l: Lead): (e: Option<DbError>)
    ensures e.None? <==> RowFits(l)
  {
    if |l.businessName| > 255 then Some(ValueTooLong("business_name"))
    else if !FitsVarchar(l.contactPerson, 255) then Some(ValueTooLong("contact_person"))
    else if !FitsVarchar(l.email, 255) then Some(ValueTooLong("email"))
    else if !FitsVarchar(l.phone, 50) then Some(ValueTooLong("phone"))
    else if !FitsInt4(l.websiteScore) then Some(IntegerOutOfRange("website_score"))
    else if !FitsVarchar(l.city, 100) then Some(ValueTooLong("city"))
    else if !FitsVarchar(l.postalCode, 10) then Some(ValueTooLong("postal_code"))
    else if !FitsVarchar(l.country, 100) then Some(ValueTooLong("country"))
    else if !FitsVarchar(l.businessType, 100) then Some(ValueTooLong("business_type"))
    else if !FitsInt4(l.estimatedValue) then Some(IntegerOutOfRange("estimated_value"))
    else None
  }

  /** Every column of the row is within its declared width and range. */
  predicate RowFits(l: Lead)
  {
    && |l.businessName| <= 255
    && FitsVarchar(l.contactPerson, 255) && FitsVarchar(l.email, 255) && FitsVarchar(l.phone, 50)
    && FitsInt4(l.websiteScore)
    && FitsVarchar(l.city, 100) && FitsVarchar(l.postalCode, 10) && FitsVarchar(l.country, 100)
    && FitsVarchar(l.businessType, 100) && FitsInt4(l.estimatedValue)
  }

  /** The row an insert stores: the given values, and the column defaults
      (`country` Austria, `source` manual, `status` new, empty tags and
      metadata, both timestamps now) for the ones left out. */
  function RowOf(id: LeadId, d: NewLead, now: int): (l: Lead)
    ensures l.id == id && l.businessName == d.businessName && l.createdAt == now && l.updatedAt == now
    ensures l.country == (if d.country.Some? then d.country else Some("Austria"))
    ensures l.source == (if d.source.Some? then d.source.value else Manual)
    ensures l.status == (if d.status.Some? then d.status.value else New)
    ensures l.websiteUrl == d.websiteUrl.ToOption() && l.city == d.city && l.contactedAt.None?
  {
    Lead(
      id, d.businessName, d.contactPerson, d.email, d.phone, d.websiteUrl.ToOption(),
      d.websiteScore, d.address, d.city, d.postalCode,
      if d.country.Some? then d.country else Some("Austria"),
      d.businessType,
      if d.source.Some? then d.source.value else Manual,
      if d.status.Some? then d.status.value else New,
      d.estimatedValue, d.notes,
      if d.tags.Some? then d.tags.value else [],
      if d.metadata.Some? then d.metadata.value else map[],
      now, now, None)
  }

  function Override<T>(patch: Option<T>, current: T): T
  {
    if patch.Some? then patch.value else current
  }

  function OverrideNullable<T>(patch: Option<T>, current: Option<T>): Option<T>
  {
    if patch.Some? then patch else current
  }

  /** The row an update leaves: the patched columns replaced, the others
      kept, `updatedAt` set to now; id, creation time and contact time kept. */
  function Patched(l: Lead, p: LeadPatch, now: int): (r: Lead)
    ensures r.id == l.id && r.createdAt == l.createdAt && r.contactedAt == l.contactedAt && r.updatedAt == now
    ensures r.status == (if p.status.Some? then p.status.value else l.status)
    ensures r.businessName == (if p.businessName.Some? then p.businessName.value else l.businessName)
  {
    Lead(
      l.id,
      Override(p.businessName, l.businessName),
      OverrideNullable(p.contactPerson, l.contactPerson),
      OverrideNullable(p.email, l.email),
      OverrideNullable(p.phone, l.phone),
      OverrideNullable(p.websiteUrl, l.websiteUrl),
      OverrideNullable(p.websiteScore, l.websiteScore),
      OverrideNullable(p.address, l.address),
      OverrideNullable(p.city, l.city),
      OverrideNullable(p.postalCode, l.postalCode),
      OverrideNullable(p.country, l.country),
      OverrideNullable(p.businessType, l.businessType),
      Override(p.source, l.source),
      Override(p.status, l.status),
      OverrideNullable(p.estimatedValue, l.estimatedValue),
      OverrideNullable(p.notes, l.notes),
      Override(p.tags, l.tags),
      Override(p.metadata, l.metadata),
      l.createdAt, now, l.contactedAt)
  }
}
