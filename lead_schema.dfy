/** The validation schemas of src/lib/schemas/lead.schema.ts: what a lead
    form, a partial update, an activity and a list filter must satisfy, and
    the defaults filled in. Inputs arrive already typed (strings, numbers
    after coercion, string lists); e-mail and URL syntax are the validator
    library's and come in as predicates. Lengths are JavaScript lengths. */
module LeadSchema {
  import opened Wrappers
  import opened Text
  import opened LeadModel
  import opened LeadRepository

  /** `leadSourceValues`: the schema's source enum, which has `bigl_bot` and
      lacks `google_places`. */
  function ParseSchemaSource(t: string): (r: Option<LeadSource>)
    ensures r.Some? ==> SourceName(r.value) == t && r.value != GooglePlaces
    ensures r.Some? <==> t in ["bigl_bot", "manual", "referral", "scraped", "directory"]
  {
    if t == "google_places" then None else ParseSource(t)
  }

  /** A number `.int()` accepts. */
  predicate IsInteger(x: real)
  {
    x.Floor as real == x
  }

  /** `z.string().min(lo).max(hi)`, where an absent value is not checked. */
  predicate LengthWithin(v: Option<string>, lo: nat, hi: nat)
  {
    v.None? || lo <= Utf16Length(v.value) <= hi
  }

  /** `.email().or(z.literal(''))` and `.url().or(z.literal(''))`. */
  predicate ValidOrEmpty(v: Option<string>, valid: string -> bool)
  {
    v.None? || v.value == "" || valid(v.value)
  }

  /** `Number.MAX_SAFE_INTEGER`, 2^53 - 1. */
  const MaxSafeInteger: int := 9007199254740991

  /** zod 4's `.int()`: an integer no larger in magnitude than
      `Number.MAX_SAFE_INTEGER`. */
  predicate IsSafeInteger(x: real)
  {
    IsInteger(x) && -MaxSafeInteger as real <= x <= MaxSafeInteger as real
  }

  /** `z.coerce.number().int().min(lo)`, with `.max(hi)` when given. */
  predicate IntWithin(v: Option<real>, lo: int, hi: Option<int>)
  {
    v.None? || (IsSafeInteger(v.value) && lo as real <= v.value && (hi.None? || v.value <= hi.value as real))
  }

  /** An integer just past `Number.MAX_SAFE_INTEGER` is refused even where
      no maximum is given, as zod 4's `.int()` refuses it. */
  lemma UnsafeIntegerRefused(lo: int, hi: Option<int>)
    ensures !IntWithin(Some((MaxSafeInteger + 1) as real), lo, hi)
    ensures lo <= MaxSafeInteger && (hi.None? || MaxSafeInteger <= hi.value) ==>
              IntWithin(Some(MaxSafeInteger as real), lo, hi)
  {
  }

  predicate SourceOk(v: Option<string>)
  {
    v.None? || ParseSchemaSource(v.value).Some?
  }

  predicate StatusOk(v: Option<string>)
  {
    v.None? || ParseStatus(v.value).Some?
  }

  /** The body of a lead form or API request: `None` is a key left out. */
  datatype LeadInput = LeadInput(
    businessName: Option<string>,
    contactPerson: Option<string>,
    email: Option<string>,
    phone: Option<string>,
    websiteUrl: Option<string>,
    websiteScore: Option<real>,
    address: Option<string>,
    city: Option<string>,
    postalCode: Option<string>,
    country: Option<string>,
    businessType: Option<string>,
    source: Option<string>,
    status: Option<string>,
    estimatedValue: Option<real>,
    notes: Option<string>,
    tags: Option<seq<string>>)

  /** A field name when its check fails. */
  function Issue(field: string, ok: bool): seq<string>
  {
    if ok then [] else [field]
  }

  /** The failing fields other than `businessName`, in schema order; the
      same checks in both the create and the update schema. */
  function FieldIssues(i: LeadInput, isEmail: string -> bool, isUrl: string -> bool): seq<string>
  {
    Issue("contactPerson", LengthWithin(i.contactPerson, 0, 255))
    + Issue("email", ValidOrEmpty(i.email, isEmail))
    + Issue("phone", LengthWithin(i.phone, 0, 50))
    + Issue("websiteUrl", ValidOrEmpty(i.websiteUrl, isUrl))
    + Issue("websiteScore", IntWithin(i.websiteScore, 0, Some(10)))
    + Issue("city", LengthWithin(i.city, 0, 100))
    + Issue("postalCode", LengthWithin(i.postalCode, 0, 10))
    + Issue("country", LengthWithin(i.country, 0, 100))
    + Issue("businessType", LengthWithin(i.businessType, 0, 100))
    + Issue("source", SourceOk(i.source))
    + Issue("status", StatusOk(i.status))
    + Issue("estimatedValue", IntWithin(i.estimatedValue, 0, None))
  }

  /** Every field other than `businessName` passes its check. */
  predicate FieldsOk(i: LeadInput, isEmail: string -> bool, isUrl: string -> bool)
  {
    && LengthWithin(i.contactPerson, 0, 255) && ValidOrEmpty(i.email, isEmail)
    && LengthWithin(i.phone, 0, 50) && ValidOrEmpty(i.websiteUrl, isUrl)
    && IntWithin(i.websiteScore, 0, Some(10))
    && LengthWithin(i.city, 0, 100) && LengthWithin(i.postalCode, 0, 10)
    && LengthWithin(i.country, 0, 100) && LengthWithin(i.businessType, 0, 100)
    && SourceOk(i.source) && StatusOk(i.status) && IntWithin(i.estimatedValue, 0, None)
  }

  /** No field is reported exactly when every field passes. */
  lemma FieldIssuesEmpty(i: LeadInput, isEmail: string -> bool, isUrl: string -> bool)
    ensures FieldIssues(i, isEmail, isUrl) == [] <==> FieldsOk(i, isEmail, isUrl)
  {
  }

  /** The fields `createLeadSchema` refuses: `businessName` is required. */
  function CreateIssues(i: LeadInput, isEmail: string -> bool, isUrl: string -> bool): seq<string>
  {
    Issue("businessName", i.businessName.Some? && LengthWithin(i.businessName, 1, 255))
    + FieldIssues(i, isEmail, isUrl)
  }

  /** The fields `updateLeadSchema` refuses: every field may be left out. */
  function UpdateIssues(i: LeadInput, isEmail: string -> bool, isUrl: string -> bool): seq<string>
  {
    Issue("businessName", LengthWithin(i.businessName, 1, 255)) + FieldIssues(i, isEmail, isUrl)
  }

  /** What `createLeadSchema` yields: every defaulted field filled in. */
  datatype LeadData = LeadData(
    businessName: string,
    contactPerson: string,
    email: string,
    phone: string,
    websiteUrl: string,
    websiteScore: Option<int>,
    address: string,
    city: string,
    postalCode: string,
    country: string,
    businessType: string,
    source: LeadSource,
    status: LeadStatus,
    estimatedValue: Option<int>,
    notes: string,
    tags: seq<string>)

  function OrEmpty(v: Option<string>): string
  {
    if v.Some? then v.value else ""
  }

  function AsInt(v: Option<real>): Option<int>
  {
    if v.Some? then Some(v.value.Floor) else None
  }

  /** The data of an accepted lead form: the given values, and the
      defaults ('' for the text fields, Austria, manual, new, no tags) for
      the ones left out. */
  function Filled(i: LeadInput): (d: LeadData)
    requires i.businessName.Some? && SourceOk(i.source) && StatusOk(i.status)
    ensures d.businessName == i.businessName.value
    ensures d.country == (if i.country.Some? then i.country.value else "Austria")
    ensures d.source == (if i.source.Some? then ParseSchemaSource(i.source.value).value else Manual)
    ensures d.status == (if i.status.Some? then ParseStatus(i.status.value).value else New)
    ensures d.email == OrEmpty(i.email) && d.websiteUrl == OrEmpty(i.websiteUrl)
    ensures d.websiteScore.Some? <==> i.websiteScore.Some?
  {
    LeadData(
      i.businessName.value,
      OrEmpty(i.contactPerson),
      OrEmpty(i.email),
      OrEmpty(i.phone),
      OrEmpty(i.websiteUrl),
      AsInt(i.websiteScore),
      OrEmpty(i.address),
      OrEmpty(i.city),
      OrEmpty(i.postalCode),
      if i.country.Some? then i.country.value else "Austria",
      OrEmpty(i.businessType),
      if i.source.Some? then ParseSchemaSource(i.source.value).value else Manual,
      if i.status.Some? then ParseStatus(i.status.value).value else New,
      AsInt(i.estimatedValue),
      OrEmpty(i.notes),
      if i.tags.Some? then i.tags.value else [])
  }

  /** The data of an accepted form meets every bound of the schema. */
  predicate WithinBounds(d: LeadData, isEmail: string -> bool, isUrl: string -> bool)
  {
    && 1 <= Utf16Length(d.businessName) <= 255 && Utf16Length(d.contactPerson) <= 255
    && (d.email == "" || isEmail(d.email)) && Utf16Length(d.phone) <= 50
    && (d.websiteUrl == "" || isUrl(d.websiteUrl))
    && (d.websiteScore.Some? ==> 0 <= d.websiteScore.value <= 10)
    && Utf16Length(d.city) <= 100 && Utf16Length(d.postalCode) <= 10
    && Utf16Length(d.country) <= 100 && Utf16Length(d.businessType) <= 100
    && d.source != GooglePlaces
    && (d.estimatedValue.Some? ==> d.estimatedValue.value >= 0)
  }

  lemma FilledWithinBounds(i: LeadInput, isEmail: string -> bool, isUrl: string -> bool)
    requires i.businessName.Some? && LengthWithin(i.businessName, 1, 255) && FieldsOk(i, isEmail, isUrl)
    ensures WithinBounds(Filled(i), isEmail, isUrl)
  {
    var d := Filled(i);
    assert d == LeadData(
      i.businessName.value, OrEmpty(i.contactPerson), OrEmpty(i.email), OrEmpty(i.phone),
      OrEmpty(i.websiteUrl), AsInt(i.websiteScore), OrEmpty(i.address), OrEmpty(i.city),
      OrEmpty(i.postalCode), d.country, OrEmpty(i.businessType), d.source, d.status,
      AsInt(i.estimatedValue), OrEmpty(i.notes), d.tags);
    BoundsOfFields(d, i, isEmail, isUrl);
  }

  lemma BoundsOfFields(d: LeadData, i: LeadInput, isEmail: string -> bool, isUrl: string -> bool)
    requires i.businessName.Some? && LengthWithin(i.businessName, 1, 255) && FieldsOk(i, isEmail, isUrl)
    requires d.businessName == i.businessName.value && d.contactPerson == OrEmpty(i.contactPerson)
    requires d.email == OrEmpty(i.email) && d.phone == OrEmpty(i.phone)
    requires d.websiteUrl == OrEmpty(i.websiteUrl) && d.websiteScore == AsInt(i.websiteScore)
    requires d.city == OrEmpty(i.city) && d.postalCode == OrEmpty(i.postalCode)
    requires d.country == (if i.country.Some? then i.country.value else "Austria")
    requires d.businessType == OrEmpty(i.businessType)
    requires d.source == (if i.source.Some? then ParseSchemaSource(i.source.value).value else Manual)
    requires d.estimatedValue == AsInt(i.estimatedValue)
    ensures WithinBounds(d, isEmail, isUrl)
  {
    assert Utf16Length(d.country) <= 100 by {
      assert Utf16Length("Austria") == 7;
    }
    OrEmptyWithin(i.contactPerson, 255);
    OrEmptyWithin(i.phone, 50);
    OrEmptyWithin(i.city, 100);
    OrEmptyWithin(i.postalCode, 10);
    OrEmptyWithin(i.businessType, 100);
  }

  lemma OrEmptyWithin(v: Option<string>, hi: nat)
    requires LengthWithin(v, 0, hi)
    ensures Utf16Length(OrEmpty(v)) <= hi
  {
  }

  /** `createLeadSchema.safeParse`: the failing fields, or the data with the
      defaults filled in, within every bound of the schema. */
  function ValidateCreate(i: LeadInput, isEmail: string -> bool, isUrl: string -> bool)
    : (r: Result<LeadData, seq<string>>)
    ensures r.Err? <==> CreateIssues(i, isEmail, isUrl) != []
    ensures r.Err? ==> r.error == CreateIssues(i, isEmail, isUrl)
    ensures r.Ok? ==> WithinBounds(r.value, isEmail, isUrl)
    ensures r.Ok? ==> i.businessName.Some? && SourceOk(i.source) && StatusOk(i.status) && r.value == Filled(i)
  {
    var issues := CreateIssues(i, isEmail, isUrl);
    if issues != [] then Err(issues)
    else
      FieldIssuesEmpty(i, isEmail, isUrl);
      FilledWithinBounds(i, isEmail, isUrl);
      Ok(Filled(i))
  }

  /** What the update schema yields; `None` is a key left out. */
  datatype LeadUpdate = LeadUpdate(
    businessName: Option<string>,
    contactPerson: Option<string>,
    email: Option<string>,
    phone: Option<string>,
    websiteUrl: Option<string>,
    websiteScore: Option<int>,
    address: Option<string>,
    city: Option<string>,
    postalCode: Option<string>,
    country: Option<string>,
    businessType: Option<string>,
    source: Option<LeadSource>,
    status: Option<LeadStatus>,
    estimatedValue: Option<int>,
    notes: Option<string>,
    tags: Option<seq<string>>)

  /** The two numeric fields come back exactly when given, as the integers
      given, within their bounds. */
  predicate NumbersCarried(websiteScore: Option<int>, estimatedValue: Option<int>, i: LeadInput)
  {
    && (websiteScore.Some? <==> i.websiteScore.Some?)
    && (websiteScore.Some? ==> websiteScore.value as real == i.websiteScore.value && 0 <= websiteScore.value <= 10)
    && (estimatedValue.Some? <==> i.estimatedValue.Some?)
    && (estimatedValue.Some? ==> estimatedValue.value as real == i.estimatedValue.value && estimatedValue.value >= 0)
  }

  /** `updateLeadSchema.safeParse` as zod 4 runs `createLeadSchema.partial()`:
      every field may be left out, the checks are those of creation, and a
      field left out that has a `.default()` still comes back with its
      default. Only `businessName`, `websiteScore` and `estimatedValue`,
      which have none, stay out. */
  function ValidateUpdate(i: LeadInput, isEmail: string -> bool, isUrl: string -> bool)
    : (r: Result<LeadUpdate, seq<string>>)
    ensures r.Err? <==> UpdateIssues(i, isEmail, isUrl) != []
    ensures r.Err? ==> r.error == UpdateIssues(i, isEmail, isUrl)
    ensures r.Ok? ==>
              && r.value.businessName == i.businessName
              && r.value.contactPerson == Some(OrEmpty(i.contactPerson)) && r.value.email == Some(OrEmpty(i.email))
              && r.value.phone == Some(OrEmpty(i.phone)) && r.value.websiteUrl == Some(OrEmpty(i.websiteUrl))
              && r.value.address == Some(OrEmpty(i.address)) && r.value.city == Some(OrEmpty(i.city))
              && r.value.postalCode == Some(OrEmpty(i.postalCode))
              && r.value.businessType == Some(OrEmpty(i.businessType)) && r.value.notes == Some(OrEmpty(i.notes))
              && r.value.country == Some(if i.country.Some? then i.country.value else "Austria")
              && r.value.tags == Some(if i.tags.Some? then i.tags.value else [])
    ensures r.Ok? ==>
              && r.value.source.Some? && r.value.source.value != GooglePlaces
              && (if i.source.Some? then SourceName(r.value.source.value) == i.source.value else r.value.source.value == Manual)
              && r.value.status.Some?
              && (if i.status.Some? then StatusName(r.value.status.value) == i.status.value else r.value.status.value == New)
              && NumbersCarried(r.value.websiteScore, r.value.estimatedValue, i)
  {
    var issues := UpdateIssues(i, isEmail, isUrl);
    if issues != [] then Err(issues)
    else
      FieldIssuesEmpty(i, isEmail, isUrl);
      Ok(LeadUpdate(
        i.businessName, Some(OrEmpty(i.contactPerson)), Some(OrEmpty(i.email)), Some(OrEmpty(i.phone)),
        Some(OrEmpty(i.websiteUrl)),
        AsInt(i.websiteScore),
        Some(OrEmpty(i.address)), Some(OrEmpty(i.city)), Some(OrEmpty(i.postalCode)),
        Some(if i.country.Some? then i.country.value else "Austria"),
        Some(OrEmpty(i.businessType)),
        Some(if i.source.Some? then ParseSchemaSource(i.source.value).value else Manual),
        Some(if i.status.Some? then ParseStatus(i.status.value).value else New),
        AsInt(i.estimatedValue),
        Some(OrEmpty(i.notes)),
        Some(if i.tags.Some? then i.tags.value else [])))
  }

  /** The update the schema evidently means: the same checks, and a field
      left out stays out, so the row keeps that column. */
  function ValidatePartialUpdate(i: LeadInput, isEmail: string -> bool, isUrl: string -> bool)
    : (r: Result<LeadUpdate, seq<string>>)
    ensures r.Err? <==> UpdateIssues(i, isEmail, isUrl) != []
    ensures r.Err? ==> r.error == UpdateIssues(i, isEmail, isUrl)
    ensures r.Ok? ==>
              && r.value.businessName == i.businessName && r.value.contactPerson == i.contactPerson
              && r.value.email == i.email && r.value.phone == i.phone && r.value.websiteUrl == i.websiteUrl
              && r.value.address == i.address && r.value.city == i.city && r.value.postalCode == i.postalCode
              && r.value.country == i.country && r.value.businessType == i.businessType
              && r.value.notes == i.notes && r.value.tags == i.tags
    ensures r.Ok? ==>
              && (r.value.source.Some? <==> i.source.Some?)
              && (r.value.source.Some? ==> SourceName(r.value.source.value) == i.source.value
                                           && r.value.source.value != GooglePlaces)
              && (r.value.status.Some? <==> i.status.Some?)
              && (r.value.status.Some? ==> StatusName(r.value.status.value) == i.status.value)
              && NumbersCarried(r.value.websiteScore, r.value.estimatedValue, i)
  {
    var issues := UpdateIssues(i, isEmail, isUrl);
    if issues != [] then Err(issues)
    else
      FieldIssuesEmpty(i, isEmail, isUrl);
      Ok(LeadUpdate(
        i.businessName, i.contactPerson, i.email, i.phone, i.websiteUrl,
        AsInt(i.websiteScore),
        i.address, i.city, i.postalCode, i.country, i.businessType,
        if i.source.Some? then ParseSchemaSource(i.source.value) else None,
        if i.status.Some? then ParseStatus(i.status.value) else None,
        AsInt(i.estimatedValue),
        i.notes, i.tags))
  }

  /** The values `updateLead` receives from a validated update; metadata is
      not a form field. */
  function PatchOf(u: LeadUpdate): LeadPatch
  {
    LeadPatch(
      u.businessName, u.contactPerson, u.email, u.phone, u.websiteUrl, u.websiteScore,
      u.address, u.city, u.postalCode, u.country, u.businessType, u.source, u.status,
      u.estimatedValue, u.notes, u.tags, None)
  }

  /** As written, an update leaving out a defaulted field overwrites that
      column with the default: a won lead whose edit omits `status` is new
      again, and an omitted country becomes Austria. */
  lemma UpdateResetsAbsent(i: LeadInput, l: Lead, now: int, isEmail: string -> bool, isUrl: string -> bool)
    requires ValidateUpdate(i, isEmail, isUrl).Ok?
    ensures var row := Patched(l, PatchOf(ValidateUpdate(i, isEmail, isUrl).value), now);
      && (i.status.None? ==> row.status == New)
      && (i.source.None? ==> row.source == Manual)
      && (i.country.None? ==> row.country == Some("Austria"))
      && (i.email.None? ==> row.email == Some(""))
      && (i.tags.None? ==> row.tags == [])
  {
  }

  /** An update naming no field at all turns a won lead into a new one. */
  lemma EmptyUpdateReopensWon(l: Lead, now: int, isEmail: string -> bool, isUrl: string -> bool)
    requires l.status == Won
    ensures ValidateUpdate(NoFields, isEmail, isUrl).Ok?
    ensures Patched(l, PatchOf(ValidateUpdate(NoFields, isEmail, isUrl).value), now).status == New
  {
    assert UpdateIssues(NoFields, isEmail, isUrl) == [];
    UpdateResetsAbsent(NoFields, l, now, isEmail, isUrl);
  }

  /** With the partial reading, the row keeps every column the update leaves
      out, and an update naming no field changes nothing but `updatedAt`. */
  lemma PartialUpdateKeepsAbsent(i: LeadInput, l: Lead, now: int, isEmail: string -> bool, isUrl: string -> bool)
    requires ValidatePartialUpdate(i, isEmail, isUrl).Ok?
    ensures var row := Patched(l, PatchOf(ValidatePartialUpdate(i, isEmail, isUrl).value), now);
      && (i.businessName.None? ==> row.businessName == l.businessName)
      && (i.status.None? ==> row.status == l.status)
      && (i.source.None? ==> row.source == l.source)
      && (i.country.None? ==> row.country == l.country)
      && (i.email.None? ==> row.email == l.email)
      && (i.tags.None? ==> row.tags == l.tags)
      && row.metadata == l.metadata
    ensures i == NoFields ==>
              Patched(l, PatchOf(ValidatePartialUpdate(i, isEmail, isUrl).value), now) == l.(updatedAt := now)
  {
  }

  /** Every field of `a` is left out or equal to the same field of `b`. */
  predicate SubsetOf(a: LeadInput, b: LeadInput)
  {
    && (a.businessName.None? || a.businessName == b.businessName)
    && (a.contactPerson.None? || a.contactPerson == b.contactPerson)
    && (a.email.None? || a.email == b.email)
    && (a.phone.None? || a.phone == b.phone)
    && (a.websiteUrl.None? || a.websiteUrl == b.websiteUrl)
    && (a.websiteScore.None? || a.websiteScore == b.websiteScore)
    && (a.address.None? || a.address == b.address)
    && (a.city.None? || a.city == b.city)
    && (a.postalCode.None? || a.postalCode == b.postalCode)
    && (a.country.None? || a.country == b.country)
    && (a.businessType.None? || a.businessType == b.businessType)
    && (a.source.None? || a.source == b.source)
    && (a.status.None? || a.status == b.status)
    && (a.estimatedValue.None? || a.estimatedValue == b.estimatedValue)
    && (a.notes.None? || a.notes == b.notes)
    && (a.tags.None? || a.tags == b.tags)
  }

  const NoFields: LeadInput :=
    LeadInput(None, None, None, None, None, None, None, None, None, None, None, None, None, None, None, None)

  /** The update schema accepts any part of a valid lead, the empty update
      included. */
  lemma UpdateAcceptsPartOfValid(i: LeadInput, part: LeadInput, isEmail: string -> bool, isUrl: string -> bool)
    requires ValidateCreate(i, isEmail, isUrl).Ok? && SubsetOf(part, i)
    ensures ValidateUpdate(part, isEmail, isUrl).Ok?
    ensures ValidateUpdate(NoFields, isEmail, isUrl).Ok?
  {
    assert FieldIssues(part, isEmail, isUrl) == [];
  }

  /** With a name given, the update schema refuses exactly what the create
      schema refuses. */
  lemma UpdateMatchesCreateOnNamed(i: LeadInput, isEmail: string -> bool, isUrl: string -> bool)
    requires i.businessName.Some?
    ensures ValidateUpdate(i, isEmail, isUrl).Err? <==> ValidateCreate(i, isEmail, isUrl).Err?
    ensures ValidateUpdate(i, isEmail, isUrl).Err? ==>
              ValidateUpdate(i, isEmail, isUrl).error == ValidateCreate(i, isEmail, isUrl).error
  {
  }

  /** A form holding only a business name is accepted exactly when the name
      has 1 to 255 UTF-16 units; the defaults fill the rest. */
  lemma BusinessNameBounds(name: string, isEmail: string -> bool, isUrl: string -> bool)
    ensures var r := ValidateCreate(NoFields.(businessName := Some(name)), isEmail, isUrl);
      && (r.Ok? <==> 1 <= Utf16Length(name) <= 255)
      && (r.Ok? ==> r.value.country == "Austria" && r.value.source == Manual && r.value.status == New
                    && r.value.email == "" && r.value.tags == [])
      && (r.Err? ==> r.error == ["businessName"])
  {
    var i := NoFields.(businessName := Some(name));
    assert FieldIssues(i, isEmail, isUrl) == [];
  }

  /** The schema takes `bigl_bot`, which the database enum refuses. */
  lemma SchemaTakesBiglBot(name: string, isEmail: string -> bool, isUrl: string -> bool)
    requires 1 <= Utf16Length(name) <= 255
    ensures var r := ValidateCreate(NoFields.(businessName := Some(name), source := Some("bigl_bot")), isEmail, isUrl);
      r.Ok? && r.value.source == BiglBot && !InDbSourceEnum(r.value.source)
  {
    var i := NoFields.(businessName := Some(name), source := Some("bigl_bot"));
    assert ParseSchemaSource("bigl_bot") == Some(BiglBot) by {
      NamesRoundTrip(New, BiglBot, Note);
    }
    assert CreateIssues(i, isEmail, isUrl) == [] by {
      OnlySourceGiven(i, isEmail, isUrl);
      assert Issue("businessName", i.businessName.Some? && LengthWithin(i.businessName, 1, 255)) == [];
    }
    var r := ValidateCreate(i, isEmail, isUrl);
    assert r.Ok? && r.value == Filled(i);
    assert r.value.source == ParseSchemaSource(i.source.value).value;
  }

  /** With every field but the name and the source left out, only the
      source can be refused. */
  lemma OnlySourceGiven(i: LeadInput, isEmail: string -> bool, isUrl: string -> bool)
    requires i == NoFields.(businessName := i.businessName, source := i.source)
    ensures FieldIssues(i, isEmail, isUrl) == Issue("source", SourceOk(i.source))
  {
  }

  /** The schema refuses `google_places`, which the database enum takes. */
  lemma SchemaRefusesGooglePlaces(name: string, isEmail: string -> bool, isUrl: string -> bool)
    requires 1 <= Utf16Length(name) <= 255
    ensures ValidateCreate(NoFields.(businessName := Some(name), source := Some("google_places")), isEmail, isUrl)
            == Err(["source"])
    ensures InDbSourceEnum(GooglePlaces)
  {
    var i := NoFields.(businessName := Some(name), source := Some("google_places"));
    OnlySourceGiven(i, isEmail, isUrl);
    assert ParseSchemaSource("google_places").None?;
    var issues := CreateIssues(i, isEmail, isUrl);
    assert Issue("businessName", i.businessName.Some? && LengthWithin(i.businessName, 1, 255)) == [];
    assert issues == ["source"];
    var r := ValidateCreate(i, isEmail, isUrl);
    assert r.Err? && r.error == issues;
  }

  /** The insert the routes hand to `createLead`: every field as validated,
      the empty strings included. */
  function ToNewLead(d: LeadData): NewLead
  {
    NewLead(
      d.businessName, Some(d.contactPerson), Some(d.email), Some(d.phone), Present(d.websiteUrl),
      d.websiteScore, Some(d.address), Some(d.city), Some(d.postalCode), Some(d.country),
      Some(d.businessType), Some(d.source), Some(d.status), d.estimatedValue, Some(d.notes),
      Some(d.tags), None)
  }

  /** A validated lead still fails the table's column checks exactly when its
      e-mail is over 255 characters (the schema sets no maximum there) or its
      estimated value is beyond the `integer` range (the schema sets no
      maximum there either). */
  lemma ValidatedRowFits(i: LeadInput, isEmail: string -> bool, isUrl: string -> bool, id: LeadId, now: int)
    requires ValidateCreate(i, isEmail, isUrl).Ok?
    ensures var d := ValidateCreate(i, isEmail, isUrl).value;
      RowFits(RowOf(id, ToNewLead(d), now)) <==> |d.email| <= 255 && FitsInt4(d.estimatedValue)
  {
    var d := ValidateCreate(i, isEmail, isUrl).value;
    var row := RowOf(id, ToNewLead(d), now);
    assert row.businessName == d.businessName && row.contactPerson == Some(d.contactPerson);
    assert row.email == Some(d.email) && row.phone == Some(d.phone) && row.websiteScore == d.websiteScore;
    assert row.city == Some(d.city) && row.postalCode == Some(d.postalCode);
    assert row.country == Some(d.country) && row.businessType == Some(d.businessType);
    assert row.estimatedValue == d.estimatedValue;
    RowFitsWithinBounds(d, row, isEmail, isUrl);
  }

  lemma RowFitsWithinBounds(d: LeadData, row: Lead, isEmail: string -> bool, isUrl: string -> bool)
    requires WithinBounds(d, isEmail, isUrl)
    requires row.businessName == d.businessName && row.contactPerson == Some(d.contactPerson)
    requires row.email == Some(d.email) && row.phone == Some(d.phone) && row.websiteScore == d.websiteScore
    requires row.city == Some(d.city) && row.postalCode == Some(d.postalCode)
    requires row.country == Some(d.country) && row.businessType == Some(d.businessType)
    requires row.estimatedValue == d.estimatedValue
    ensures RowFits(row) <==> |d.email| <= 255 && FitsInt4(d.estimatedValue)
  {
  }

  // ---------------------------------------------------------------------
  // Activities

  /** The body of an activity form. */
  datatype ActivityInput = ActivityInput(kind: Option<string>, title: Option<string>, description: Option<string>)

  datatype ActivityData = ActivityData(kind: ActivityType, title: string, description: string)

  function ActivityIssues(i: ActivityInput): seq<string>
  {
    Issue("type", i.kind.Some? && ParseActivityType(i.kind.value).Some?)
    + Issue("title", i.title.Some? && LengthWithin(i.title, 1, 255))
  }

  /** `createActivitySchema.safeParse`: the type must be one of the six, the
      title 1 to 255 units long; the description defaults to ''. */
  function ValidateActivity(i: ActivityInput): (r: Result<ActivityData, seq<string>>)
    ensures r.Err? <==> ActivityIssues(i) != []
    ensures r.Err? ==> r.error == ActivityIssues(i)
    ensures r.Ok? ==>
              && ActivityTypeName(r.value.kind) == i.kind.value
              && r.value.title == i.title.value && 1 <= Utf16Length(r.value.title) <= 255
              && r.value.description == OrEmpty(i.description)
  {
    var issues := ActivityIssues(i);
    if issues != [] then Err(issues)
    else Ok(ActivityData(ParseActivityType(i.kind.value).value, i.title.value, OrEmpty(i.description)))
  }

  /** A validated title always fits the `title` column, so adding the
      activity can fail only for an unknown lead. */
  lemma ValidatedTitleFits(i: ActivityInput)
    requires ValidateActivity(i).Ok?
    ensures |ValidateActivity(i).value.title| <= 255
  {
  }

  // ---------------------------------------------------------------------
  // List filters

  /** The query string of a list request, each parameter as given. */
  datatype FilterInput = FilterInput(
    search: Option<string>,
    status: Option<string>,
    source: Option<string>,
    city: Option<string>,
    sortBy: Option<string>,
    sortOrder: Option<string>,
    limit: Option<real>,
    offset: Option<real>)

  /** The query-string names of the sort columns and orders. */
  function SortColumnName(c: SortColumn): string
  {
    match c
    case CreatedAt => "createdAt"
    case UpdatedAt => "updatedAt"
    case BusinessName => "businessName"
    case WebsiteScore => "websiteScore"
    case EstimatedValue => "estimatedValue"
  }

  function SortOrderName(o: SortOrder): string
  {
    match o
    case Asc => "asc"
    case Desc => "desc"
  }

  function ParseSortColumn(t: string): (r: Option<SortColumn>)
    ensures r.Some? ==> SortColumnName(r.value) == t
  {
    if t == "createdAt" then Some(CreatedAt)
    else if t == "updatedAt" then Some(UpdatedAt)
    else if t == "businessName" then Some(BusinessName)
    else if t == "websiteScore" then Some(WebsiteScore)
    else if t == "estimatedValue" then Some(EstimatedValue)
    else None
  }

  function ParseSortOrder(t: string): (r: Option<SortOrder>)
    ensures r.Some? ==> SortOrderName(r.value) == t
  {
    if t == "asc" then Some(Asc) else if t == "desc" then Some(Desc) else None
  }

  function FilterIssues(i: FilterInput): seq<string>
  {
    Issue("status", StatusOk(i.status))
    + Issue("source", SourceOk(i.source))
    + Issue("sortBy", i.sortBy.None? || ParseSortColumn(i.sortBy.value).Some?)
    + Issue("sortOrder", i.sortOrder.None? || ParseSortOrder(i.sortOrder.value).Some?)
    + Issue("limit", IntWithin(i.limit, 1, Some(100)))
    + Issue("offset", IntWithin(i.offset, 0, None))
  }

  function AsNat(v: Option<real>): Option<nat>
    requires v.Some? ==> v.value >= 0.0
  {
    if v.Some? then Some(v.value.Floor) else None
  }

  /** `leadFilterSchema.safeParse`: the failing parameters, or the filters
      the repository receives (no score bounds; those are not in the schema). */
  function ValidateFilter(i: FilterInput): (r: Result<LeadFilters, seq<string>>)
    ensures r.Err? <==> FilterIssues(i) != []
    ensures r.Err? ==> r.error == FilterIssues(i)
    ensures r.Ok? ==>
              && r.value.search == i.search && r.value.city == i.city
              && r.value.minScore.None? && r.value.maxScore.None?
              && (r.value.limit.Some? ==> 1 <= r.value.limit.value <= 100)
              && (r.value.limit.Some? <==> i.limit.Some?) && (r.value.offset.Some? <==> i.offset.Some?)
              && (r.value.source.Some? <==> i.source.Some?)
              && (r.value.source.Some? ==> SourceName(r.value.source.value) == i.source.value
                                           && r.value.source.value != GooglePlaces)
    ensures r.Ok? ==>
              && (r.value.status.Some? <==> i.status.Some?)
              && (r.value.status.Some? ==> StatusName(r.value.status.value) == i.status.value)
              && (r.value.sortBy.Some? <==> i.sortBy.Some?)
              && (r.value.sortBy.Some? ==> SortColumnName(r.value.sortBy.value) == i.sortBy.value)
              && (r.value.sortOrder.Some? <==> i.sortOrder.Some?)
              && (r.value.sortOrder.Some? ==> SortOrderName(r.value.sortOrder.value) == i.sortOrder.value)
    ensures r.Ok? ==>
              && (r.value.limit.Some? ==> r.value.limit.value as real == i.limit.value)
              && (r.value.offset.Some? ==> r.value.offset.value as real == i.offset.value)
  {
    var issues := FilterIssues(i);
    if issues != [] then Err(issues)
    else
      Ok(LeadFilters(
        i.search,
        if i.status.Some? then ParseStatus(i.status.value) else None,
        if i.source.Some? then ParseSchemaSource(i.source.value) else None,
        i.city,
        None, None,
        if i.sortBy.Some? then ParseSortColumn(i.sortBy.value) else None,
        if i.sortOrder.Some? then ParseSortOrder(i.sortOrder.value) else None,
        AsNat(i.limit),
        AsNat(i.offset)))
  }

  /** A validated filter never asks for more than 100 rows, and the list
      query refuses it exactly when it names the `bigl_bot` source. */
  lemma ValidatedFilterPage(i: FilterInput, rows: seq<Lead>)
    requires ValidateFilter(i).Ok?
    ensures |PageOf(rows, ValidateFilter(i).value).items| <= 100
    ensures var f := ValidateFilter(i).value;
      (f.source.Some? && !InDbSourceEnum(f.source.value)) <==> i.source == Some("bigl_bot")
  {
    var f := ValidateFilter(i).value;
    assert LimitOf(f) <= 100;
    PageWithinLimit(rows, f);
    if f.source.Some? {
      SourceNamedBiglBot(f.source.value);
    }
  }

  /** Every sort column and order is read back from its own name. */
  lemma SortNamesRoundTrip(c: SortColumn, o: SortOrder)
    ensures ParseSortColumn(SortColumnName(c)) == Some(c)
    ensures ParseSortOrder(SortOrderName(o)) == Some(o)
  {
  }

  lemma SourceNamedBiglBot(s: LeadSource)
    ensures !InDbSourceEnum(s) <==> SourceName(s) == "bigl_bot"
  {
  }
}
