/**
 * The pydantic models of `backend/models.py`: the three string enums, the
 * documents with their defaults as `.dict(by_alias=True)` stores them, and the
 * update models whose every field is optional.
 *
 * The default factories (`uuid4` and `datetime.utcnow`) are not computed here:
 * each new document takes its id and timestamps from a `Fresh` value.
 */
module Models {
  import opened Wrappers
  import opened Documents

  /** `StationStatus`. */
  datatype StationStatus = Online | Offline

  function StationStatusName(s: StationStatus): string {
    match s
    case Online => "online"
    case Offline => "offline"
  }

  /** Validation of a `StationStatus` field: only the two member values are accepted. */
  function ParseStationStatus(text: string): (r: Option<StationStatus>)
    ensures r.Some? <==> text == "online" || text == "offline"
  {
    if text == "online" then Some(Online)
    else if text == "offline" then Some(Offline)
    else None
  }

  lemma StationStatusRoundTrip(s: StationStatus, text: string)
    ensures ParseStationStatus(StationStatusName(s)) == Some(s)
    ensures ParseStationStatus(text) == Some(s) <==> StationStatusName(s) == text
  {
  }

  /** `EquipmentType`. */
  datatype EquipmentType = Transceiver | Antenna | Amplifier | Other

  function EquipmentTypeName(t: EquipmentType): string {
    match t
    case Transceiver => "transceiver"
    case Antenna => "antenna"
    case Amplifier => "amplifier"
    case Other => "other"
  }

  /** Validation of an `EquipmentType` field: any other text is rejected. */
  function ParseEquipmentType(text: string): (r: Option<EquipmentType>)
    ensures r.Some? <==> text in {"transceiver", "antenna", "amplifier", "other"}
  {
    if text == "transceiver" then Some(Transceiver)
    else if text == "antenna" then Some(Antenna)
    else if text == "amplifier" then Some(Amplifier)
    else if text == "other" then Some(Other)
    else None
  }

  lemma EquipmentTypeRoundTrip(t: EquipmentType, text: string)
    ensures ParseEquipmentType(EquipmentTypeName(t)) == Some(t)
    ensures ParseEquipmentType(text) == Some(t) <==> EquipmentTypeName(t) == text
  {
  }

  /** `NewsCategory`. */
  datatype NewsCategory = EquipmentNews | Contests | General

  function NewsCategoryName(c: NewsCategory): string {
    match c
    case EquipmentNews => "equipment"
    case Contests => "contests"
    case General => "general"
  }

  function ParseNewsCategory(text: string): (r: Option<NewsCategory>)
    ensures r.Some? <==> text in {"equipment", "contests", "general"}
  {
    if text == "equipment" then Some(EquipmentNews)
    else if text == "contests" then Some(Contests)
    else if text == "general" then Some(General)
    else None
  }

  lemma NewsCategoryRoundTrip(c: NewsCategory, text: string)
    ensures ParseNewsCategory(NewsCategoryName(c)) == Some(c)
    ensures ParseNewsCategory(text) == Some(c) <==> NewsCategoryName(c) == text
  {
  }

  /**
   * What the default factories produce for one new document: a uuid4 text,
   * two separate `utcnow()` readings, and a third one for a `date` default.
   */
  datatype Fresh = Fresh(id: string, createdAt: DateTime, updatedAt: DateTime, now: DateTime)

  function OptionalText(v: Option<string>): Value {
    match v
    case None => PyNone
    case Some(s) => PyStr(s)
  }

  function OptionalDate(v: Option<DateTime>): Value {
    match v
    case None => PyNone
    case Some(d) => PyDateTime(d)
  }

  /** The `BaseDocument` fields: the id under its alias `_id`, and the two timestamps. */
  function BaseFields(stamp: Fresh): (r: Record)
    ensures r.Keys == {"_id", "created_at", "updated_at"}
    ensures r["_id"] == PyStr(stamp.id)
  {
    map["_id" := PyStr(stamp.id), "created_at" := PyDateTime(stamp.createdAt), "updated_at" := PyDateTime(stamp.updatedAt)]
  }

  /** A document carries the stamp's id under `_id` and its two timestamps. */
  predicate CarriesBase(r: Record, stamp: Fresh) {
    "_id" in r && r["_id"] == PyStr(stamp.id)
    && "created_at" in r && r["created_at"] == PyDateTime(stamp.createdAt)
    && "updated_at" in r && r["updated_at"] == PyDateTime(stamp.updatedAt)
  }

  /** A `StationInfo` document; callsign `4K6AG` and status online unless given. */
  function StationInfoDoc(stamp: Fresh, operator: string, location: string, grid: string, license: string,
                          status: StationStatus := Online, callsign: string := "4K6AG"): (r: Record)
    ensures CarriesBase(r, stamp)
    ensures "callsign" in r && r["callsign"] == PyStr(callsign)
    ensures "status" in r && r["status"] == PyStr(StationStatusName(status))
  {
    BaseFields(stamp) + map[
      "callsign" := PyStr(callsign), "operator" := PyStr(operator), "location" := PyStr(location),
      "grid" := PyStr(grid), "license" := PyStr(license), "status" := PyStr(StationStatusName(status))]
  }

  /** An `Equipment` document; power, gain and bands are `None` unless given. */
  function EquipmentDoc(stamp: Fresh, kind: EquipmentType, name: string, specs: string,
                        power: Option<string> := None, gain: Option<string> := None, bands: Option<string> := None): (r: Record)
    ensures CarriesBase(r, stamp)
    ensures "type" in r && r["type"] == PyStr(EquipmentTypeName(kind))
  {
    BaseFields(stamp) + map[
      "type" := PyStr(EquipmentTypeName(kind)), "name" := PyStr(name), "specs" := PyStr(specs),
      "power" := OptionalText(power), "gain" := OptionalText(gain), "bands" := OptionalText(bands)]
  }

  /** A `QSLCard` document. */
  function QslCardDoc(stamp: Fresh, image: string, year: string, design: string): (r: Record)
    ensures CarriesBase(r, stamp)
    ensures r.Keys == {"_id", "created_at", "updated_at", "image", "year", "design"}
  {
    BaseFields(stamp) + map["image" := PyStr(image), "year" := PyStr(year), "design" := PyStr(design)]
  }

  /** An `Achievement` document; no category unless given. */
  function AchievementDoc(stamp: Fresh, title: string, description: string, year: string,
                          category: Option<string> := None): (r: Record)
    ensures CarriesBase(r, stamp)
    ensures "category" in r && (r["category"] == PyNone <==> category.None?)
  {
    BaseFields(stamp) + map[
      "title" := PyStr(title), "description" := PyStr(description), "year" := PyStr(year),
      "category" := OptionalText(category)]
  }

  /** A `News` document; dated now and in category `general` unless given. */
  function NewsDoc(stamp: Fresh, title: string, content: string,
                   date: Option<DateTime> := None, category: NewsCategory := General): (r: Record)
    ensures CarriesBase(r, stamp)
    ensures "date" in r && "category" in r
    ensures r["date"] == PyDateTime(if date.Some? then date.value else stamp.now)
    ensures r["category"] == PyStr(NewsCategoryName(category))
  {
    BaseFields(stamp) + map[
      "title" := PyStr(title), "content" := PyStr(content),
      "date" := PyDateTime(if date.Some? then date.value else stamp.now),
      "category" := PyStr(NewsCategoryName(category))]
  }

  /** A `Gallery` document; no category unless given. */
  function GalleryDoc(stamp: Fresh, image: string, title: string, description: string,
                      category: Option<string> := None): (r: Record)
    ensures CarriesBase(r, stamp)
    ensures "category" in r && (r["category"] == PyNone <==> category.None?)
  {
    BaseFields(stamp) + map[
      "image" := PyStr(image), "title" := PyStr(title), "description" := PyStr(description),
      "category" := OptionalText(category)]
  }

  /** A `Guestbook` document; dated now and approved unless given. */
  function GuestbookDoc(stamp: Fresh, name: string, message: string, callsign: Option<string> := None,
                        country: Option<string> := None, date: Option<DateTime> := None, approved: bool := true): (r: Record)
    ensures CarriesBase(r, stamp)
    ensures "approved" in r && "date" in r
    ensures r["approved"] == PyBool(approved)
    ensures r["date"] == PyDateTime(if date.Some? then date.value else stamp.now)
  {
    BaseFields(stamp) + map[
      "name" := PyStr(name), "callsign" := OptionalText(callsign), "message" := PyStr(message),
      "country" := OptionalText(country), "date" := PyDateTime(if date.Some? then date.value else stamp.now),
      "approved" := PyBool(approved)]
  }

  /** `GuestbookCreate`: what a visitor submits. */
  datatype GuestbookCreate = GuestbookCreate(name: string, callsign: Option<string>, message: string, country: Option<string>)

  /** `Guestbook(**entry_data.dict())`: the create model has no `date` or `approved`, so both take their defaults. */
  function GuestbookFromCreate(stamp: Fresh, entry: GuestbookCreate): (r: Record)
    ensures "approved" in r && "date" in r
    ensures r["approved"] == PyBool(true) && r["date"] == PyDateTime(stamp.now)
  {
    GuestbookDoc(stamp, entry.name, entry.message, entry.callsign, entry.country)
  }

  /** `NewsCreate`: the date is optional and the category defaults to `general`. */
  datatype NewsCreate = NewsCreate(title: string, content: string, date: Option<DateTime>, category: NewsCategory)

  function NewsCreateOf(title: string, content: string, date: Option<DateTime> := None,
                        category: NewsCategory := General): NewsCreate
  {
    NewsCreate(title, content, date, category)
  }

  /** `create_news`: a missing date is set to now, then the document is built from the input. */
  function NewsFromCreate(stamp: Fresh, input: NewsCreate): (r: Record)
    ensures "category" in r && "date" in r
    ensures r["category"] == PyStr(NewsCategoryName(input.category))
    ensures input.date.Some? ==> r["date"] == PyDateTime(input.date.value)
    ensures input.date.None? ==> r["date"] == PyDateTime(stamp.now)
  {
    NewsDoc(stamp, input.title, input.content, Some(if input.date.Some? then input.date.value else stamp.now), input.category)
  }

  /** A news item created without a category is stored as `general`. */
  lemma NewsCategoryDefaults(stamp: Fresh, title: string, content: string)
    ensures NewsCreateOf(title, content).category == General
    ensures NewsFromCreate(stamp, NewsCreateOf(title, content))["category"] == PyStr("general")
    ensures NewsDoc(stamp, title, content)["category"] == PyStr("general")
  {
  }

  /** `ContactRequestCreate`: the QSL box is unchecked unless sent. */
  datatype ContactRequestCreate = ContactRequestCreate(
    name: string, email: string, callsign: Option<string>, message: string, qslRequest: bool,
    date: Option<DateTime>, frequency: Option<string>, mode: Option<string>,
    rstSent: Option<string>, rstReceived: Option<string>)

  function ContactRequestCreateOf(name: string, email: string, message: string): (r: ContactRequestCreate)
    ensures !r.qslRequest
    ensures r.callsign.None? && r.date.None? && r.frequency.None? && r.mode.None?
    ensures r.rstSent.None? && r.rstReceived.None?
  {
    ContactRequestCreate(name, email, None, message, false, None, None, None, None, None)
  }

  /** A `ContactRequest` document. */
  function ContactRequestDoc(stamp: Fresh, input: ContactRequestCreate): (r: Record)
    ensures CarriesBase(r, stamp)
    ensures "qsl_request" in r && r["qsl_request"] == PyBool(input.qslRequest)
  {
    BaseFields(stamp) + map[
      "name" := PyStr(input.name), "email" := PyStr(input.email), "callsign" := OptionalText(input.callsign),
      "message" := PyStr(input.message), "qsl_request" := PyBool(input.qslRequest),
      "date" := OptionalDate(input.date), "frequency" := OptionalText(input.frequency),
      "mode" := OptionalText(input.mode), "rst_sent" := OptionalText(input.rstSent),
      "rst_received" := OptionalText(input.rstReceived)]
  }

  /**
   * The documents the create endpoints build from a submitted model carry the
   * base fields, and a contact request sent with only the required fields is
   * stored without a QSL request.
   */
  lemma NewDocumentsHaveBase(stamp: Fresh, news: NewsCreate, entry: GuestbookCreate, name: string, email: string, message: string)
    ensures CarriesBase(NewsFromCreate(stamp, news), stamp)
    ensures CarriesBase(GuestbookFromCreate(stamp, entry), stamp)
    ensures var r := ContactRequestDoc(stamp, ContactRequestCreateOf(name, email, message));
      CarriesBase(r, stamp) && r["qsl_request"] == PyBool(false)
  {
  }

  /** `StationInfoUpdate`: every field optional, `None` by default. */
  datatype StationInfoUpdate = StationInfoUpdate(
    operator: Option<string>, location: Option<string>, grid: Option<string>,
    license: Option<string>, status: Option<StationStatus>)

  const EmptyStationInfoUpdate := StationInfoUpdate(None, None, None, None, None)

  /** `.dict()` of a station update: all five keys, `None` included. */
  function StationInfoUpdateDict(u: StationInfoUpdate): (r: Record)
    ensures r.Keys == {"operator", "location", "grid", "license", "status"}
  {
    map["operator" := OptionalText(u.operator), "location" := OptionalText(u.location),
        "grid" := OptionalText(u.grid), "license" := OptionalText(u.license),
        "status" := if u.status.Some? then PyStr(StationStatusName(u.status.value)) else PyNone]
  }

  /** `EquipmentUpdate`: every field optional, `None` by default. */
  datatype EquipmentUpdate = EquipmentUpdate(
    kind: Option<EquipmentType>, name: Option<string>, specs: Option<string>,
    power: Option<string>, gain: Option<string>, bands: Option<string>)

  const EmptyEquipmentUpdate := EquipmentUpdate(None, None, None, None, None, None)

  /** `.dict()` of an equipment update: all six keys, `None` included. */
  function EquipmentUpdateDict(u: EquipmentUpdate): (r: Record)
    ensures r.Keys == {"type", "name", "specs", "power", "gain", "bands"}
  {
    map["type" := if u.kind.Some? then PyStr(EquipmentTypeName(u.kind.value)) else PyNone,
        "name" := OptionalText(u.name), "specs" := OptionalText(u.specs),
        "power" := OptionalText(u.power), "gain" := OptionalText(u.gain), "bands" := OptionalText(u.bands)]
  }

  /** `StationStatusUpdate`: the status is required, frequency and mode optional. */
  datatype StationStatusUpdate = StationStatusUpdate(status: StationStatus, frequency: Option<string>, mode: Option<string>)

  function StationStatusUpdateDict(u: StationStatusUpdate): (r: Record)
    ensures r.Keys == {"status", "frequency", "mode"}
  {
    map["status" := PyStr(StationStatusName(u.status)), "frequency" := OptionalText(u.frequency),
        "mode" := OptionalText(u.mode)]
  }

  /** `{k: v for k, v in d.items() if v is not None}`. */
  function NonNone(d: Record): (r: Record)
    ensures r.Keys <= d.Keys
    ensures forall k | k in d :: k in r <==> d[k] != PyNone
    ensures forall k | k in r :: r[k] == d[k]
  {
    map k | k in d && d[k] != PyNone :: d[k]
  }

  /** An update with every field left out writes no field of its own. */
  lemma EmptyUpdatesWriteNothing()
    ensures NonNone(StationInfoUpdateDict(EmptyStationInfoUpdate)) == map[]
    ensures NonNone(EquipmentUpdateDict(EmptyEquipmentUpdate)) == map[]
  {
    var s := StationInfoUpdateDict(EmptyStationInfoUpdate);
    assert forall k | k in s :: s[k] == PyNone;
    var e := EquipmentUpdateDict(EmptyEquipmentUpdate);
    assert forall k | k in e :: e[k] == PyNone;
  }

  /** The filtered dictionary holds exactly the fields the caller set. */
  lemma EquipmentUpdateFields(u: EquipmentUpdate)
    ensures var change := NonNone(EquipmentUpdateDict(u));
      ("type" in change <==> u.kind.Some?) && ("name" in change <==> u.name.Some?)
      && ("specs" in change <==> u.specs.Some?) && ("power" in change <==> u.power.Some?)
      && ("gain" in change <==> u.gain.Some?) && ("bands" in change <==> u.bands.Some?)
    ensures var change := NonNone(EquipmentUpdateDict(u));
      (u.kind.Some? ==> change["type"] == PyStr(EquipmentTypeName(u.kind.value)))
      && (u.name.Some? ==> change["name"] == PyStr(u.name.value))
      && (u.specs.Some? ==> change["specs"] == PyStr(u.specs.value))
      && (u.power.Some? ==> change["power"] == PyStr(u.power.value))
      && (u.gain.Some? ==> change["gain"] == PyStr(u.gain.value))
      && (u.bands.Some? ==> change["bands"] == PyStr(u.bands.value))
  {
  }
}
