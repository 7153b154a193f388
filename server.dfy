/**
 * The endpoints of `backend/server.py` over the collections: the station
 * reads and partial updates, the equipment update and delete, the paged news
 * and guestbook listings, the contact requests, the status read and update,
 * and the create endpoints. An `HTTPException` and a rejected query parameter
 * are an `Err` carrying the status code; the current time and the fresh
 * values of a new document are parameters.
 */
module Server {
  import opened Wrappers
  import opened Js
  import opened Documents
  import opened Models
  import opened Database
  import opened Listing

  /** An `HTTPException(status_code, detail)`, or FastAPI's 422 for a query parameter out of its bounds. */
  datatype HttpError = HttpError(status: nat, detail: string)

  const StationInfoMissing := "Station information not found"
  const StationMissing := "Station not found"
  const EquipmentMissing := "Equipment not found"
  const EquipmentDeleted := "Equipment deleted successfully"
  const ContactSent := "Message sent successfully! We will reply within 24 hours."
  const StationCallsign := PyStr("4K6AG")

  /** The 422 answer for the query parameter `name`. */
  function Unprocessable(name: string): HttpError {
    HttpError(422, "invalid query parameter " + name)
  }

  /** `get_station_info`: the `4K6AG` document, serialized, or 404. */
  function GetStationInfo(cols: Store): (r: Result<Record, HttpError>)
    requires Complete(cols)
    ensures r.Err? <==> FindIndex(cols[StationInfo], "callsign", StationCallsign).None?
    ensures r.Err? ==> r.error == HttpError(404, StationInfoMissing)
    ensures r.Ok? ==>
      exists i | 0 <= i < |cols[StationInfo]| ::
        Matches(cols[StationInfo][i], "callsign", StationCallsign) && r.value == Serialized(cols[StationInfo][i])
  {
    match FindIndex(cols[StationInfo], "callsign", StationCallsign)
    case None => Err(HttpError(404, StationInfoMissing))
    case Some(i) => Ok(Serialized(cols[StationInfo][i]))
  }

  /** The `$set` document of `update_station_info`: the fields that are not `None`, and `updated_at`. */
  function StationInfoChanges(u: StationInfoUpdate, now: DateTime): Record {
    NonNone(StationInfoUpdateDict(u))["updated_at" := PyDateTime(now)]
  }

  /** The `$set` document of `update_equipment`: the fields that are not `None`, and `updated_at`. */
  function EquipmentChanges(u: EquipmentUpdate, now: DateTime): Record {
    NonNone(EquipmentUpdateDict(u))["updated_at" := PyDateTime(now)]
  }

  /** The `$set` document of `update_station_status`: all three fields, `None` included, and `updated_at`. */
  function StatusChanges(u: StationStatusUpdate, now: DateTime): Record {
    StationStatusUpdateDict(u)["updated_at" := PyDateTime(now)]
  }

  /**
   * A partial equipment update stamps `updated_at`, writes the fields the
   * caller set, and keeps every other stored field, `None` fields included.
   */
  lemma EquipmentUpdateKeepsUnset(doc: Record, u: EquipmentUpdate, now: DateTime)
    ensures var r := doc + EquipmentChanges(u, now);
      r["updated_at"] == PyDateTime(now)
      && (u.name.Some? ==> r["name"] == PyStr(u.name.value))
      && (u.kind.Some? ==> r["type"] == PyStr(EquipmentTypeName(u.kind.value)))
      && (u.power.Some? ==> r["power"] == PyStr(u.power.value))
      && (forall k | k in doc && k != "updated_at" && k !in NonNone(EquipmentUpdateDict(u)) :: k in r && r[k] == doc[k])
      && r.Keys == doc.Keys + NonNone(EquipmentUpdateDict(u)).Keys + {"updated_at"}
  {
    EquipmentUpdateFields(u);
  }

  /** An update that sets nothing still stamps `updated_at` and otherwise leaves the document as it was. */
  lemma EmptyUpdateOnlyStamps(doc: Record, now: DateTime)
    ensures doc + EquipmentChanges(EmptyEquipmentUpdate, now) == doc["updated_at" := PyDateTime(now)]
    ensures doc + StationInfoChanges(EmptyStationInfoUpdate, now) == doc["updated_at" := PyDateTime(now)]
  {
    EmptyUpdatesWriteNothing();
    assert EquipmentChanges(EmptyEquipmentUpdate, now) == map["updated_at" := PyDateTime(now)];
    assert StationInfoChanges(EmptyStationInfoUpdate, now) == map["updated_at" := PyDateTime(now)];
  }

  /** A station-info update leaves a stored frequency alone; a status update with no frequency erases it to `None`. */
  lemma StatusUpdateOverwrites(doc: Record, info: StationInfoUpdate, status: StationStatus, now: DateTime)
    requires "frequency" in doc
    ensures (doc + StationInfoChanges(info, now))["frequency"] == doc["frequency"]
    ensures (doc + StatusChanges(StationStatusUpdate(status, None, None), now))["frequency"] == PyNone
    ensures (doc + StatusChanges(StationStatusUpdate(status, None, None), now))["mode"] == PyNone
  {
    assert "frequency" !in StationInfoUpdateDict(info);
  }

  /**
   * `update_station_info`: `$set` of the non-`None` fields and `updated_at` on
   * the `4K6AG` document, returned serialized; 404 with nothing written when
   * there is no such document.
   */
  method UpdateStationInfo(db: Database, u: StationInfoUpdate, now: DateTime) returns (r: Result<Record, HttpError>)
    requires db.Valid()
    modifies db
    ensures db.Valid()
    ensures FindIndex(old(db.collections)[StationInfo], "callsign", StationCallsign).None? ==>
      r == Err(HttpError(404, StationMissing)) && db.collections == old(db.collections)
    ensures FindIndex(old(db.collections)[StationInfo], "callsign", StationCallsign).Some? ==>
      var i := FindIndex(old(db.collections)[StationInfo], "callsign", StationCallsign).value;
      var updated := old(db.collections)[StationInfo][i] + StationInfoChanges(u, now);
      r == Ok(Serialized(updated))
      && db.collections == old(db.collections)[StationInfo := old(db.collections)[StationInfo][i := updated]]
  {
    var updateData := StationInfoChanges(u, now);
    var result := db.FindOneAndUpdate(StationInfo, "callsign", StationCallsign, updateData);
    if result.None? {
      return Err(HttpError(404, StationMissing));
    }
    r := Ok(Serialized(result.value));
  }

  /**
   * `update_equipment`: the same partial update on the document whose `_id`
   * is the path's id; 404 with nothing written when there is none.
   */
  method UpdateEquipment(db: Database, equipmentId: string, u: EquipmentUpdate, now: DateTime)
    returns (r: Result<Record, HttpError>)
    requires db.Valid()
    modifies db
    ensures db.Valid()
    ensures FindIndex(old(db.collections)[Equipment], "_id", PyStr(equipmentId)).None? ==>
      r == Err(HttpError(404, EquipmentMissing)) && db.collections == old(db.collections)
    ensures FindIndex(old(db.collections)[Equipment], "_id", PyStr(equipmentId)).Some? ==>
      var i := FindIndex(old(db.collections)[Equipment], "_id", PyStr(equipmentId)).value;
      var updated := old(db.collections)[Equipment][i] + EquipmentChanges(u, now);
      r == Ok(Serialized(updated))
      && db.collections == old(db.collections)[Equipment := old(db.collections)[Equipment][i := updated]]
  {
    var updateData := EquipmentChanges(u, now);
    var result := db.FindOneAndUpdate(Equipment, "_id", PyStr(equipmentId), updateData);
    if result.None? {
      return Err(HttpError(404, EquipmentMissing));
    }
    r := Ok(Serialized(result.value));
  }

  /** The body of a successful delete. */
  datatype DeleteReply = DeleteReply(success: bool, message: string)

  /**
   * `delete_equipment`: removes the first document with that `_id` and keeps
   * the others in order; 404 exactly when nothing was deleted.
   */
  method DeleteEquipment(db: Database, equipmentId: string) returns (r: Result<DeleteReply, HttpError>)
    requires db.Valid()
    modifies db
    ensures db.Valid()
    ensures r.Err? <==> FindIndex(old(db.collections)[Equipment], "_id", PyStr(equipmentId)).None?
    ensures r.Err? ==> r.error == HttpError(404, EquipmentMissing) && db.collections == old(db.collections)
    ensures r.Ok? ==>
      r.value == DeleteReply(true, EquipmentDeleted)
      && |db.collections[Equipment]| == |old(db.collections)[Equipment]| - 1
      && db.collections == old(db.collections)[Equipment := db.collections[Equipment]]
    ensures FindIndex(old(db.collections)[Equipment], "_id", PyStr(equipmentId)).Some? ==>
      var i := FindIndex(old(db.collections)[Equipment], "_id", PyStr(equipmentId)).value;
      db.collections == old(db.collections)[Equipment :=
        old(db.collections)[Equipment][..i] + old(db.collections)[Equipment][i + 1..]]
  {
    var deletedCount := db.DeleteOne(Equipment, "_id", PyStr(equipmentId));
    if deletedCount == 0 {
      return Err(HttpError(404, EquipmentMissing));
    }
    r := Ok(DeleteReply(true, EquipmentDeleted));
  }

  /** Removing the one matching document leaves a listing in which nothing matches. */
  lemma RemovedOnlyMatch(records: seq<Record>, i: nat, rest: seq<Record>, key: string, value: Value)
    requires i < |records| && rest == records[..i] + records[i + 1..]
    requires forall j | 0 <= j < |records| :: Matches(records[j], key, value) <==> j == i
    ensures forall k | 0 <= k < |rest| :: !Matches(rest[k], key, value)
  {
    forall k | 0 <= k < |rest| ensures !Matches(rest[k], key, value) {
      if k >= i {
        assert rest[k] == records[k + 1];
      } else {
        assert rest[k] == records[k];
      }
    }
  }

  /** A listing in which nothing matches has no first match. */
  lemma NothingFound(records: seq<Record>, key: string, value: Value)
    requires forall k | 0 <= k < |records| :: !Matches(records[k], key, value)
    ensures FindIndex(records, key, value).None?
  {
  }

  /** When one document holds the id, deleting it leaves none: a second delete of the same id is a 404. */
  lemma DeleteRemovesTheMatch(records: seq<Record>, i: nat, equipmentId: string)
    requires i < |records|
    requires forall j | 0 <= j < |records| :: Matches(records[j], "_id", PyStr(equipmentId)) <==> j == i
    ensures FindIndex(records, "_id", PyStr(equipmentId)) == Some(i)
    ensures FindIndex(records[..i] + records[i + 1..], "_id", PyStr(equipmentId)).None?
  {
    FirstMatch(records, "_id", PyStr(equipmentId), i);
    var rest := records[..i] + records[i + 1..];
    RemovedOnlyMatch(records, i, rest, "_id", PyStr(equipmentId));
    NothingFound(rest, "_id", PyStr(equipmentId));
  }

  /** The body of `get_news`. */
  datatype NewsPage = NewsPage(news: seq<Record>, total: nat)

  /**
   * `get_news`: `limit` in 1..50 and `offset` at least 0, else 422; the page
   * of the date-descending listing starting at `offset`, serialized, and the
   * count of all news.
   */
  function GetNews(cols: Store, limit: int := 10, offset: int := 0): (r: Result<NewsPage, HttpError>)
    requires Complete(cols)
    ensures r.Err? <==> !(1 <= limit <= 50 && 0 <= offset)
    ensures r.Err? ==> r.error.status == 422
    ensures r.Ok? ==> r.value.total == |cols[News]| && |r.value.news| <= limit
    ensures r.Ok? ==> var n := |cols[News]|;
      |r.value.news| == if offset >= n then 0 else if n - offset < limit then n - offset else limit
    ensures r.Ok? ==> forall i | 0 <= i < |r.value.news| ::
      offset + i < |cols[News]| && r.value.news[i] == Serialized(SortDesc(cols[News], "date")[offset + i])
  {
    if !(1 <= limit <= 50) then Err(Unprocessable("limit"))
    else if offset < 0 then Err(Unprocessable("offset"))
    else Ok(NewsPage(SerializedAll(Page(SortDesc(cols[News], "date"), offset, limit)), |cols[News]|))
  }

  /** The news listing is newest first and holds no document twice more often than the collection does. */
  lemma NewsListingOrdered(cols: Store)
    requires Complete(cols)
    ensures var listing := SortDesc(cols[News], "date");
      SortedDesc(listing, "date") && multiset(listing) == multiset(cols[News])
      && forall i, j | 0 <= i < j < |listing| && DateOf(listing[j], "date").Some? ::
        DateOf(listing[i], "date").Some?
        && LexLe(Fields(DateOf(listing[j], "date").value), Fields(DateOf(listing[i], "date").value))
  {
  }

  /** Reading the news page by page, with no gap between offsets, walks the whole listing once. */
  lemma NewsPagesTile(cols: Store, offset: nat, limit: nat, limit': nat)
    requires Complete(cols) && 1 <= limit <= 50 && 1 <= limit' <= 50 && 1 <= limit + limit' <= 50
    ensures GetNews(cols, limit, offset).value.news + GetNews(cols, limit', offset + limit).value.news
         == GetNews(cols, limit + limit', offset).value.news
  {
    var listing := SortDesc(cols[News], "date");
    PagesTile(listing, offset, limit, limit');
    var a := Page(listing, offset, limit);
    var b := Page(listing, offset + limit, limit');
    assert SerializedAll(a) + SerializedAll(b) == SerializedAll(a + b);
  }

  /** `get_news()` with no arguments: the ten newest items. */
  lemma NewsDefaults(cols: Store)
    requires Complete(cols)
    ensures GetNews(cols).Ok?
    ensures |GetNews(cols).value.news| == if |cols[News]| < 10 then |cols[News]| else 10
  {
  }

  /** The body of `get_guestbook`. */
  datatype GuestbookPage = GuestbookPage(entries: seq<Record>, total: nat)

  /**
   * The filter `{"approved": True}`: every approved entry as often as it is
   * stored, and no other. `count_documents` with the same filter is its length.
   */
  function ApprovedEntries(records: seq<Record>): (r: seq<Record>)
    ensures forall d | d in r :: Matches(d, "approved", PyBool(true))
    ensures forall d | d in records && Matches(d, "approved", PyBool(true)) :: d in r
    ensures forall d :: multiset(r)[d] == if Matches(d, "approved", PyBool(true)) then multiset(records)[d] else 0
  {
    Where(records, "approved", PyBool(true))
  }

  /**
   * `get_guestbook`: `limit` in 1..100 and `offset` at least 0, else 422; the
   * page of the approved entries, newest first, and the count of approved entries.
   */
  function GetGuestbook(cols: Store, limit: int := 20, offset: int := 0): (r: Result<GuestbookPage, HttpError>)
    requires Complete(cols)
    ensures r.Err? <==> !(1 <= limit <= 100 && 0 <= offset)
    ensures r.Err? ==> r.error.status == 422
    ensures r.Ok? ==> r.value.total == |ApprovedEntries(cols[Guestbook])| && |r.value.entries| <= limit
    ensures r.Ok? ==> var n := |ApprovedEntries(cols[Guestbook])|;
      |r.value.entries| == if offset >= n then 0 else if n - offset < limit then n - offset else limit
    ensures r.Ok? ==> forall i | 0 <= i < |r.value.entries| ::
      offset + i < |ApprovedEntries(cols[Guestbook])|
      && r.value.entries[i] == Serialized(SortDesc(ApprovedEntries(cols[Guestbook]), "date")[offset + i])
  {
    if !(1 <= limit <= 100) then Err(Unprocessable("limit"))
    else if offset < 0 then Err(Unprocessable("offset"))
    else
      var approved := ApprovedEntries(cols[Guestbook]);
      Ok(GuestbookPage(SerializedAll(Page(SortDesc(approved, "date"), offset, limit)), |approved|))
  }

  /** The entry at one position of the guestbook listing is an approved stored entry. */
  lemma ListedEntryApproved(records: seq<Record>, offset: nat, i: nat)
    requires offset + i < |SortDesc(ApprovedEntries(records), "date")|
    ensures var e := SortDesc(ApprovedEntries(records), "date")[offset + i];
      e in records && Matches(e, "approved", PyBool(true))
  {
    var listing := SortDesc(ApprovedEntries(records), "date");
    var e := listing[offset + i];
    assert e in multiset(listing);
    assert e in ApprovedEntries(records);
  }

  /** Serializing keeps a boolean `approved` field as it is. */
  lemma SerializedKeepsApproval(doc: Record)
    ensures Matches(Serialized(doc), "approved", PyBool(true)) <==> Matches(doc, "approved", PyBool(true))
  {
  }

  /**
   * Only approved entries are listed or counted: every listed entry was
   * stored with `approved` true and still carries it, an entry stored
   * unapproved is never listed, and the total counts each approved entry as
   * often as it is stored and nothing else.
   */
  lemma GuestbookApprovedOnly(cols: Store, limit: int, offset: int)
    requires Complete(cols) && GetGuestbook(cols, limit, offset).Ok?
    ensures var page := GetGuestbook(cols, limit, offset).value;
      page.total <= |cols[Guestbook]|
      && (forall i | 0 <= i < |page.entries| :: exists e | e in cols[Guestbook] ::
            Matches(e, "approved", PyBool(true)) && page.entries[i] == Serialized(e))
      && (forall i | 0 <= i < |page.entries| :: Matches(page.entries[i], "approved", PyBool(true)))
      && (forall e | e in cols[Guestbook] && !Matches(e, "approved", PyBool(true)) :: Serialized(e) !in page.entries)
  {
    var approved := ApprovedEntries(cols[Guestbook]);
    var listing := SortDesc(approved, "date");
    var page := GetGuestbook(cols, limit, offset).value;
    forall i | 0 <= i < |page.entries|
      ensures exists e | e in cols[Guestbook] :: Matches(e, "approved", PyBool(true)) && page.entries[i] == Serialized(e)
      ensures Matches(page.entries[i], "approved", PyBool(true))
    {
      ListedEntryApproved(cols[Guestbook], offset, i);
      var e := listing[offset + i];
      assert page.entries[i] == Serialized(e);
      SerializedKeepsApproval(e);
    }
    forall e | e in cols[Guestbook] && !Matches(e, "approved", PyBool(true)) ensures Serialized(e) !in page.entries {
      SerializedKeepsApproval(e);
    }
  }

  /**
   * `get_contact_requests`: `limit` in 1..100, else 422; the newest requests
   * by `created_at`, at most `limit` of them, serialized.
   */
  function GetContactRequests(cols: Store, limit: int := 50): (r: Result<seq<Record>, HttpError>)
    requires Complete(cols)
    ensures r.Err? <==> !(1 <= limit <= 100)
    ensures r.Err? ==> r.error.status == 422
    ensures r.Ok? ==> |r.value| == if |cols[ContactRequests]| < limit then |cols[ContactRequests]| else limit
    ensures r.Ok? ==> forall i | 0 <= i < |r.value| ::
      r.value[i] == Serialized(SortDesc(cols[ContactRequests], "created_at")[i])
  {
    if !(1 <= limit <= 100) then Err(Unprocessable("limit"))
    else Ok(SerializedAll(Page(SortDesc(cols[ContactRequests], "created_at"), 0, limit)))
  }

  /** `dict.get(key, default)`. */
  function Get(doc: Record, key: string, default: Value): (r: Value)
    ensures key in doc ==> r == doc[key]
    ensures key !in doc ==> r == default
  {
    if key in doc then doc[key] else default
  }

  /** `StationStatusInfo`: the status, the time of the last update, frequency and mode. */
  datatype StatusInfo = StatusInfo(status: Value, lastUpdated: Value, frequency: Value, mode: Value)

  /**
   * `get_station_status`: 404 without the `4K6AG` document; otherwise its
   * fields, with `offline` for a missing status and the current time for a
   * missing `updated_at`.
   */
  function GetStationStatus(cols: Store, now: DateTime): (r: Result<StatusInfo, HttpError>)
    requires Complete(cols)
    ensures r.Err? <==> FindIndex(cols[StationInfo], "callsign", StationCallsign).None?
    ensures r.Err? ==> r.error == HttpError(404, StationMissing)
    ensures r.Ok? ==> var doc := cols[StationInfo][FindIndex(cols[StationInfo], "callsign", StationCallsign).value];
      ("status" !in doc ==> r.value.status == PyStr("offline"))
      && ("updated_at" !in doc ==> r.value.lastUpdated == PyDateTime(now))
      && ("frequency" !in doc ==> r.value.frequency == PyNone)
      && ("mode" !in doc ==> r.value.mode == PyNone)
      && ("status" in doc ==> r.value.status == doc["status"])
      && ("updated_at" in doc ==> r.value.lastUpdated == doc["updated_at"])
      && ("frequency" in doc ==> r.value.frequency == doc["frequency"])
      && ("mode" in doc ==> r.value.mode == doc["mode"])
  {
    match FindIndex(cols[StationInfo], "callsign", StationCallsign)
    case None => Err(HttpError(404, StationMissing))
    case Some(i) =>
      var doc := cols[StationInfo][i];
      Ok(StatusInfo(Get(doc, "status", PyStr("offline")), Get(doc, "updated_at", PyDateTime(now)),
                    Get(doc, "frequency", PyNone), Get(doc, "mode", PyNone)))
  }

  /**
   * `update_station_status`: `$set` of status, frequency and mode as sent
   * (`None` included) and `updated_at`; the answer repeats exactly what was
   * written. 404 with nothing written without the `4K6AG` document.
   */
  method UpdateStationStatus(db: Database, u: StationStatusUpdate, now: DateTime) returns (r: Result<StatusInfo, HttpError>)
    requires db.Valid()
    modifies db
    ensures db.Valid()
    ensures FindIndex(old(db.collections)[StationInfo], "callsign", StationCallsign).None? ==>
      r == Err(HttpError(404, StationMissing)) && db.collections == old(db.collections)
    ensures FindIndex(old(db.collections)[StationInfo], "callsign", StationCallsign).Some? ==>
      var i := FindIndex(old(db.collections)[StationInfo], "callsign", StationCallsign).value;
      r == Ok(StatusInfo(PyStr(StationStatusName(u.status)), PyDateTime(now), OptionalText(u.frequency), OptionalText(u.mode)))
      && db.collections == old(db.collections)[StationInfo :=
           old(db.collections)[StationInfo][i := old(db.collections)[StationInfo][i] + StatusChanges(u, now)]]
  {
    var updateData := StatusChanges(u, now);
    var result := db.FindOneAndUpdate(StationInfo, "callsign", StationCallsign, updateData);
    if result.None? {
      return Err(HttpError(404, StationMissing));
    }
    var doc := result.value;
    r := Ok(StatusInfo(Get(doc, "status", PyNone), Get(doc, "updated_at", PyNone),
                       Get(doc, "frequency", PyNone), Get(doc, "mode", PyNone)));
  }

  /** A status read after a status update reports what the update wrote. */
  lemma StatusReadAfterUpdate(cols: Store, u: StationStatusUpdate, now: DateTime, later: DateTime)
    requires Complete(cols) && FindIndex(cols[StationInfo], "callsign", StationCallsign).Some?
    ensures var i := FindIndex(cols[StationInfo], "callsign", StationCallsign).value;
      var cols' := cols[StationInfo := cols[StationInfo][i := cols[StationInfo][i] + StatusChanges(u, now)]];
      GetStationStatus(cols', later)
        == Ok(StatusInfo(PyStr(StationStatusName(u.status)), PyDateTime(now), OptionalText(u.frequency), OptionalText(u.mode)))
  {
    var i := FindIndex(cols[StationInfo], "callsign", StationCallsign).value;
    var updated := cols[StationInfo][i] + StatusChanges(u, now);
    var records := cols[StationInfo][i := updated];
    assert Matches(updated, "callsign", StationCallsign) by {
      assert "callsign" !in StatusChanges(u, now);
    }
    assert forall j | 0 <= j < i :: records[j] == cols[StationInfo][j];
    FirstMatch(records, "callsign", StationCallsign, i);
  }

  /**
   * The create endpoints: `insert_one`, then `find_one({"_id": inserted_id})`,
   * serialized. When no stored document already has the new id, the answer is
   * the new document itself.
   */
  method InsertAndFetch(db: Database, c: Collection, doc: Record) returns (created: Record)
    requires db.Valid() && "_id" in doc
    modifies db
    ensures db.Valid()
    ensures db.collections == old(db.collections)[c := old(db.collections)[c] + [doc]]
    ensures FindIndex(old(db.collections)[c], "_id", doc["_id"]).None? ==> created == Serialized(doc)
  {
    db.InsertOne(c, doc);
    FindAppended(old(db.collections)[c], doc, "_id", doc["_id"]);
    var found := FindIndex(db.collections[c], "_id", doc["_id"]);
    created := Serialized(db.collections[c][found.value]);
  }

  /** `create_news`: a missing date becomes the current time; the category defaults to `general`. */
  method CreateNews(db: Database, input: NewsCreate, stamp: Fresh) returns (created: Record)
    requires db.Valid()
    modifies db
    ensures db.Valid()
    ensures db.collections == old(db.collections)[News := old(db.collections)[News] + [NewsFromCreate(stamp, input)]]
    ensures FindIndex(old(db.collections)[News], "_id", PyStr(stamp.id)).None? ==>
      created == Serialized(NewsFromCreate(stamp, input))
  {
    created := InsertAndFetch(db, News, NewsFromCreate(stamp, input));
  }

  /** `create_guestbook_entry`: the entry is stored approved and dated now. */
  method CreateGuestbookEntry(db: Database, input: GuestbookCreate, stamp: Fresh) returns (created: Record)
    requires db.Valid()
    modifies db
    ensures db.Valid()
    ensures db.collections == old(db.collections)[Guestbook := old(db.collections)[Guestbook] + [GuestbookFromCreate(stamp, input)]]
    ensures FindIndex(old(db.collections)[Guestbook], "_id", PyStr(stamp.id)).None? ==>
      created == Serialized(GuestbookFromCreate(stamp, input))
  {
    created := InsertAndFetch(db, Guestbook, GuestbookFromCreate(stamp, input));
  }

  /** A new guestbook entry shows up in the count of the listing, since it is stored approved. */
  lemma NewEntryIsCounted(cols: Store, stamp: Fresh, input: GuestbookCreate)
    requires Complete(cols)
    ensures var cols' := cols[Guestbook := cols[Guestbook] + [GuestbookFromCreate(stamp, input)]];
      GetGuestbook(cols').value.total == GetGuestbook(cols).value.total + 1
  {
    ApprovedAppended(cols[Guestbook], GuestbookFromCreate(stamp, input));
  }

  /** Appending an approved entry adds one to the approved entries. */
  lemma ApprovedAppended(records: seq<Record>, entry: Record)
    requires Matches(entry, "approved", PyBool(true))
    ensures |ApprovedEntries(records + [entry])| == |ApprovedEntries(records)| + 1
  {
    WhereConcat(records, [entry], "approved", PyBool(true));
    assert Where([entry], "approved", PyBool(true)) == [entry];
  }

  /** `ContactResponse`. */
  datatype ContactResponse = ContactResponse(success: bool, message: string, id: string)

  /** `create_contact_request`: the request is stored, and the answer carries its new id. */
  method CreateContactRequest(db: Database, input: ContactRequestCreate, stamp: Fresh) returns (r: ContactResponse)
    requires db.Valid()
    modifies db
    ensures db.Valid()
    ensures db.collections == old(db.collections)[ContactRequests :=
      old(db.collections)[ContactRequests] + [ContactRequestDoc(stamp, input)]]
    ensures r == ContactResponse(true, ContactSent, stamp.id)
  {
    var doc := ContactRequestDoc(stamp, input);
    db.InsertOne(ContactRequests, doc);
    r := ContactResponse(true, ContactSent, StrOf(doc["_id"]));
  }

  /**
   * The body FastAPI sends for an `HTTPException`: the text under `detail`.
   * The frontend reads `response.data.error`, which such a body lacks, so its
   * envelope falls back to the transport's message.
   */
  function ErrorBody(e: HttpError): (body: JsValue)
    ensures body.Obj? && "detail" in body.fields && body.fields["detail"] == Str(e.detail)
    ensures Property(body, "error") == Undefined
  {
    Obj(map["detail" := Str(e.detail)])
  }
}
