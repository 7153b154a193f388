/**
 * The MongoDB database of `backend/database.py`: eight collections, each an
 * ordered sequence of documents, the queries the server uses on them, and
 * `DatabaseManager.init_sample_data`, which seeds the empty collections.
 */
module Database {
  import opened Wrappers
  import opened Documents
  import opened Models

  /** The eight collections. */
  datatype Collection = StationInfo | Equipment | QslCards | Achievements | News | Gallery | Guestbook | ContactRequests

  type Store = map<Collection, seq<Record>>

  /** Every collection is present (possibly empty). */
  predicate Complete(cols: Store) {
    forall c: Collection :: c in cols
  }

  /** A query `{key: value}` matches a document that holds `value` under `key`. */
  predicate Matches(doc: Record, key: string, value: Value) {
    key in doc && doc[key] == value
  }

  /** `find_one({key: value})` over a collection in its natural order: the position of the first match. */
  function FindIndex(records: seq<Record>, key: string, value: Value): (r: Option<nat>)
    ensures r.Some? ==> r.value < |records| && Matches(records[r.value], key, value)
    ensures r.Some? ==> forall j | 0 <= j < r.value :: !Matches(records[j], key, value)
    ensures r.None? ==> forall j | 0 <= j < |records| :: !Matches(records[j], key, value)
  {
    if |records| == 0 then None
    else if Matches(records[0], key, value) then Some(0)
    else match FindIndex(records[1..], key, value)
      case None => None
      case Some(i) => Some(i + 1)
  }

  /** The first matching position is the one `find_one` reports. */
  lemma FirstMatch(records: seq<Record>, key: string, value: Value, i: nat)
    requires i < |records| && Matches(records[i], key, value)
    requires forall j | 0 <= j < i :: !Matches(records[j], key, value)
    ensures FindIndex(records, key, value) == Some(i)
  {
  }

  /** A document appended after a collection is found by a query it matches, if nothing earlier matches. */
  lemma {:induction false} FindAppended(records: seq<Record>, doc: Record, key: string, value: Value)
    requires Matches(doc, key, value)
    ensures FindIndex(records + [doc], key, value).Some?
    ensures FindIndex(records, key, value).None? ==> FindIndex(records + [doc], key, value) == Some(|records|)
    ensures FindIndex(records, key, value).Some? ==> FindIndex(records + [doc], key, value) == FindIndex(records, key, value)
  {
    var all := records + [doc];
    assert Matches(all[|records|], key, value);
    assert forall j | 0 <= j < |records| :: all[j] == records[j];
  }

  /** The documents `init_sample_data` inserts, per collection. */
  datatype SampleSet = SampleSet(
    station: Record, equipment: seq<Record>, qslCards: seq<Record>, achievements: seq<Record>,
    news: seq<Record>, gallery: seq<Record>, guestbook: seq<Record>)

  /** What the seeding rules rely on: the station sample is the `4K6AG` document and no sample list is empty. */
  predicate Usable(s: SampleSet) {
    Matches(s.station, "callsign", PyStr("4K6AG"))
    && |s.equipment| > 0 && |s.qslCards| > 0 && |s.achievements| > 0
    && |s.news| > 0 && |s.gallery| > 0 && |s.guestbook| > 0
  }

  /** The sample station: `4K6AG`, online. */
  function SampleStation(supply: nat -> Fresh): Record {
    StationInfoDoc(supply(0), StationSample.0, StationSample.1, StationSample.2, StationSample.3, Online, "4K6AG")
  }

  /** Operator, location, grid square and licence class of the sample station. */
  const StationSample: (string, string, string, string) := ("John Doe", "Baku, Azerbaijan", "LN40AA", "Extra Class")

  /** Type, name, specs, power, gain and bands of each sample equipment item. */
  const EquipmentSamples: seq<(EquipmentType, string, string, Option<string>, Option<string>, Option<string>)> := [
    (Transceiver, "Yaesu FT-991A", "HF/VHF/UHF All Mode Transceiver", Some("100W"), None, Some("160-10m, 2m, 70cm")),
    (Antenna, "Hexbeam Antenna", "6-Band HF Beam Antenna", None, Some("6-8 dBi"), Some("20-10m")),
    (Amplifier, "ACOM 1000", "HF Linear Amplifier", Some("1000W"), None, Some("160-10m"))
  ]

  function SampleEquipment(supply: nat -> Fresh): seq<Record> {
    seq(|EquipmentSamples|, i requires 0 <= i < |EquipmentSamples| =>
      var e := EquipmentSamples[i];
      EquipmentDoc(supply(1 + i), e.0, e.1, e.2, power := e.3, gain := e.4, bands := e.5))
  }

  /** Image, year and design of each sample QSL card. */
  const QslCardSamples: seq<(string, string, string)> := [
    ("https://via.placeholder.com/400x250/4a90e2/ffffff?text=4K6AG+QSL", "2024", "Baku Flame Towers"),
    ("https://via.placeholder.com/400x250/50c878/ffffff?text=4K6AG+QSL+2023", "2023", "Azerbaijan Flag")
  ]

  function SampleQslCards(supply: nat -> Fresh): seq<Record> {
    seq(|QslCardSamples|, i requires 0 <= i < |QslCardSamples| =>
      var q := QslCardSamples[i];
      QslCardDoc(supply(4 + i), q.0, q.1, q.2))
  }

  /** Title, description and year of each sample achievement. */
  const AchievementSamples: seq<(string, string, string)> := [
    ("DXCC Honor Roll", "Worked and confirmed 340+ countries", "2024"),
    ("WAS (Worked All States)", "Confirmed all 50 US States", "2023"),
    ("WAE (Worked All Europe)", "Worked all European countries", "2023")
  ]

  function SampleAchievements(supply: nat -> Fresh): seq<Record> {
    seq(|AchievementSamples|, i requires 0 <= i < |AchievementSamples| =>
      var a := AchievementSamples[i];
      AchievementDoc(supply(6 + i), a.0, a.1, a.2))
  }

  /** Title, content and category of each sample news item. */
  const NewsSamples: seq<(string, string, NewsCategory)> := [
    ("New Equipment Installation",
     "Successfully installed new Hexbeam antenna system for improved DX performance.", EquipmentNews),
    ("Contest Results",
     "Achieved top 10 position in CQ WW DX Contest 2024 from Azerbaijan.", Contests)
  ]

  /** The dates of the sample news items. */
  const NewsDates: seq<DateTime> := [RawDateTime(2024, 1, 15, 0, 0, 0, 0), RawDateTime(2024, 1, 10, 0, 0, 0, 0)]

  function SampleNews(supply: nat -> Fresh): seq<Record> {
    seq(|NewsSamples|, i requires 0 <= i < |NewsSamples| =>
      var n := NewsSamples[i];
      NewsDoc(supply(9 + i), n.0, n.1, if i < |NewsDates| then Some(NewsDates[i]) else None, n.2))
  }

  /** Image, title and description of each sample gallery item. */
  const GallerySamples: seq<(string, string, string)> := [
    ("https://via.placeholder.com/600x400/ff6b6b/ffffff?text=Station+Shack",
     "Main Operating Position", "4K6AG main station setup"),
    ("https://via.placeholder.com/600x400/4ecdc4/ffffff?text=Antenna+Farm",
     "Antenna Farm", "HF and VHF antenna systems"),
    ("https://via.placeholder.com/600x400/45b7d1/ffffff?text=QSL+Collection",
     "QSL Card Collection", "Part of our QSL card collection")
  ]

  function SampleGallery(supply: nat -> Fresh): seq<Record> {
    seq(|GallerySamples|, i requires 0 <= i < |GallerySamples| =>
      var g := GallerySamples[i];
      GalleryDoc(supply(11 + i), g.0, g.1, g.2))
  }

  /** Name, message, callsign and country of each sample guestbook entry. */
  const GuestbookSamples: seq<(string, string, string, string)> := [
    ("VK3XYZ", "Great signal from Azerbaijan! 73s from Australia.", "VK3XYZ", "Australia"),
    ("JA1ABC", "Thanks for the nice QSO on 20m. Hope to work you again soon!", "JA1ABC", "Japan")
  ]

  /** The dates of the sample guestbook entries. */
  const GuestbookDates: seq<DateTime> := [RawDateTime(2024, 1, 20, 0, 0, 0, 0), RawDateTime(2024, 1, 18, 0, 0, 0, 0)]

  function SampleGuestbook(supply: nat -> Fresh): seq<Record> {
    seq(|GuestbookSamples|, i requires 0 <= i < |GuestbookSamples| =>
      var g := GuestbookSamples[i];
      GuestbookDoc(supply(14 + i), g.0, g.1, Some(g.2), Some(g.3), if i < |GuestbookDates| then Some(GuestbookDates[i]) else None))
  }

  /** The samples of `init_sample_data`, each document built from its own fresh values. */
  function SampleData(supply: nat -> Fresh): SampleSet {
    SampleSet(SampleStation(supply), SampleEquipment(supply), SampleQslCards(supply), SampleAchievements(supply),
              SampleNews(supply), SampleGallery(supply), SampleGuestbook(supply))
  }

  /** The sample station is the `4K6AG` document. */
  lemma SampleStationMatches(supply: nat -> Fresh)
    ensures Matches(SampleStation(supply), "callsign", PyStr("4K6AG"))
  {
    assert SampleStation(supply)["callsign"] == PyStr("4K6AG");
  }

  /** The seeding rules can rely on the samples: the station is `4K6AG` and no list is empty. */
  lemma SampleDataUsable(supply: nat -> Fresh)
    ensures Usable(SampleData(supply))
  {
    SampleStationMatches(supply);
  }

  /** The samples number 3, 2, 3, 2, 3 and 2, and the seeding rules can rely on them. */
  lemma SampleDataCounts(supply: nat -> Fresh)
    ensures var s := SampleData(supply);
      Usable(s) && |s.equipment| == 3 && |s.qslCards| == 2 && |s.achievements| == 3
      && |s.news| == 2 && |s.gallery| == 3 && |s.guestbook| == 2
  {
    SampleDataUsable(supply);
  }

  /** Every document of a list has an `_id`, and no two hold the same one. */
  predicate DistinctIds(docs: seq<Record>) {
    (forall i | 0 <= i < |docs| :: "_id" in docs[i])
    && forall i, j | 0 <= i < j < |docs| :: docs[i]["_id"] != docs[j]["_id"]
  }

  /** `uuid4()` never repeats: fresh values drawn at different times carry different ids. */
  ghost predicate FreshIds(supply: nat -> Fresh) {
    forall i: nat, j: nat | i != j :: supply(i).id != supply(j).id
  }

  /** Documents built from consecutive fresh values have distinct ids. */
  lemma IdsFromSupply(docs: seq<Record>, supply: nat -> Fresh, base: nat)
    requires FreshIds(supply)
    requires forall i | 0 <= i < |docs| :: CarriesBase(docs[i], supply(base + i))
    ensures DistinctIds(docs)
  {
    forall i, j | 0 <= i < j < |docs| ensures docs[i]["_id"] != docs[j]["_id"] {
      assert docs[i]["_id"] == PyStr(supply(base + i).id);
      assert docs[j]["_id"] == PyStr(supply(base + j).id);
    }
  }

  /** The sample equipment items carry distinct ids. */
  lemma EquipmentIdsDistinct(supply: nat -> Fresh)
    requires FreshIds(supply)
    ensures DistinctIds(SampleEquipment(supply))
  {
    var docs := SampleEquipment(supply);
    forall i | 0 <= i < |docs| ensures CarriesBase(docs[i], supply(1 + i)) {
    }
    IdsFromSupply(docs, supply, 1);
  }

  /** The sample QSL cards carry distinct ids. */
  lemma QslCardIdsDistinct(supply: nat -> Fresh)
    requires FreshIds(supply)
    ensures DistinctIds(SampleQslCards(supply))
  {
    var docs := SampleQslCards(supply);
    forall i | 0 <= i < |docs| ensures CarriesBase(docs[i], supply(4 + i)) {
    }
    IdsFromSupply(docs, supply, 4);
  }

  /** The sample achievements carry distinct ids. */
  lemma AchievementIdsDistinct(supply: nat -> Fresh)
    requires FreshIds(supply)
    ensures DistinctIds(SampleAchievements(supply))
  {
    var docs := SampleAchievements(supply);
    forall i | 0 <= i < |docs| ensures CarriesBase(docs[i], supply(6 + i)) {
    }
    IdsFromSupply(docs, supply, 6);
  }

  /** The sample news items carry distinct ids. */
  lemma NewsIdsDistinct(supply: nat -> Fresh)
    requires FreshIds(supply)
    ensures DistinctIds(SampleNews(supply))
  {
    var docs := SampleNews(supply);
    forall i | 0 <= i < |docs| ensures CarriesBase(docs[i], supply(9 + i)) {
    }
    IdsFromSupply(docs, supply, 9);
  }

  /** The sample gallery items carry distinct ids. */
  lemma GalleryIdsDistinct(supply: nat -> Fresh)
    requires FreshIds(supply)
    ensures DistinctIds(SampleGallery(supply))
  {
    var docs := SampleGallery(supply);
    forall i | 0 <= i < |docs| ensures CarriesBase(docs[i], supply(11 + i)) {
    }
    IdsFromSupply(docs, supply, 11);
  }

  /** The sample guestbook entries carry distinct ids. */
  lemma GuestbookIdsDistinct(supply: nat -> Fresh)
    requires FreshIds(supply)
    ensures DistinctIds(SampleGuestbook(supply))
  {
    var docs := SampleGuestbook(supply);
    forall i | 0 <= i < |docs| ensures CarriesBase(docs[i], supply(14 + i)) {
    }
    IdsFromSupply(docs, supply, 14);
  }

  /** With ids that never repeat, the samples of each collection carry pairwise distinct `_id`s. */
  lemma SampleIdsDistinct(supply: nat -> Fresh)
    requires FreshIds(supply)
    ensures var s := SampleData(supply);
      DistinctIds(s.equipment) && DistinctIds(s.qslCards) && DistinctIds(s.achievements)
      && DistinctIds(s.news) && DistinctIds(s.gallery) && DistinctIds(s.guestbook)
  {
    EquipmentIdsDistinct(supply);
    QslCardIdsDistinct(supply);
    AchievementIdsDistinct(supply);
    NewsIdsDistinct(supply);
    GalleryIdsDistinct(supply);
    GuestbookIdsDistinct(supply);
  }

  /** A document whose `type` is the value of a known kind parses back to that kind. */
  lemma TypedAs(d: Record, kind: EquipmentType)
    requires "type" in d && d["type"] == PyStr(EquipmentTypeName(kind))
    ensures d["type"].PyStr? && ParseEquipmentType(d["type"].s) == Some(kind)
  {
    EquipmentTypeRoundTrip(kind, d["type"].s);
  }

  /** Every seeded equipment item has a valid `EquipmentType`, and none is `other`. */
  lemma SampleEquipmentTypes(supply: nat -> Fresh)
    ensures forall i | 0 <= i < |SampleEquipment(supply)| :: var d := SampleEquipment(supply)[i];
      "type" in d && d["type"].PyStr? && ParseEquipmentType(d["type"].s).Some?
      && ParseEquipmentType(d["type"].s) != Some(Other)
  {
    var items: seq<Record> := SampleEquipment(supply);
    forall i | 0 <= i < |items|
      ensures "type" in items[i] && items[i]["type"].PyStr? && ParseEquipmentType(items[i]["type"].s).Some?
      ensures ParseEquipmentType(items[i]["type"].s) != Some(Other)
    {
      TypedAs(items[i], EquipmentSamples[i].0);
    }
  }

  /** The sample documents of a collection other than the station's (none for contact requests). */
  function Samples(c: Collection, s: SampleSet): seq<Record> {
    match c
    case Equipment => s.equipment
    case QslCards => s.qslCards
    case Achievements => s.achievements
    case News => s.news
    case Gallery => s.gallery
    case Guestbook => s.guestbook
    case _ => []
  }

  /** The seeding rule for one collection. */
  function SeedOne(c: Collection, records: seq<Record>, s: SampleSet): seq<Record> {
    if c == StationInfo then
      if FindIndex(records, "callsign", PyStr("4K6AG")).Some? then records else records + [s.station]
    else if |records| == 0 then Samples(c, s)
    else records
  }

  /** The station step: the sample is appended unless a `4K6AG` document exists. */
  function SeedStation(cols: Store, station: Record): (r: Store)
    requires Complete(cols)
    ensures Complete(r)
  {
    if FindIndex(cols[StationInfo], "callsign", PyStr("4K6AG")).Some? then cols
    else cols[StationInfo := cols[StationInfo] + [station]]
  }

  /** One `if count == 0:` step: an empty collection receives its samples. */
  function SeedIfEmptyStep(cols: Store, c: Collection, samples: seq<Record>): (r: Store)
    requires Complete(cols)
    ensures Complete(r)
  {
    if |cols[c]| == 0 then cols[c := samples] else cols
  }

  /** The collections after `init_sample_data`: the station step, then the six collection steps in order. */
  function Seeded(cols: Store, s: SampleSet): (r: Store)
    requires Complete(cols)
    ensures Complete(r)
  {
    var afterStation := SeedStation(cols, s.station);
    var afterEquipment := SeedIfEmptyStep(afterStation, Equipment, s.equipment);
    var afterQsl := SeedIfEmptyStep(afterEquipment, QslCards, s.qslCards);
    var afterAchievements := SeedIfEmptyStep(afterQsl, Achievements, s.achievements);
    var afterNews := SeedIfEmptyStep(afterAchievements, News, s.news);
    var afterGallery := SeedIfEmptyStep(afterNews, Gallery, s.gallery);
    SeedIfEmptyStep(afterGallery, Guestbook, s.guestbook)
  }

  /** Each collection is seeded independently of the others, by its own rule. */
  lemma SeededAt(cols: Store, s: SampleSet, c: Collection)
    requires Complete(cols)
    ensures Seeded(cols, s)[c] == SeedOne(c, cols[c], s)
    ensures |cols[c]| <= |Seeded(cols, s)[c]|
  {
    var afterStation := SeedStation(cols, s.station);
    assert afterStation[c] == if c == StationInfo then SeedOne(c, cols[c], s) else cols[c];
    var afterEquipment := SeedIfEmptyStep(afterStation, Equipment, s.equipment);
    assert afterEquipment[c] == if c in {StationInfo, Equipment} then SeedOne(c, cols[c], s) else cols[c];
    var afterQsl := SeedIfEmptyStep(afterEquipment, QslCards, s.qslCards);
    assert afterQsl[c] == if c in {StationInfo, Equipment, QslCards} then SeedOne(c, cols[c], s) else cols[c];
    var afterAchievements := SeedIfEmptyStep(afterQsl, Achievements, s.achievements);
    assert afterAchievements[c] == if c in {StationInfo, Equipment, QslCards, Achievements} then SeedOne(c, cols[c], s) else cols[c];
    var afterNews := SeedIfEmptyStep(afterAchievements, News, s.news);
    assert afterNews[c] == if c in {StationInfo, Equipment, QslCards, Achievements, News} then SeedOne(c, cols[c], s) else cols[c];
    var afterGallery := SeedIfEmptyStep(afterNews, Gallery, s.gallery);
    assert afterGallery[c] == if c in {ContactRequests, Guestbook} then cols[c] else SeedOne(c, cols[c], s);
    assert Seeded(cols, s) == SeedIfEmptyStep(afterGallery, Guestbook, s.guestbook);
  }

  /** After seeding, the station exists and every collection with samples is non-empty. */
  lemma SeededHasStation(cols: Store, s: SampleSet)
    requires Complete(cols) && Usable(s)
    ensures FindIndex(Seeded(cols, s)[StationInfo], "callsign", PyStr("4K6AG")).Some?
    ensures forall c: Collection | c != StationInfo && c != ContactRequests :: |Seeded(cols, s)[c]| > 0
  {
    var records := cols[StationInfo];
    SeededAt(cols, s, StationInfo);
    if FindIndex(records, "callsign", PyStr("4K6AG")).None? {
      FindAppended(records, s.station, "callsign", PyStr("4K6AG"));
    }
    forall c: Collection | c != StationInfo && c != ContactRequests
      ensures |Seeded(cols, s)[c]| > 0
    {
      SeededAt(cols, s, c);
    }
  }

  /** Seeding a second time inserts nothing, whatever the second run's samples are. */
  lemma SeedingIdempotent(cols: Store, s: SampleSet, s': SampleSet)
    requires Complete(cols) && Usable(s)
    ensures Seeded(Seeded(cols, s), s') == Seeded(cols, s)
  {
    SeededHasStation(cols, s);
    var once := Seeded(cols, s);
    forall c: Collection
      ensures Seeded(once, s')[c] == once[c]
    {
      SeededAt(once, s', c);
    }
  }

  /** Seeding an empty database inserts the station and every sample list, and no contact request. */
  lemma SeedingEmpty(cols: Store, s: SampleSet)
    requires Complete(cols) && forall c: Collection :: cols[c] == []
    ensures var r := Seeded(cols, s);
      r[StationInfo] == [s.station] && r[Equipment] == s.equipment && r[QslCards] == s.qslCards
      && r[Achievements] == s.achievements && r[News] == s.news && r[Gallery] == s.gallery
      && r[Guestbook] == s.guestbook && r[ContactRequests] == []
  {
    forall c: Collection
      ensures Seeded(cols, s)[c] == SeedOne(c, [], s)
    {
      SeededAt(cols, s, c);
    }
  }

  /** A non-empty collection is kept as it is, even if it holds none of the samples. */
  lemma NonEmptyKept(cols: Store, s: SampleSet, c: Collection)
    requires Complete(cols) && c != StationInfo && |cols[c]| > 0
    ensures Seeded(cols, s)[c] == cols[c]
  {
    SeededAt(cols, s, c);
  }

  /** A station collection with some document for `4K6AG` is kept; one without it gets the sample appended. */
  lemma StationSeeding(cols: Store, s: SampleSet)
    requires Complete(cols)
    ensures FindIndex(cols[StationInfo], "callsign", PyStr("4K6AG")).Some? ==>
      Seeded(cols, s)[StationInfo] == cols[StationInfo]
    ensures FindIndex(cols[StationInfo], "callsign", PyStr("4K6AG")).None? ==>
      Seeded(cols, s)[StationInfo] == cols[StationInfo] + [s.station]
  {
    SeededAt(cols, s, StationInfo);
  }

  /** The database: every collection as the sequence of its documents in insertion order. */
  class Database {
    var collections: Store

    ghost predicate Valid()
      reads this
    {
      Complete(collections)
    }

    constructor (cols: Store)
      requires Complete(cols)
      ensures collections == cols && Valid()
    {
      collections := cols;
    }

    /** `insert_one`: the document goes at the end of its collection. */
    method InsertOne(c: Collection, doc: Record)
      requires Valid()
      modifies this
      ensures Valid()
      ensures collections == old(collections)[c := old(collections)[c] + [doc]]
    {
      collections := collections[c := collections[c] + [doc]];
    }

    /** `find_one_and_update(..., {"$set": update}, return_document=True)` on the first match. */
    method FindOneAndUpdate(c: Collection, key: string, value: Value, update: Record) returns (r: Option<Record>)
      requires Valid()
      modifies this
      ensures Valid()
      ensures FindIndex(old(collections)[c], key, value).None? ==> r.None? && collections == old(collections)
      ensures FindIndex(old(collections)[c], key, value).Some? ==>
        var i := FindIndex(old(collections)[c], key, value).value;
        r == Some(old(collections)[c][i] + update)
        && collections == old(collections)[c := old(collections)[c][i := old(collections)[c][i] + update]]
    {
      var found := FindIndex(collections[c], key, value);
      if found.None? {
        return None;
      }
      var updated := collections[c][found.value] + update;
      collections := collections[c := collections[c][found.value := updated]];
      r := Some(updated);
    }

    /** `delete_one({key: value})`: removes the first match and reports how many were deleted. */
    method DeleteOne(c: Collection, key: string, value: Value) returns (deletedCount: nat)
      requires Valid()
      modifies this
      ensures Valid()
      ensures deletedCount <= 1
      ensures FindIndex(old(collections)[c], key, value).None? ==> deletedCount == 0 && collections == old(collections)
      ensures FindIndex(old(collections)[c], key, value).Some? ==>
        var i := FindIndex(old(collections)[c], key, value).value;
        deletedCount == 1 && collections == old(collections)[c := old(collections)[c][..i] + old(collections)[c][i + 1..]]
    {
      var found := FindIndex(collections[c], key, value);
      if found.None? {
        return 0;
      }
      var i := found.value;
      collections := collections[c := collections[c][..i] + collections[c][i + 1..]];
      deletedCount := 1;
    }

    /** One `if count == 0:` block: the samples are inserted one by one, only into an empty collection. */
    method SeedIfEmpty(c: Collection, samples: seq<Record>)
      requires Valid()
      modifies this
      ensures Valid()
      ensures collections == SeedIfEmptyStep(old(collections), c, samples)
    {
      if |collections[c]| != 0 {
        return;
      }
      for i := 0 to |samples|
        invariant Valid()
        invariant collections == old(collections)[c := samples[..i]]
      {
        InsertOne(c, samples[i]);
        assert samples[..i] + [samples[i]] == samples[..i + 1];
      }
      assert samples[..|samples|] == samples;
    }

    /**
     * `init_sample_data`: the station is inserted unless a `4K6AG` document
     * exists, then each other collection is seeded if it is empty.
     */
    method InitSampleData(supply: nat -> Fresh)
      requires Valid()
      modifies this
      ensures Valid()
      ensures collections == Seeded(old(collections), SampleData(supply))
    {
      var samples := SampleData(supply);
      SeedSamples(samples);
    }

    /** The body of `init_sample_data` over its list of samples. */
    method SeedSamples(s: SampleSet)
      requires Valid()
      modifies this
      ensures Valid()
      ensures collections == Seeded(old(collections), s)
    {
      var stationExists := FindIndex(collections[StationInfo], "callsign", PyStr("4K6AG"));
      if stationExists.None? {
        InsertOne(StationInfo, s.station);
      }
      assert collections == SeedStation(old(collections), s.station);
      SeedIfEmpty(Equipment, s.equipment);
      SeedIfEmpty(QslCards, s.qslCards);
      SeedIfEmpty(Achievements, s.achievements);
      SeedIfEmpty(News, s.news);
      SeedIfEmpty(Gallery, s.gallery);
      SeedIfEmpty(Guestbook, s.guestbook);
    }
  }

  /** Starting the server twice seeds once: the second start leaves the database as the first left it. */
  method RestartSeedsOnce(cols: Store, supply: nat -> Fresh, supply': nat -> Fresh)
    requires Complete(cols)
  {
    var samples, samples' := SampleData(supply), SampleData(supply');
    SampleDataUsable(supply);
    SeedingIdempotent(cols, samples, samples');
    var db := new Database(cols);
    db.SeedSamples(samples);
    var afterFirst := db.collections;
    db.SeedSamples(samples');
    assert db.collections == afterFirst;
  }
}
