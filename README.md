# 4K6AG amateur radio station site — a Dafny model

The site of the amateur radio station 4K6AG has two halves, and this project models the core of each.

The React front end:
- a trilingual translation table (Azerbaijani, Russian, English) in `mock.js`;
- the `LanguageContext` provider and its dotted-path lookup `t`;
- the `useData` hook family that fetches, tracks loading, data and error, and drops late results;
- the `apiService` envelope `{data, error}`, where exactly one of the two is null, and the paths it requests;
- the contact/QSL form with its required-field check;
- the icon and colour choices of the equipment, news and achievement cards.

The FastAPI back end:
- the pydantic models: enumerations, defaults, and update models whose unset fields are `None`;
- `serialize_doc` (renames `_id` to `id`, turns every datetime into ISO text);
- `init_sample_data`, which seeds each empty MongoDB collection;
- the endpoints of `server.py`: station info, equipment update and delete, paged news and guestbook listings, contact requests, station status.

Each source file becomes one module:

| module | source |
|---|---|
| `Mock`, `LanguageContext`, `UseData`, `Api`, `Contacts` | the front-end files of the same names |
| `EquipmentView`, `NewsView`, `AchievementsView` | the front-end card components |
| `Documents` | Python values and `serialize_doc` |
| `Models` | `models.py` |
| `Database` | `database.py`, with a `Database` class that stands in for the Motor collections |
| `Listing` | the cursor chain `find / sort / skip / limit` |
| `Server` | `server.py` |

Three helper modules hold the JavaScript and Python semantics the model relies on:
- `Wrappers`: `Option` and `Result`;
- `Js`: JavaScript values, truthiness, property access and `String.split`;
- `Decimal`: number-to-text conversion and its parser.

The model follows the form of the code:
- Stateful pieces are classes whose methods update fields in place and are proved against specification functions:
  - `LanguageProvider`;
  - `DataHook`;
  - `ContactForm`;
  - `Document`, which `serialize_doc` rewrites in place;
  - `Database`.
- Pure choices and the request handlers are functions, with lemmas for their properties.

## Model

| member | source | states |
|---|---|---|
| Mock.NavAgrees | frontend/src/mock.js:3-193 | the `nav` section of all three locales has distinct, dot-free keys, non-empty texts and the same keys in the same order |
| Mock.HeroAgrees | frontend/src/mock.js:3-193 | the same agreement for the `hero` section |
| Mock.AboutAgrees | frontend/src/mock.js:3-193 | the same agreement for the `about` section |
| Mock.EquipmentAgrees | frontend/src/mock.js:3-193 | the same agreement for the `equipment` section |
| Mock.QslAgrees | frontend/src/mock.js:3-193 | the same agreement for the `qsl` section |
| Mock.ContactAgrees | frontend/src/mock.js:3-193 | the same agreement for the `contact` section |
| Mock.FooterAgrees | frontend/src/mock.js:3-193 | the same agreement for the `footer` section |
| Mock.TableComplete | frontend/src/mock.js:3-193 | every locale lists the same seven sections with the same keys, so no key is translated in one language and missing in another |
| Mock.SectionLookup | frontend/src/mock.js:3-193 | in a section with distinct keys, each key reads back exactly the text written beside it |
| Mock.SectionMiss | frontend/src/mock.js:3-193 | a key a section does not list reads back `undefined` |
| Mock.LocaleLookup | frontend/src/mock.js:3-193 | each section name of a locale reads back that section's object |
| Mock.LocaleMiss | frontend/src/mock.js:3-193 | a name that is not a section reads back `undefined` |
| Mock.TableForLocale | frontend/src/mock.js:3-193 | `mockTranslations[code]` is the object written under `code` for az, ru and en |
| Mock.TableDomain | frontend/src/mock.js:3-193 | `mockTranslations[code]` is an object exactly when `code` is az, ru or en, and `undefined` otherwise |
| Mock.HeroLabels | frontend/src/mock.js:19-25 | in every locale the hero title is the callsign 4K6AG and the online/offline labels are non-empty |
| Mock.DetectLanguageByLocation | frontend/src/mock.js:319-323 | the detected language is always one of the three locales of the table |
| Mock.DetectionCoversLocales | frontend/src/mock.js:319-323 | each of the three locales is detected for some random draw |
| Mock.StationEquipmentKinds | frontend/src/mock.js:202-227 | every sample equipment item is a transceiver, an antenna or an amplifier, and their ids are distinct |
| LanguageContext.WalkPrefix | frontend/src/components/LanguageContext.js:35-41 | walking a prefix of the path and then the rest reaches what walking the whole path reaches |
| LanguageContext.LeafFound | frontend/src/components/LanguageContext.js:32-43 | a path whose segments all exist and end on a non-empty string translates to that string |
| LanguageContext.MissingSegmentFallsBack | frontend/src/components/LanguageContext.js:36-42 | when an object on the way lacks the next segment, `t` returns the path unchanged |
| LanguageContext.StringBeforeLastSegment | frontend/src/components/LanguageContext.js:36-40 | a string reached before the last segment stops the walk and `t` returns the path |
| LanguageContext.EmptyLeafFallsBack | frontend/src/components/LanguageContext.js:42 | a walk ending on a falsy value gives back the path (`result \|\| path`) |
| LanguageContext.EntryInLocale | frontend/src/components/LanguageContext.js:32-43 | in any well-formed locale, `section.key` translates to the text stored under it |
| LanguageContext.EveryEntryTranslates | frontend/src/components/LanguageContext.js:32-43 | every entry of every locale of the translation table translates to its own text |
| LanguageContext.MissingKeyInLocale | frontend/src/components/LanguageContext.js:36-42 | a key missing from a section of a well-formed locale falls back to the path |
| LanguageContext.MissingKeyFallsBack | frontend/src/components/LanguageContext.js:36-42 | the same for the actual translation table |
| LanguageContext.SectionPathGivesTable | frontend/src/components/LanguageContext.js:32-43 | `t('section')` returns the section's object itself, not text |
| LanguageContext.BeyondLeafInLocale | frontend/src/components/LanguageContext.js:36-40 | a path that goes past a string entry of a well-formed locale falls back to the path |
| LanguageContext.PathBeyondLeaf | frontend/src/components/LanguageContext.js:36-40 | the same for the actual translation table |
| LanguageContext.LanguageProvider.constructor | frontend/src/components/LanguageContext.js:15-16 | the provider starts in English with the English table |
| LanguageContext.LanguageProvider.DetectOnMount | frontend/src/components/LanguageContext.js:18-23 | mounting sets the language to the detected one and the translations to that locale's table |
| LanguageContext.LanguageProvider.ChangeLanguage | frontend/src/components/LanguageContext.js:25-30 | a known language switches language and table; an unknown one changes nothing |
| LanguageContext.LanguageProvider.T | frontend/src/components/LanguageContext.js:32-43 | the segment-by-segment loop returns what the walk specification `Translate` gives |
| LanguageContext.UseLanguage | frontend/src/components/LanguageContext.js:6-12 | outside a provider the hook throws its error message; inside it returns the context |
| UseData.ErrorMessage | frontend/src/hooks/useData.js:24 | the stored error is the server's `error` field when truthy, else the exception's message |
| UseData.HookErrorMatchesEnvelope | frontend/src/hooks/useData.js:24 | the hook stores the same error text the `apiService` envelope carries for that failure |
| UseData.Initial | frontend/src/hooks/useData.js:5-7 | a fresh hook holds no data, is loading and has no error |
| UseData.Settle | frontend/src/hooks/useData.js:17-31 | a success stores the data and a failure the error message; loading is off either way |
| UseData.BeginKeepsData | frontend/src/hooks/useData.js:14-15 | starting a fetch clears the error and raises loading but keeps the data |
| UseData.StartThenSucceed | frontend/src/hooks/useData.js:14-30 | a fetch that succeeds ends with the new data, not loading, and no error |
| UseData.FailureKeepsEarlierData | frontend/src/hooks/useData.js:22-27 | a failed refetch after a success holds the old data and the error together |
| UseData.DataHook.constructor | frontend/src/hooks/useData.js:5-15 | mounting gives the initial state, then the effect's first run starts loading |
| UseData.DataHook.Render | frontend/src/hooks/useData.js:9-39 | a new dependency list ends the old run's `isMounted` and starts a new run; an equal list changes nothing |
| UseData.DataHook.Unmount | frontend/src/hooks/useData.js:36-38 | after unmount no run is mounted and the state is unchanged |
| UseData.DataHook.StartRefetch | frontend/src/hooks/useData.js:41-45 | `refetch` raises loading and clears the error, keeping the data |
| UseData.DataHook.Complete | frontend/src/hooks/useData.js:12-54 | the current mounted run's result and a refetch's result settle the state; a stale or unmounted run's result is dropped |
| UseData.NewsHook | frontend/src/hooks/useData.js:92-97 | `useNewsData` depends on `[limit, offset]` (defaults 10 and 0) and requests the news path for them |
| UseData.GuestbookHook | frontend/src/hooks/useData.js:108-113 | `useGuestbookData` depends on `[limit, offset]` (defaults 20 and 0) and requests the guestbook path for them |
| UseData.PageChangeRefetches | frontend/src/hooks/useData.js:92-113 | different page arguments give different dependency lists, so the hook fetches again |
| Api.UpdateEquipment | frontend/src/services/api.js:48 | `updateEquipment` is a PUT of the data to `/equipment/{id}` |
| Api.DeleteEquipment | frontend/src/services/api.js:49 | `deleteEquipment` is a DELETE of `/equipment/{id}` with no body |
| Api.PagedPathRoundTrip | frontend/src/services/api.js:66 | the `limit` and `offset` written into a paged path read back as the same integers |
| Api.NewsPathDefaults | frontend/src/services/api.js:66 | `getNews` without arguments asks for limit 10 and offset 0, and with arguments for exactly those |
| Api.GuestbookPathDefaults | frontend/src/services/api.js:78 | `getGuestbook` without arguments asks for limit 20 and offset 0 |
| Api.ContactRequestsPathDefaults | frontend/src/services/api.js:85 | `getContactRequests` without arguments asks for limit 50 |
| Api.EquipmentItemTargets | frontend/src/services/api.js:48-49 | update and delete of one id address the same path, and different ids address different paths |
| Api.ToEnvelope | frontend/src/services/api.js:91-128 | a resolved request gives `{data: response.data, error: null}` and a rejected one `{data: null, error}` with a non-null error |
| Api.EnvelopeErrorChoice | frontend/src/services/api.js:95-97 | the envelope's error is the server's `error` field when truthy, else the exception's message |
| Contacts.InitialForm | frontend/src/components/Contacts.js:16-26 | the form has its nine fields, all texts empty and the QSL box unchecked |
| Contacts.InputChange | frontend/src/components/Contacts.js:29-35 | the named field takes the checkbox's state or the input's text; every other field is kept |
| Contacts.InitialFormIncomplete | frontend/src/components/Contacts.js:16-43 | the untouched form cannot be submitted |
| Contacts.OptionalFieldsIgnored | frontend/src/components/Contacts.js:40-43 | editing any field other than name, email and message never changes whether the form can be sent |
| Contacts.UncheckingKeepsQslFields | frontend/src/components/Contacts.js:29-35 | unchecking the QSL box hides the QSL fields but keeps what was typed in them |
| Contacts.ReplyNotice | frontend/src/components/Contacts.js:50-68 | the notice is a success exactly when the server answered with `success`, and its text is never empty |
| Contacts.NoticeTexts | frontend/src/components/Contacts.js:50-68 | the server's message is shown when present, and each failure path has its own default text |
| Contacts.ContactForm.constructor | frontend/src/components/Contacts.js:16-27 | the form starts empty and not submitting |
| Contacts.ContactForm.HandleInputChange | frontend/src/components/Contacts.js:29-35 | one field takes the input's value |
| Contacts.ContactForm.HandleSubmit | frontend/src/components/Contacts.js:37-48 | with a required field empty only a notice is shown; otherwise `isSubmitting` is raised and the whole form is posted to `/contact` |
| Contacts.ContactForm.FinishSubmit | frontend/src/components/Contacts.js:47-71 | a success resets the form, anything else keeps it, and `isSubmitting` is lowered either way |
| EquipmentView.KnownTypes | frontend/src/components/Equipment.js:11-35 | each known equipment type has its own icon and background colour |
| EquipmentView.UnknownTypeIsDefault | frontend/src/components/Equipment.js:11-35 | any other type gets the waves icon and the purple colours |
| EquipmentView.SamePartition | frontend/src/components/Equipment.js:11-35 | icon and colour split the types the same way: two types share an icon exactly when they share a colour |
| EquipmentView.SpecRows | frontend/src/components/Equipment.js:63-82 | a row is shown for power, gain and bands exactly when the item's property is truthy, with that property's value; the rows come in the order power, gain, bands and no kind appears twice |
| EquipmentView.RowLabelsTranslated | frontend/src/components/Equipment.js:63-82 | the power and bands labels are the translations of `equipment.power` and `equipment.bands` in every locale; the gain label is the literal `Gain:` and is not translated |
| EquipmentView.StationEquipmentRows | frontend/src/components/Equipment.js:63-82 | the sample transceiver shows power and bands, the antenna gain and bands, the amplifier power and bands |
| NewsView.KnownCategories | frontend/src/components/News.js:19-39 | each known news category has its own icon and colour |
| NewsView.OtherCategoryIsDefault | frontend/src/components/News.js:19-39 | any other category gets the default icon and colour |
| NewsView.SamePartition | frontend/src/components/News.js:19-39 | two categories share an icon exactly when they share a colour |
| AchievementsView.AchievementIcon | frontend/src/components/Achievements.js:11-15 | the icon is chosen by the card's index modulo four |
| AchievementsView.AchievementColor | frontend/src/components/Achievements.js:17-25 | the colour classes are chosen by the card's index modulo four |
| AchievementsView.FirstCard | frontend/src/components/Achievements.js:11-25 | the first card has the trophy icon and the yellow classes |
| AchievementsView.Periodic | frontend/src/components/Achievements.js:11-25 | icon and colour repeat every four cards |
| AchievementsView.IconAndColorInStep | frontend/src/components/Achievements.js:11-25 | two cards share an icon exactly when they share a colour, exactly when their indices agree modulo four |
| AchievementsView.CardMatchesIconBox | frontend/src/components/Achievements.js:41-45 | a card and its icon box carry the colour classes of the same index |
| Documents.IsoFormat | backend/server.py:71-73 | `isoformat()` text: 19 characters, or 26 with microseconds, with the date and time separators at fixed places |
| Documents.IsoValue | backend/server.py:71-73 | datetimes become their ISO text and every other value is unchanged |
| Documents.Serialized | backend/server.py:61-75 | `_id` is renamed to `id` holding `str(_id)`, every datetime becomes text, no datetime is left, and every other field keeps its value |
| Documents.SerializedIdempotent | backend/server.py:61-75 | serializing a serialized document changes nothing |
| Documents.SerializeDoc | backend/server.py:61-75 | `None` gives `None`; otherwise the dictionary itself is rewritten to its serialized form and returned |
| Documents.SerializeDocs | backend/server.py:77-79 | the same dictionaries come back in the same order, each serialized |
| Models.ParseStationStatus | backend/models.py:8-10 | only "online" and "offline" are statuses |
| Models.StationStatusRoundTrip | backend/models.py:8-10 | a status's value parses back to it, and a parsed text is the value of its status |
| Models.ParseEquipmentType | backend/models.py:12-16 | only the four type values are equipment types |
| Models.EquipmentTypeRoundTrip | backend/models.py:12-16 | an equipment type's value parses back to it, and a parsed text is the value of its type |
| Models.ParseNewsCategory | backend/models.py:18-21 | only the three category values are news categories |
| Models.NewsCategoryRoundTrip | backend/models.py:18-21 | a category's value parses back to it, and a parsed text is the value of its category |
| Models.BaseFields | backend/models.py:24-30 | every document has `_id`, `created_at` and `updated_at`, with the id as `_id` |
| Models.EquipmentDoc | backend/models.py:56-62 | an equipment document carries the base fields and stores its type's value under `type` |
| Models.NewsDoc | backend/models.py:105-109 | a news document carries the base fields and stores the given date or else the creation time, and its category's value |
| Models.GuestbookDoc | backend/models.py:135-141 | a guestbook document carries the base fields and stores its date and its `approved` flag |
| Models.GuestbookFromCreate | backend/models.py:135-147 | a created guestbook entry is approved and dated at its creation time |
| Models.NewsFromCreate | backend/server.py:194-204 | a created news item keeps its category, and its date is the given one or else the creation time |
| Models.NewsCategoryDefaults | backend/models.py:105-115 | news and news-create default to the general category |
| Models.ContactRequestCreateOf | backend/models.py:166-176 | a contact request defaults to no QSL request and no optional fields |
| Models.ContactRequestDoc | backend/models.py:154-164 | a stored contact request carries the base fields and its `qsl_request` flag |
| Models.StationInfoDoc | backend/models.py:33-39 | a station document carries the base fields, its callsign and its status value |
| Models.QslCardDoc | backend/models.py:81-84 | a QSL card document holds exactly the base fields, image, year and design |
| Models.AchievementDoc | backend/models.py:92-96 | an achievement document carries the base fields and a `None` category exactly when none is given |
| Models.GalleryDoc | backend/models.py:122-126 | a gallery document carries the base fields and a `None` category exactly when none is given |
| Models.NewDocumentsHaveBase | backend/models.py:24-30 | the documents built by the create endpoints carry the stamp's `_id`, `created_at` and `updated_at`; a contact request with only the required fields has no QSL request |
| Models.StationInfoUpdateDict | backend/models.py:48-53 | `StationInfoUpdate.dict()` has exactly its five fields |
| Models.EquipmentUpdateDict | backend/models.py:72-78 | `EquipmentUpdate.dict()` has exactly its six fields |
| Models.StationStatusUpdateDict | backend/models.py:190-193 | `StationStatusUpdate.dict()` has exactly its three fields |
| Models.NonNone | backend/server.py:93 | the `v is not None` filter keeps exactly the keys whose value is not `None`, with their values |
| Models.EmptyUpdatesWriteNothing | backend/models.py:48-78 | an update model with no field set filters to the empty change |
| Models.EquipmentUpdateFields | backend/server.py:126 | each of the six fields of an equipment update is in the change exactly when it is set, and then with its value |
| Database.FindIndex | backend/database.py:43 | `find_one` gives the first document that matches, or none exactly when no document matches |
| Database.FirstMatch | backend/database.py:43 | a match with no match before it is the one `find_one` returns |
| Database.FindAppended | backend/database.py:43-54 | appending a document leaves an earlier match where it was, and an appended match is found when none was before |
| Database.SampleStationMatches | backend/database.py:43-54 | the sample station document has callsign 4K6AG |
| Database.SampleDataCounts | backend/database.py:56-201 | the samples hold 3 equipment items, 2 QSL cards, 3 achievements, 2 news items, 3 gallery items and 2 guestbook entries |
| Database.SampleIdsDistinct | backend/database.py:56-201 | when `uuid4()` never repeats, the samples of each collection carry pairwise distinct `_id`s |
| Database.SampleEquipmentTypes | backend/database.py:56-85 | every sample equipment document's `type` is a transceiver, an antenna or an amplifier |
| Database.SeededAt | backend/database.py:39-201 | each collection ends up as its own seeding rule decides, independent of the others |
| Database.SeededHasStation | backend/database.py:43-54 | after seeding there is always a 4K6AG station document |
| Database.SeedingIdempotent | backend/database.py:39-201 | seeding twice is seeding once |
| Database.SeedingEmpty | backend/database.py:39-201 | on an empty database each collection ends up holding exactly its samples |
| Database.NonEmptyKept | backend/database.py:56-201 | a non-empty collection other than the station's is left untouched |
| Database.StationSeeding | backend/database.py:43-54 | the station collection gains the sample station only when no 4K6AG document exists |
| Database.Database.InsertOne | backend/server.py:118 | `insert_one` appends the document and changes no other collection |
| Database.Database.FindOneAndUpdate | backend/server.py:96-100 | the first match is merged with the change and returned as updated; without a match nothing changes |
| Database.Database.DeleteOne | backend/server.py:143 | the first match is removed and the count is 1; without a match it is 0 and nothing changes |
| Database.Database.SeedIfEmpty | backend/database.py:56-85 | an empty collection receives the samples in order; a non-empty one is left alone |
| Database.Database.InitSampleData | backend/database.py:39-201 | the collections become the result of the seeding specification `Seeded` |
| Database.Database.SeedSamples | backend/database.py:39-201 | the same for any set of samples |
| Listing.TiesShareDate | backend/server.py:187 | two documents that may each come first hold the same date, or neither holds one |
| Listing.SortDesc | backend/server.py:187 | `sort("date", -1)` is a permutation of the collection, latest date first, undated documents last |
| Listing.Page | backend/server.py:187 | `skip(offset).limit(limit)` gives at most `limit` documents, the ones from position `offset` on, in order |
| Listing.PagesTile | backend/server.py:187 | two consecutive pages together are the page of their combined size: paging skips and repeats nothing |
| Listing.Where | backend/server.py:227 | `find({key: value})` keeps each matching document as often as the collection holds it and drops every other |
| Listing.WhereConcat | backend/server.py:227 | the filter keeps collection order: filtering two stretches and joining them is filtering the whole |
| Listing.SerializedAll | backend/server.py:77-79 | a list is serialized item by item, keeping length and order |
| Server.GetStationInfo | backend/server.py:82-88 | a 404 "Station information not found" exactly when no 4K6AG document exists, else that document serialized |
| Server.EquipmentUpdateKeepsUnset | backend/server.py:123-138 | an equipment update leaves every field it does not set as it was |
| Server.EmptyUpdateOnlyStamps | backend/server.py:126-127 | an update with no field set only moves `updated_at` |
| Server.StatusUpdateOverwrites | backend/server.py:280-281 | a status update writes all three fields, `None` included, and the time |
| Server.UpdateStationInfo | backend/server.py:90-105 | the station's set fields and `updated_at` are written and the result returned; without a station, a 404 and no change |
| Server.UpdateEquipment | backend/server.py:123-138 | the item's set fields and `updated_at` are written and the result returned; an unknown id gives a 404 and no change |
| Server.DeleteEquipment | backend/server.py:140-148 | an unknown id gives a 404 and no change; otherwise exactly the first item with that id is removed, the others keep their order, and the reply is the success message |
| Server.DeleteRemovesTheMatch | backend/server.py:140-148 | after deleting an id held by one item, no item with that id remains |
| Server.GetNews | backend/server.py:183-192 | 422 exactly when limit is outside 1..50 or offset is negative; otherwise the total count and the page of the date-sorted news from `offset` on, of exactly min(limit, total - offset) items, serialized |
| Server.NewsListingOrdered | backend/server.py:187 | the news listed on a page are in descending date order |
| Server.NewsPagesTile | backend/server.py:183-192 | consecutive pages list consecutive runs of the sorted news |
| Server.NewsDefaults | backend/server.py:184 | without arguments, the first 10 news items are listed |
| Server.ApprovedEntries | backend/server.py:226-227 | the filter keeps every approved entry as often as it is stored and no other, so its length is `count_documents({"approved": True})` |
| Server.GetGuestbook | backend/server.py:223-232 | 422 exactly when limit is outside 1..100 or offset is negative; otherwise the approved count and the page of the date-sorted approved entries from `offset` on, of exactly min(limit, count - offset) items |
| Server.GuestbookApprovedOnly | backend/server.py:223-232 | every listed entry is a stored approved entry and still carries `approved` true; a stored unapproved entry is never listed; the total is at most the collection size |
| Server.GetContactRequests | backend/server.py:256-260 | 422 exactly when limit is outside 1..100; otherwise at most `limit` requests, newest first |
| Server.GetStationStatus | backend/server.py:263-275 | a 404 without a station; otherwise the stored status, `updated_at`, frequency and mode where present, and the defaults "offline", the current time, `None` and `None` where absent |
| Server.UpdateStationStatus | backend/server.py:277-297 | a 404 without a station; otherwise the reply is exactly the new status, the update time and the given frequency and mode |
| Server.StatusReadAfterUpdate | backend/server.py:263-297 | reading the status after an update returns what the update replied; the storage's millisecond cut is left out |
| Server.InsertAndFetch | backend/server.py:200-204 | inserting a document with a fresh id and finding it by that id gives the document back serialized |
| Server.CreateNews | backend/server.py:194-204 | a created news item is appended, dated now when no date is given, and returned serialized |
| Server.CreateGuestbookEntry | backend/server.py:234-241 | a created guestbook entry is appended approved and returned serialized |
| Server.NewEntryIsCounted | backend/server.py:223-241 | a created guestbook entry raises the listed total by one |
| Server.CreateContactRequest | backend/server.py:244-254 | the request is stored and the reply carries success, the fixed message and the new id |
| Server.ErrorBody | backend/server.py:86-87 | an error body holds only `detail`, so its `error` property reads back `undefined` |

## Where the code differs from its documented design

- `useData` is described as holding either data or an error. The code keeps the earlier data when a refetch fails (`useData.js:22-27`), so both can be set at once. A success also leaves any earlier error in place, because only the start of a fetch clears it. The model follows the code: `UseData.FailureKeepsEarlierData` shows the reachable state.
- The back end reports errors as `{"detail": ...}`. The front end reads `response.data.error`, which is therefore always `undefined`, so every failure falls back to the exception's message. `Server.ErrorBody` and `Api.EnvelopeErrorChoice` state the two halves.

## Left out

- I/O, `async`/`await`, the network and MongoDB itself: the collections are a map of sequences in the `Database` class; `find_one` returns the first match in insertion order.
- `datetime.utcnow()` and `uuid4()` become parameters (`now`, `Fresh` values); `Math.random()` in `detectLanguageByLocation` becomes a choice parameter.
- Listing.SortDesc: MongoDB leaves the order of equal dates unspecified. The model fixes one order, and `Listing.TiesShareDate` shows that only ties are affected. Dates that are not datetimes are treated like missing ones, which simplifies BSON's cross-type order.
- Server.GetStationStatus: pydantic's validation of the response model, which would reject a stored status that is not a status value, is not modelled; the stored value is returned as it is.
- Server.GetNews: a rejected query parameter gives status 422, but FastAPI's body carries a list of error objects under `detail`; the model's detail is a short text naming the parameter. The same holds for Server.GetGuestbook and Server.GetContactRequests.
- FastAPI's response-model step is not modelled: the endpoints below give the value their handler returns. FastAPI would validate that value against the declared `response_model` and serialize it by alias. So the HTTP body sends `id` back under its alias `_id` (models.py:25, 29-30) and drops every field the model does not declare (for example the `frequency` and `mode` that `update_station_status` writes are absent from `/station`). One line per endpoint:
- Server.GetStationInfo: returns `Serialized(doc)`, not the `StationInfo` response body (server.py:82).
- Server.UpdateStationInfo: returns `Serialized(updated)`, not the `StationInfo` response body (server.py:90).
- Server.UpdateEquipment: returns `Serialized(updated)`, not the `Equipment` response body (server.py:123).
- Server.GetNews: returns the serialized page, not the `NewsResponse` body (server.py:183).
- Server.CreateNews: returns the serialized document, not the `News` response body (server.py:194).
- Server.GetGuestbook: returns the serialized page, not the `GuestbookResponse` body (server.py:223).
- Server.CreateGuestbookEntry: returns the serialized document, not the `Guestbook` response body (server.py:234).
- Server.GetContactRequests: returns the serialized documents, not the `List[ContactRequest]` body (server.py:256).
- Database.Database.InsertOne: BSON keeps datetimes to the millisecond, so MongoDB stores a `utcnow()` value with its microseconds cut to a multiple of 1000; the model stores every value exactly.
- Database.Database.FindOneAndUpdate: the same millisecond cut applies to the `updated_at` the update writes; the model keeps the microseconds.
- Database.Database.InsertOne: MongoDB's unique index on `_id` makes `insert_one` raise `DuplicateKeyError` for an id already stored; the model appends a second document with that id. The create endpoints draw ids from `uuid4()`, which `Database.FreshIds` takes as never repeating.
- Server.UpdateStationStatus: the source replies with the stored `updated_at`, cut to milliseconds; the model's reply carries `now` with its microseconds.
- Server.StatusReadAfterUpdate: the time read back is the stored one, cut to milliseconds in the source; the model states `now` exactly.
- Server.InsertAndFetch: the document read back after `insert_one` has its datetimes cut to milliseconds in the source; the model returns the inserted document's values exactly.
- Server.CreateNews: the reply's `date`, `created_at` and `updated_at` keep their microseconds in the model, while the source's are cut to milliseconds.
- Server.CreateGuestbookEntry: the same millisecond cut of the reply's datetimes is not modelled.
- Api.PagedPath: `limit` and `offset` are integers; a JavaScript Number that is fractional, not finite, or of magnitude 10^21 or more prints differently (`2.5`, `1e+21`), and such values are not modelled.
- Decimal.IntToString: prints an integral Number below 10^21 in magnitude only; exponent form and fractions are not modelled, so `Api.PagedPathRoundTrip` covers only those Numbers.
- The endpoints that only list or insert without further logic are not modelled:
  - `get_equipment`, `get_qsl_cards`, `get_achievements`, `get_gallery`;
  - `create_equipment`, `create_qsl_card`, `create_achievement`, `create_gallery_item`.
- `ensure_indexes`, the logging set-up, CORS and the app start-up hooks are not modelled; they configure the server rather than compute.
- Presentational markup, toasts, `console` output and `formatDate` are not modelled.
- The axios interceptors, which only log, are not modelled.
- JavaScript objects are plain dictionaries: inherited prototype properties (`constructor`, `toString`) are not modelled, and nor are thrown values that are not `Error` objects.
