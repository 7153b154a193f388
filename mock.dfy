/**
 * The frontend's mock data: the three-locale translation table
 * `mockTranslations`, the sample equipment list and the locale detector.
 *
 * Each locale and each section is an object literal; it is written here as
 * its list of properties in source order and denotes `ObjectOf` of that list.
 */
module Mock {
  import opened Wrappers
  import opened Js

  /** One section of a locale: its keys and their texts, in source order. */
  type Section = seq<(string, string)>

  /** One locale: its sections, in source order. */
  type Locale = seq<(string, Section)>

  const AzNav: Section := [
    ("home", "Ana Səhifə"),
    ("about", "Haqqında"),
    ("equipment", "Avadanlıq"),
    ("qsl", "QSL Kartları"),
    ("contacts", "Əlaqə"),
    ("gallery", "Qalereya"),
    ("achievements", "Nailiyyətlər"),
    ("news", "Xəbərlər"),
    ("technical", "Texniki Məlumat"),
    ("guestbook", "Qonaq Kitabı")
  ]

  const AzHero: Section := [
    ("title", "4K6AG"),
    ("subtitle", "Azərbaycan Radioamatör Stansiyası"),
    ("description", "Qədim Azərbaycan torpağından dünyaya səs verən radioamatör stansiyası"),
    ("status", "Stansiya Statusu"),
    ("online", "Efirdə"),
    ("offline", "Efirdən Kənar")
  ]

  const AzAbout: Section := [
    ("title", "Stansiya Haqqında"),
    ("description", "4K6AG radioamatör stansiyası Azərbaycanda yerləşir və dünya radioamatörləri ilə əlaqə qurur."),
    ("operator", "Operator"),
    ("location", "Yerləşdiyim yer"),
    ("grid", "Grid Kvadratı"),
    ("license", "Lisenziya Klass")
  ]

  const AzEquipment: Section := [
    ("title", "Avadanlıqlarımız"),
    ("transceiver", "Transiver"),
    ("antenna", "Antenna"),
    ("power", "Güc"),
    ("bands", "Diapazonlar")
  ]

  const AzQsl: Section := [
    ("title", "QSL Kartları"),
    ("request", "QSL Sorğusu"),
    ("gallery", "QSL Qalereya"),
    ("info", "QSL məlumatları və təsdiq prosesi")
  ]

  const AzContact: Section := [
    ("title", "Əlaqə"),
    ("name", "Ad"),
    ("email", "E-poçt"),
    ("callsign", "Çağırış işarəsi"),
    ("message", "Mesaj"),
    ("submit", "Göndər"),
    ("qslRequest", "QSL Sorğusu")
  ]

  const AzFooter: Section := [
    ("copyright", "Müəllif hüquqları © 2025 4K6AG. Bütün hüquqlar qorunur."),
    ("contact", "Əlaqə: 4k6ag@example.com")
  ]

  /** The `az` locale (mock.js:4-66). */
  const Az: Locale := [
    ("nav", AzNav),
    ("hero", AzHero),
    ("about", AzAbout),
    ("equipment", AzEquipment),
    ("qsl", AzQsl),
    ("contact", AzContact),
    ("footer", AzFooter)
  ]

  const RuNav: Section := [
    ("home", "Главная"),
    ("about", "О станции"),
    ("equipment", "Оборудование"),
    ("qsl", "QSL Карточки"),
    ("contacts", "Контакты"),
    ("gallery", "Галерея"),
    ("achievements", "Достижения"),
    ("news", "Новости"),
    ("technical", "Техническая информация"),
    ("guestbook", "Гостевая книга")
  ]

  const RuHero: Section := [
    ("title", "4K6AG"),
    ("subtitle", "Азербайджанская радиолюбительская станция"),
    ("description", "Радиолюбительская станция, вещающая в мир с древней азербайджанской земли"),
    ("status", "Статус станции"),
    ("online", "В эфире"),
    ("offline", "Не в эфире")
  ]

  const RuAbout: Section := [
    ("title", "О станции"),
    ("description", "Радиолюбительская станция 4K6AG расположена в Азербайджане и поддерживает связь с радиолюбителями всего мира."),
    ("operator", "Оператор"),
    ("location", "Местоположение"),
    ("grid", "Grid локатор"),
    ("license", "Класс лицензии")
  ]

  const RuEquipment: Section := [
    ("title", "Наше оборудование"),
    ("transceiver", "Трансивер"),
    ("antenna", "Антенна"),
    ("power", "Мощность"),
    ("bands", "Диапазоны")
  ]

  const RuQsl: Section := [
    ("title", "QSL Карточки"),
    ("request", "Запрос QSL"),
    ("gallery", "Галерея QSL"),
    ("info", "Информация о QSL и процесс подтверждения")
  ]

  const RuContact: Section := [
    ("title", "Контакты"),
    ("name", "Имя"),
    ("email", "E-mail"),
    ("callsign", "Позывной"),
    ("message", "Сообщение"),
    ("submit", "Отправить"),
    ("qslRequest", "Запрос QSL")
  ]

  const RuFooter: Section := [
    ("copyright", "© 2025 4K6AG. Все права защищены."),
    ("contact", "Контакт: 4k6ag@example.com")
  ]

  /** The `ru` locale (mock.js:67-129). */
  const Ru: Locale := [
    ("nav", RuNav),
    ("hero", RuHero),
    ("about", RuAbout),
    ("equipment", RuEquipment),
    ("qsl", RuQsl),
    ("contact", RuContact),
    ("footer", RuFooter)
  ]

  const EnNav: Section := [
    ("home", "Home"),
    ("about", "About"),
    ("equipment", "Equipment"),
    ("qsl", "QSL Cards"),
    ("contacts", "Contacts"),
    ("gallery", "Gallery"),
    ("achievements", "Achievements"),
    ("news", "News"),
    ("technical", "Technical Info"),
    ("guestbook", "Guestbook")
  ]

  const EnHero: Section := [
    ("title", "4K6AG"),
    ("subtitle", "Azerbaijan Amateur Radio Station"),
    ("description", "Amateur radio station broadcasting to the world from ancient Azerbaijan land"),
    ("status", "Station Status"),
    ("online", "On Air"),
    ("offline", "Off Air")
  ]

  const EnAbout: Section := [
    ("title", "About Station"),
    ("description", "Amateur radio station 4K6AG is located in Azerbaijan and maintains contact with amateur radio operators worldwide."),
    ("operator", "Operator"),
    ("location", "Location"),
    ("grid", "Grid Square"),
    ("license", "License Class")
  ]

  const EnEquipment: Section := [
    ("title", "Our Equipment"),
    ("transceiver", "Transceiver"),
    ("antenna", "Antenna"),
    ("power", "Power"),
    ("bands", "Bands")
  ]

  const EnQsl: Section := [
    ("title", "QSL Cards"),
    ("request", "QSL Request"),
    ("gallery", "QSL Gallery"),
    ("info", "QSL information and confirmation process")
  ]

  const EnContact: Section := [
    ("title", "Contacts"),
    ("name", "Name"),
    ("email", "Email"),
    ("callsign", "Callsign"),
    ("message", "Message"),
    ("submit", "Send"),
    ("qslRequest", "QSL Request")
  ]

  const EnFooter: Section := [
    ("copyright", "© 2025 4K6AG. All rights reserved."),
    ("contact", "Contact: 4k6ag@example.com")
  ]

  /** The `en` locale (mock.js:130-191). */
  const En: Locale := [
    ("nav", EnNav),
    ("hero", EnHero),
    ("about", EnAbout),
    ("equipment", EnEquipment),
    ("qsl", EnQsl),
    ("contact", EnContact),
    ("footer", EnFooter)
  ]

  /** `mockTranslations` as written: `az`, then `ru`, then `en`. */
  const Table: seq<(string, Locale)> := [("az", Az), ("ru", Ru), ("en", En)]

  const LocaleCodes: seq<string> := ["az", "ru", "en"]

  const SectionNames: seq<string> := ["nav", "hero", "about", "equipment", "qsl", "contact", "footer"]

  function SectionProps(s: Section): seq<(string, JsValue)> {
    seq(|s|, i requires 0 <= i < |s| => (s[i].0, Str(s[i].1)))
  }

  function LocaleProps(l: Locale): seq<(string, JsValue)> {
    seq(|l|, j requires 0 <= j < |l| => (l[j].0, SectionValue(l[j].1)))
  }

  function TableProps(): seq<(string, JsValue)> {
    seq(|Table|, c requires 0 <= c < |Table| => (Table[c].0, LocaleValue(Table[c].1)))
  }

  /** The object a section literal denotes. */
  function SectionValue(s: Section): JsValue {
    Obj(ObjectOf(SectionProps(s)))
  }

  /** The object a locale literal denotes. */
  function LocaleValue(l: Locale): JsValue {
    Obj(ObjectOf(LocaleProps(l)))
  }

  /** The object `mockTranslations`. */
  function MockTranslations(): JsValue {
    Obj(ObjectOf(TableProps()))
  }

  /** `mockTranslations[code]`: a locale's table, or `undefined` for an unknown code. */
  function TableFor(code: string): JsValue {
    Property(MockTranslations(), code)
  }

  /** A section's keys are distinct and free of dots, and none of its texts is empty. */
  predicate WellFormedSection(s: Section) {
    DistinctKeys(s) && forall i | 0 <= i < |s| :: '.' !in s[i].0 && s[i].1 != ""
  }

  /** A locale's section names are distinct and free of dots, and each section is well formed. */
  predicate WellFormedLocale(l: Locale) {
    DistinctKeys(l) && forall j | 0 <= j < |l| :: '.' !in l[j].0 && WellFormedSection(l[j].1)
  }

  /** A section with the keys of a well-formed section and no empty text is well formed too. */
  lemma SameKeysWellFormed(a: Section, b: Section)
    requires WellFormedSection(a) && KeyList(a) == KeyList(b)
    requires forall i | 0 <= i < |b| :: b[i].1 != ""
    ensures WellFormedSection(b)
  {
    forall i | 0 <= i < |b| ensures b[i].0 == a[i].0 {
      assert KeyList(a)[i] == KeyList(b)[i];
    }
  }

  lemma AzNavWellFormed() ensures WellFormedSection(AzNav) {
    EnNavWellFormed();
    assert KeyList(EnNav) == KeyList(AzNav);
    SameKeysWellFormed(EnNav, AzNav);
  }
  lemma RuNavWellFormed() ensures WellFormedSection(RuNav) {
    EnNavWellFormed();
    assert KeyList(EnNav) == KeyList(RuNav);
    SameKeysWellFormed(EnNav, RuNav);
  }
  lemma EnNavWellFormed() ensures WellFormedSection(EnNav) {
    assert DistinctKeys(EnNav);
    assert forall i | 0 <= i < |EnNav| :: '.' !in EnNav[i].0;
  }

  lemma NavAgrees()
    ensures WellFormedSection(AzNav) && WellFormedSection(RuNav) && WellFormedSection(EnNav)
    ensures KeyList(AzNav) == KeyList(EnNav) && KeyList(RuNav) == KeyList(EnNav)
  {
    AzNavWellFormed();
    RuNavWellFormed();
    EnNavWellFormed();
  }

  lemma AzHeroWellFormed() ensures WellFormedSection(AzHero) {
    EnHeroWellFormed();
    assert KeyList(EnHero) == KeyList(AzHero);
    SameKeysWellFormed(EnHero, AzHero);
  }
  lemma RuHeroWellFormed() ensures WellFormedSection(RuHero) {
    EnHeroWellFormed();
    assert KeyList(EnHero) == KeyList(RuHero);
    SameKeysWellFormed(EnHero, RuHero);
  }
  lemma EnHeroWellFormed() ensures WellFormedSection(EnHero) {
    assert DistinctKeys(EnHero);
    assert forall i | 0 <= i < |EnHero| :: '.' !in EnHero[i].0;
  }

  lemma HeroAgrees()
    ensures WellFormedSection(AzHero) && WellFormedSection(RuHero) && WellFormedSection(EnHero)
    ensures KeyList(AzHero) == KeyList(EnHero) && KeyList(RuHero) == KeyList(EnHero)
  {
    AzHeroWellFormed();
    RuHeroWellFormed();
    EnHeroWellFormed();
  }

  lemma AzAboutWellFormed() ensures WellFormedSection(AzAbout) {
    EnAboutWellFormed();
    assert KeyList(EnAbout) == KeyList(AzAbout);
    SameKeysWellFormed(EnAbout, AzAbout);
  }
  lemma RuAboutWellFormed() ensures WellFormedSection(RuAbout) {
    EnAboutWellFormed();
    assert KeyList(EnAbout) == KeyList(RuAbout);
    SameKeysWellFormed(EnAbout, RuAbout);
  }
  lemma EnAboutWellFormed() ensures WellFormedSection(EnAbout) {
    assert DistinctKeys(EnAbout);
    assert forall i | 0 <= i < |EnAbout| :: '.' !in EnAbout[i].0;
  }

  lemma AboutAgrees()
    ensures WellFormedSection(AzAbout) && WellFormedSection(RuAbout) && WellFormedSection(EnAbout)
    ensures KeyList(AzAbout) == KeyList(EnAbout) && KeyList(RuAbout) == KeyList(EnAbout)
  {
    AzAboutWellFormed();
    RuAboutWellFormed();
    EnAboutWellFormed();
  }

  lemma AzEquipmentWellFormed() ensures WellFormedSection(AzEquipment) {
    EnEquipmentWellFormed();
    assert KeyList(EnEquipment) == KeyList(AzEquipment);
    SameKeysWellFormed(EnEquipment, AzEquipment);
  }
  lemma RuEquipmentWellFormed() ensures WellFormedSection(RuEquipment) {
    EnEquipmentWellFormed();
    assert KeyList(EnEquipment) == KeyList(RuEquipment);
    SameKeysWellFormed(EnEquipment, RuEquipment);
  }
  lemma EnEquipmentWellFormed() ensures WellFormedSection(EnEquipment) {
    assert DistinctKeys(EnEquipment);
    assert forall i | 0 <= i < |EnEquipment| :: '.' !in EnEquipment[i].0;
  }

  lemma EquipmentAgrees()
    ensures WellFormedSection(AzEquipment) && WellFormedSection(RuEquipment) && WellFormedSection(EnEquipment)
    ensures KeyList(AzEquipment) == KeyList(EnEquipment) && KeyList(RuEquipment) == KeyList(EnEquipment)
  {
    AzEquipmentWellFormed();
    RuEquipmentWellFormed();
    EnEquipmentWellFormed();
  }

  lemma AzQslWellFormed() ensures WellFormedSection(AzQsl) {
    EnQslWellFormed();
    assert KeyList(EnQsl) == KeyList(AzQsl);
    SameKeysWellFormed(EnQsl, AzQsl);
  }
  lemma RuQslWellFormed() ensures WellFormedSection(RuQsl) {
    EnQslWellFormed();
    assert KeyList(EnQsl) == KeyList(RuQsl);
    SameKeysWellFormed(EnQsl, RuQsl);
  }
  lemma EnQslWellFormed() ensures WellFormedSection(EnQsl) {
    assert DistinctKeys(EnQsl);
    assert forall i | 0 <= i < |EnQsl| :: '.' !in EnQsl[i].0;
  }

  lemma QslAgrees()
    ensures WellFormedSection(AzQsl) && WellFormedSection(RuQsl) && WellFormedSection(EnQsl)
    ensures KeyList(AzQsl) == KeyList(EnQsl) && KeyList(RuQsl) == KeyList(EnQsl)
  {
    AzQslWellFormed();
    RuQslWellFormed();
    EnQslWellFormed();
  }

  lemma AzContactWellFormed() ensures WellFormedSection(AzContact) {
    EnContactWellFormed();
    assert KeyList(EnContact) == KeyList(AzContact);
    SameKeysWellFormed(EnContact, AzContact);
  }
  lemma RuContactWellFormed() ensures WellFormedSection(RuContact) {
    EnContactWellFormed();
    assert KeyList(EnContact) == KeyList(RuContact);
    SameKeysWellFormed(EnContact, RuContact);
  }
  lemma EnContactWellFormed() ensures WellFormedSection(EnContact) {
    assert DistinctKeys(EnContact);
    assert forall i | 0 <= i < |EnContact| :: '.' !in EnContact[i].0;
  }

  lemma ContactAgrees()
    ensures WellFormedSection(AzContact) && WellFormedSection(RuContact) && WellFormedSection(EnContact)
    ensures KeyList(AzContact) == KeyList(EnContact) && KeyList(RuContact) == KeyList(EnContact)
  {
    AzContactWellFormed();
    RuContactWellFormed();
    EnContactWellFormed();
  }

  lemma AzFooterWellFormed() ensures WellFormedSection(AzFooter) {
    EnFooterWellFormed();
    assert KeyList(EnFooter) == KeyList(AzFooter);
    SameKeysWellFormed(EnFooter, AzFooter);
  }
  lemma RuFooterWellFormed() ensures WellFormedSection(RuFooter) {
    EnFooterWellFormed();
    assert KeyList(EnFooter) == KeyList(RuFooter);
    SameKeysWellFormed(EnFooter, RuFooter);
  }
  lemma EnFooterWellFormed() ensures WellFormedSection(EnFooter) {
    assert DistinctKeys(EnFooter);
    assert forall i | 0 <= i < |EnFooter| :: '.' !in EnFooter[i].0;
  }

  lemma FooterAgrees()
    ensures WellFormedSection(AzFooter) && WellFormedSection(RuFooter) && WellFormedSection(EnFooter)
    ensures KeyList(AzFooter) == KeyList(EnFooter) && KeyList(RuFooter) == KeyList(EnFooter)
  {
    AzFooterWellFormed();
    RuFooterWellFormed();
    EnFooterWellFormed();
  }

  /** The Azerbaijani locale's section names are distinct and dot-free, and each section is well formed. */
  lemma AzWellFormed()
    ensures WellFormedLocale(Az)
  {
    AzNavWellFormed();
    AzHeroWellFormed();
    AzAboutWellFormed();
    AzEquipmentWellFormed();
    AzQslWellFormed();
    AzContactWellFormed();
    AzFooterWellFormed();
    assert DistinctKeys(Az);
  }

  /** The Azerbaijani locale is well formed and has the English sections and keys. */
  lemma AzComplete()
    ensures WellFormedLocale(Az) && KeyList(Az) == SectionNames
    ensures forall j | 0 <= j < |SectionNames| :: KeyList(Az[j].1) == KeyList(En[j].1)
  {
    AzWellFormed();
    NavAgrees();
    HeroAgrees();
    AboutAgrees();
    EquipmentAgrees();
    QslAgrees();
    ContactAgrees();
    FooterAgrees();
  }

  /** The Russian locale's section names are distinct and dot-free, and each section is well formed. */
  lemma RuWellFormed()
    ensures WellFormedLocale(Ru)
  {
    RuNavWellFormed();
    RuHeroWellFormed();
    RuAboutWellFormed();
    RuEquipmentWellFormed();
    RuQslWellFormed();
    RuContactWellFormed();
    RuFooterWellFormed();
    assert DistinctKeys(Ru);
  }

  /** The Russian locale is well formed and has the English sections and keys. */
  lemma RuComplete()
    ensures WellFormedLocale(Ru) && KeyList(Ru) == SectionNames
    ensures forall j | 0 <= j < |SectionNames| :: KeyList(Ru[j].1) == KeyList(En[j].1)
  {
    RuWellFormed();
    NavAgrees();
    HeroAgrees();
    AboutAgrees();
    EquipmentAgrees();
    QslAgrees();
    ContactAgrees();
    FooterAgrees();
  }

  /** The English locale's section names are distinct and dot-free, and each section is well formed. */
  lemma EnWellFormed()
    ensures WellFormedLocale(En)
  {
    EnNavWellFormed();
    EnHeroWellFormed();
    EnAboutWellFormed();
    EnEquipmentWellFormed();
    EnQslWellFormed();
    EnContactWellFormed();
    EnFooterWellFormed();
    assert DistinctKeys(En);
  }

  /** The English locale is well formed and lists the section names. */
  lemma EnComplete()
    ensures WellFormedLocale(En) && KeyList(En) == SectionNames
  {
    EnWellFormed();
    NavAgrees();
    HeroAgrees();
    AboutAgrees();
    EquipmentAgrees();
    QslAgrees();
    ContactAgrees();
    FooterAgrees();
  }

  /**
   * The table is complete: the three locales list the same sections in the same
   * order, each section has the same keys in every locale, all keys are dot-free
   * and distinct, and no text is empty.
   */
  lemma TableComplete()
    ensures DistinctKeys(Table) && KeyList(Table) == LocaleCodes
    ensures forall c | 0 <= c < |Table| :: WellFormedLocale(Table[c].1) && KeyList(Table[c].1) == SectionNames
    ensures forall c, j | 0 <= c < |Table| && 0 <= j < |SectionNames| :: KeyList(Table[c].1[j].1) == KeyList(En[j].1)
  {
    AzComplete();
    RuComplete();
    EnComplete();
    assert Table[0].1 == Az && Table[1].1 == Ru && Table[2].1 == En;
  }

  /** In a well-formed section literal, each key reads back the text written beside it. */
  lemma SectionLookup(s: Section, i: nat)
    requires WellFormedSection(s) && i < |s|
    ensures Property(SectionValue(s), s[i].0) == Str(s[i].1)
  {
    assert DistinctKeys(SectionProps(s)) by {
      forall a, b | 0 <= a < b < |s| ensures SectionProps(s)[a].0 != SectionProps(s)[b].0 {
        assert s[a].0 != s[b].0;
      }
    }
    ObjectOfLookup(SectionProps(s), i);
  }

  /** A key a section literal does not list reads back `undefined`. */
  lemma SectionMiss(s: Section, key: string)
    requires key !in KeyList(s)
    ensures key !in SectionValue(s).fields && Property(SectionValue(s), key) == Undefined
  {
    ObjectOfKeys(SectionProps(s), key);
    assert KeyList(SectionProps(s)) == KeyList(s);
  }

  /** In a well-formed locale literal, each section name reads back that section's object. */
  lemma LocaleLookup(l: Locale, j: nat)
    requires WellFormedLocale(l) && j < |l|
    ensures Property(LocaleValue(l), l[j].0) == SectionValue(l[j].1)
  {
    assert DistinctKeys(LocaleProps(l)) by {
      forall a, b | 0 <= a < b < |l| ensures LocaleProps(l)[a].0 != LocaleProps(l)[b].0 {
        assert l[a].0 != l[b].0;
      }
    }
    ObjectOfLookup(LocaleProps(l), j);
  }

  /** A name a locale literal does not list reads back `undefined`. */
  lemma LocaleMiss(l: Locale, key: string)
    requires key !in KeyList(l)
    ensures key !in LocaleValue(l).fields && Property(LocaleValue(l), key) == Undefined
  {
    ObjectOfKeys(LocaleProps(l), key);
    assert KeyList(LocaleProps(l)) == KeyList(l);
  }

  /** `mockTranslations[code]` is the locale written under `code`. */
  lemma TableForLocale(c: nat)
    requires c < |Table|
    ensures TableFor(Table[c].0) == LocaleValue(Table[c].1)
  {
    assert DistinctKeys(TableProps()) by {
      forall a, b | 0 <= a < b < |Table| ensures TableProps()[a].0 != TableProps()[b].0 {
        assert Table[a].0 != Table[b].0;
      }
    }
    ObjectOfLookup(TableProps(), c);
  }

  /** `mockTranslations[code]` is an object exactly for the three locale codes, and `undefined` otherwise. */
  lemma TableDomain(code: string)
    ensures TableFor(code).Obj? <==> code in LocaleCodes
    ensures code !in LocaleCodes ==> TableFor(code) == Undefined
  {
    TableComplete();
    ObjectOfKeys(TableProps(), code);
    assert KeyList(TableProps()) == LocaleCodes;
    if code in LocaleCodes {
      var c :| 0 <= c < |Table| && Table[c].0 == code;
      TableForLocale(c);
    }
  }

  /** Every locale labels the station with the callsign and has a label for both station statuses. */
  lemma HeroLabels(code: string)
    requires code in LocaleCodes
    ensures TableFor(code).Obj?
    ensures var hero := Property(TableFor(code), "hero");
      hero.Obj? && Property(hero, "title") == Str("4K6AG")
      && Truthy(Property(hero, "online")) && Truthy(Property(hero, "offline"))
  {
    var c := if code == "az" then 0 else if code == "ru" then 1 else 2;
    assert Table[c].0 == code;
    TableForLocale(c);
    if c == 0 {
      AzWellFormed();
      HeroOf(Az);
    } else if c == 1 {
      RuWellFormed();
      HeroOf(Ru);
    } else {
      EnWellFormed();
      HeroOf(En);
    }
  }

  /** The hero labels of any well-formed locale whose second section is a hero with the callsign first. */
  lemma HeroOf(l: Locale)
    requires WellFormedLocale(l) && |l| > 1 && l[1].0 == "hero"
    requires |l[1].1| > 5 && l[1].1[0] == ("title", "4K6AG") && l[1].1[4].0 == "online" && l[1].1[5].0 == "offline"
    ensures var hero := Property(LocaleValue(l), "hero");
      hero.Obj? && Property(hero, "title") == Str("4K6AG")
      && Truthy(Property(hero, "online")) && Truthy(Property(hero, "offline"))
  {
    LocaleLookup(l, 1);
    SectionLookup(l[1].1, 0);
    SectionLookup(l[1].1, 4);
    SectionLookup(l[1].1, 5);
  }

  /**
   * `detectLanguageByLocation`: picks `languages[choice]` from `['en', 'ru', 'az']`,
   * where `choice` stands for `Math.floor(Math.random() * 3)`. Every pick is a
   * locale of the table.
   */
  function DetectLanguageByLocation(choice: nat): (code: string)
    requires choice < 3
    ensures code in LocaleCodes
  {
    ["en", "ru", "az"][choice]
  }

  /** Every locale of the table can be detected. */
  lemma DetectionCoversLocales(code: string)
    requires code in LocaleCodes
    ensures exists choice: nat | choice < 3 :: DetectLanguageByLocation(choice) == code
  {
    var choice: nat := if code == "en" then 0 else if code == "ru" then 1 else 2;
    assert DetectLanguageByLocation(choice) == code;
  }

  /** One entry of `mockStationData.equipment`; absent properties are `None`. */
  datatype EquipmentItem = EquipmentItem(
    id: nat, kind: string, name: string, specs: string,
    power: Option<string>, gain: Option<string>, bands: Option<string>)

  /** `mockStationData.equipment` (mock.js:202-227). */
  const StationEquipment: seq<EquipmentItem> := [
    EquipmentItem(1, "transceiver", "Yaesu FT-991A", "HF/VHF/UHF All Mode Transceiver",
      Some("100W"), None, Some("160-10m, 2m, 70cm")),
    EquipmentItem(2, "antenna", "Hexbeam Antenna", "6-Band HF Beam Antenna",
      None, Some("6-8 dBi"), Some("20-10m")),
    EquipmentItem(3, "amplifier", "ACOM 1000", "HF Linear Amplifier",
      Some("1000W"), None, Some("160-10m"))
  ]

  /** Every sample item is a transceiver, an antenna or an amplifier, and ids are distinct. */
  lemma StationEquipmentKinds()
    ensures forall i | 0 <= i < |StationEquipment| ::
      StationEquipment[i].kind in ["transceiver", "antenna", "amplifier"]
    ensures forall i, j | 0 <= i < j < |StationEquipment| :: StationEquipment[i].id != StationEquipment[j].id
  {}
}
