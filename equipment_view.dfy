/**
 * The equipment cards (`components/Equipment.js`): the icon and the background
 * chosen from an item's type, and the specification rows shown for it.
 */
module EquipmentView {
  import opened Wrappers
  import opened Icons
  import opened Js
  import opened Mock
  import opened LanguageContext

  /** The four classes the type switch distinguishes. */
  datatype Family = Blue | Green | Orange | Purple

  /** The reference classification: the three known types have their own family, everything else is purple. */
  function FamilyOf(kind: string): Family {
    if kind == "transceiver" then Blue
    else if kind == "antenna" then Green
    else if kind == "amplifier" then Orange
    else Purple
  }

  /** `getEquipmentIcon(type)`. */
  function EquipmentIcon(kind: string): IconView {
    match kind
    case "transceiver" => IconView(Radio, "w-6 h-6 text-blue-600")
    case "antenna" => IconView(Antenna, "w-6 h-6 text-green-600")
    case "amplifier" => IconView(Zap, "w-6 h-6 text-orange-600")
    case _ => IconView(Waves, "w-6 h-6 text-purple-600")
  }

  /** `getEquipmentBgColor(type)`. */
  function EquipmentBgColor(kind: string): string {
    match kind
    case "transceiver" => "from-blue-50 to-blue-100 border-blue-200"
    case "antenna" => "from-green-50 to-green-100 border-green-200"
    case "amplifier" => "from-orange-50 to-orange-100 border-orange-200"
    case _ => "from-purple-50 to-purple-100 border-purple-200"
  }

  /** The three known types and their looks. */
  lemma KnownTypes()
    ensures EquipmentIcon("transceiver").icon == Radio && EquipmentBgColor("transceiver") == "from-blue-50 to-blue-100 border-blue-200"
    ensures EquipmentIcon("antenna").icon == Antenna && EquipmentBgColor("antenna") == "from-green-50 to-green-100 border-green-200"
    ensures EquipmentIcon("amplifier").icon == Zap && EquipmentBgColor("amplifier") == "from-orange-50 to-orange-100 border-orange-200"
  {
  }

  /** Any other type, `'other'` included, gets the waves icon on purple. */
  lemma UnknownTypeIsDefault(kind: string)
    requires kind != "transceiver" && kind != "antenna" && kind != "amplifier"
    ensures EquipmentIcon(kind) == IconView(Waves, "w-6 h-6 text-purple-600")
    ensures EquipmentBgColor(kind) == "from-purple-50 to-purple-100 border-purple-200"
    ensures FamilyOf(kind) == Purple
  {
  }

  /** Both functions are total and split the types into the same four classes, those of `FamilyOf`. */
  lemma {:induction false} SamePartition(a: string, b: string)
    ensures EquipmentIcon(a).icon == EquipmentIcon(b).icon <==> FamilyOf(a) == FamilyOf(b)
    ensures EquipmentBgColor(a) == EquipmentBgColor(b) <==> FamilyOf(a) == FamilyOf(b)
  {
    var backgrounds := ["from-blue-50 to-blue-100 border-blue-200", "from-green-50 to-green-100 border-green-200",
      "from-orange-50 to-orange-100 border-orange-200", "from-purple-50 to-purple-100 border-purple-200"];
    assert backgrounds[0][5] == 'b' && backgrounds[1][5] == 'g' && backgrounds[2][5] == 'o' && backgrounds[3][5] == 'p';
  }

  /** Which specification row a caption heads; `Caption` gives its text. */
  datatype RowLabel = PowerLabel | GainLabel | BandsLabel

  datatype Row = Row(caption: RowLabel, value: string)

  /** `item.power && ...`: a field is shown when it is present and not empty. */
  predicate Shown(field: Option<string>) {
    field.Some? && field.value != ""
  }

  /** The item field a row label belongs to. */
  function FieldOf(item: EquipmentItem, caption: RowLabel): Option<string> {
    match caption
    case PowerLabel => item.power
    case GainLabel => item.gain
    case BandsLabel => item.bands
  }

  /** The position of a row kind in the markup: power first, then gain, then bands. */
  function Rank(caption: RowLabel): nat {
    match caption
    case PowerLabel => 0
    case GainLabel => 1
    case BandsLabel => 2
  }

  /**
   * The rows under an item's specs: power, gain and bands, in that order, each
   * exactly when truthy. Each kind appears at most once, so the rows are fixed
   * by which fields are shown.
   */
  function SpecRows(item: EquipmentItem): (rows: seq<Row>)
    ensures |rows| <= 3
    ensures Shown(item.power) ==> Row(PowerLabel, item.power.value) in rows
    ensures Shown(item.gain) ==> Row(GainLabel, item.gain.value) in rows
    ensures Shown(item.bands) ==> Row(BandsLabel, item.bands.value) in rows
    ensures forall r | r in rows :: r.value != "" && FieldOf(item, r.caption) == Some(r.value)
    ensures forall i, j | 0 <= i < j < |rows| :: Rank(rows[i].caption) < Rank(rows[j].caption)
  {
    (if Shown(item.power) then [Row(PowerLabel, item.power.value)] else [])
    + (if Shown(item.gain) then [Row(GainLabel, item.gain.value)] else [])
    + (if Shown(item.bands) then [Row(BandsLabel, item.bands.value)] else [])
  }

  /**
   * The caption a row shows before its `:` under the given translation table:
   * `t('equipment.power')`, the untranslated literal `Gain`, or `t('equipment.bands')`.
   */
  function Caption(translations: JsValue, caption: RowLabel): JsValue {
    match caption
    case PowerLabel => Translate(translations, "equipment.power")
    case GainLabel => Str("Gain")
    case BandsLabel => Translate(translations, "equipment.bands")
  }

  /**
   * In every locale the power and bands captions are that locale's texts, never
   * their key, while the gain caption is `Gain` whatever the locale.
   */
  lemma RowLabelsTranslated(c: nat)
    requires c < |Table|
    ensures Caption(TableFor(Table[c].0), PowerLabel) == Str(Table[c].1[3].1[3].1)
    ensures Caption(TableFor(Table[c].0), BandsLabel) == Str(Table[c].1[3].1[4].1)
    ensures forall d | 0 <= d < |Table| :: Caption(TableFor(Table[c].0), GainLabel) == Caption(TableFor(Table[d].0), GainLabel) == Str("Gain")
  {
    var section := Table[c].1[3];
    assert section.0 == "equipment" && section.1[3].0 == "power" && section.1[4].0 == "bands" by {
      if c == 0 {
        assert section == ("equipment", AzEquipment);
      } else if c == 1 {
        assert section == ("equipment", RuEquipment);
      } else {
        assert section == ("equipment", EnEquipment);
      }
    }
    assert section.0 + "." + section.1[3].0 == "equipment.power";
    assert section.0 + "." + section.1[4].0 == "equipment.bands";
    EveryEntryTranslates(c, 3, 3);
    EveryEntryTranslates(c, 3, 4);
  }

  lemma TransceiverRows()
    ensures SpecRows(StationEquipment[0]) == [Row(PowerLabel, "100W"), Row(BandsLabel, "160-10m, 2m, 70cm")]
  {}

  lemma AntennaRows()
    ensures SpecRows(StationEquipment[1]) == [Row(GainLabel, "6-8 dBi"), Row(BandsLabel, "20-10m")]
  {}

  lemma AmplifierRows()
    ensures SpecRows(StationEquipment[2]) == [Row(PowerLabel, "1000W"), Row(BandsLabel, "160-10m")]
  {}

  lemma NoDefaultIcons()
    ensures forall i | 0 <= i < |StationEquipment| :: EquipmentIcon(StationEquipment[i].kind).icon != Waves
  {}

  /** The sample transceiver and amplifier show power and bands; the antenna shows gain and bands. */
  lemma StationEquipmentRows()
    ensures SpecRows(StationEquipment[0]) == [Row(PowerLabel, "100W"), Row(BandsLabel, "160-10m, 2m, 70cm")]
    ensures SpecRows(StationEquipment[1]) == [Row(GainLabel, "6-8 dBi"), Row(BandsLabel, "20-10m")]
    ensures SpecRows(StationEquipment[2]) == [Row(PowerLabel, "1000W"), Row(BandsLabel, "160-10m")]
    ensures forall i | 0 <= i < |StationEquipment| :: EquipmentIcon(StationEquipment[i].kind).icon != Waves
  {
    TransceiverRows();
    AntennaRows();
    AmplifierRows();
    NoDefaultIcons();
  }
}
