/** The news cards (`components/News.js`): icon and badge colours chosen from a post's category. */
module NewsView {
  import opened Icons

  /** The three classes the category switch distinguishes. */
  datatype Kind = EquipmentNews | ContestNews | OtherNews

  /** The reference classification: `equipment` and `contests` are special, everything else is plain news. */
  function KindOf(category: string): Kind {
    if category == "equipment" then EquipmentNews
    else if category == "contests" then ContestNews
    else OtherNews
  }

  /** `getCategoryIcon(category)`. */
  function CategoryIcon(category: string): IconView {
    match category
    case "equipment" => IconView(Radio, "w-5 h-5")
    case "contests" => IconView(Trophy, "w-5 h-5")
    case _ => IconView(Newspaper, "w-5 h-5")
  }

  /** `getCategoryColor(category)`. */
  function CategoryColor(category: string): string {
    match category
    case "equipment" => "bg-blue-100 text-blue-800 border-blue-200"
    case "contests" => "bg-green-100 text-green-800 border-green-200"
    case _ => "bg-gray-100 text-gray-800 border-gray-200"
  }

  /** The two special categories and their looks. */
  lemma KnownCategories()
    ensures CategoryIcon("equipment").icon == Radio && CategoryColor("equipment") == "bg-blue-100 text-blue-800 border-blue-200"
    ensures CategoryIcon("contests").icon == Trophy && CategoryColor("contests") == "bg-green-100 text-green-800 border-green-200"
  {
  }

  /** Any other category, `'general'` included, gets the newspaper icon in gray. */
  lemma OtherCategoryIsDefault(category: string)
    requires category != "equipment" && category != "contests"
    ensures CategoryIcon(category) == IconView(Newspaper, "w-5 h-5")
    ensures CategoryColor(category) == "bg-gray-100 text-gray-800 border-gray-200"
    ensures KindOf(category) == OtherNews
  {
  }

  /** Both functions are total, always draw at the same size, and split the categories into the classes of `KindOf`. */
  lemma {:induction false} SamePartition(a: string, b: string)
    ensures CategoryIcon(a).className == "w-5 h-5"
    ensures CategoryIcon(a).icon == CategoryIcon(b).icon <==> KindOf(a) == KindOf(b)
    ensures CategoryColor(a) == CategoryColor(b) <==> KindOf(a) == KindOf(b)
  {
    var colors := ["bg-blue-100 text-blue-800 border-blue-200", "bg-green-100 text-green-800 border-green-200",
      "bg-gray-100 text-gray-800 border-gray-200"];
    assert colors[0][3] == 'b' && colors[1][3] == 'g' && colors[2][3] == 'g' && colors[1][4] == 'r' && colors[2][4] == 'r';
    assert colors[1][5] == 'e' && colors[2][5] == 'a';
  }
}
