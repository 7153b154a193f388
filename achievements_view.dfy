/** The achievement cards (`components/Achievements.js`): icon and colours cycle with the card's index. */
module AchievementsView {
  import opened Icons

  const AchievementIcons: seq<Icon> := [Trophy, Award, Medal, Star]

  const AchievementColors: seq<string> := [
    "text-yellow-600 bg-yellow-50 border-yellow-200",
    "text-blue-600 bg-blue-50 border-blue-200",
    "text-green-600 bg-green-50 border-green-200",
    "text-purple-600 bg-purple-50 border-purple-200"
  ]

  /** `getAchievementIcon(index)`: `icons[index % icons.length]`, drawn at `w-6 h-6`. */
  function AchievementIcon(index: nat): (v: IconView)
    ensures v.icon in AchievementIcons
    ensures v.icon == AchievementIcons[index % 4] && v.className == "w-6 h-6"
  {
    IconView(AchievementIcons[index % |AchievementIcons|], "w-6 h-6")
  }

  /** `getAchievementColor(index)`: `colors[index % colors.length]`. */
  function AchievementColor(index: nat): (c: string)
    ensures c in AchievementColors
    ensures c == AchievementColors[index % 4]
  {
    AchievementColors[index % |AchievementColors|]
  }

  /** The first card is a yellow trophy. */
  lemma FirstCard()
    ensures AchievementIcon(0).icon == Trophy
    ensures AchievementColor(0) == "text-yellow-600 bg-yellow-50 border-yellow-200"
  {
  }

  /** Icon and colour repeat every four cards. */
  lemma Periodic(index: nat)
    ensures AchievementIcon(index + 4) == AchievementIcon(index)
    ensures AchievementColor(index + 4) == AchievementColor(index)
  {
    assert (index + 4) % 4 == index % 4;
  }

  /** Within a period each index has its own icon and colour, and the two move together. */
  lemma {:induction false} IconAndColorInStep(i: nat, j: nat)
    ensures AchievementIcon(i) == AchievementIcon(j) <==> i % 4 == j % 4
    ensures AchievementColor(i) == AchievementColor(j) <==> i % 4 == j % 4
  {
    var colors := AchievementColors;
    assert colors[0][5] == 'y' && colors[1][5] == 'b' && colors[2][5] == 'g' && colors[3][5] == 'p';
  }

  const CardTail := " border-2 hover:shadow-xl transition-all duration-300 transform hover:scale-105"
  const IconBoxHead := "p-2 rounded-lg "

  /** The card's class list. */
  function CardClass(index: nat): string {
    AchievementColor(index) + CardTail
  }

  /** The class list of the box around the card's icon. */
  function IconBoxClass(index: nat): string {
    IconBoxHead + AchievementColor(index)
  }

  /** A card and its icon box carry the colours of the same index. */
  lemma CardMatchesIconBox(index: nat)
    ensures CardClass(index)[..|AchievementColor(index)|] == AchievementColor(index)
    ensures IconBoxClass(index)[|IconBoxHead|..] == AchievementColor(index)
  {
  }
}
