/**
 * The artist directory: the specialty filter chips, the ranking badge (its
 * colour, its medal icon and the label it shows) and the layout of ids and
 * ranks in the list of all artists.
 */
module Artists {
  import opened Text
  import opened ListToggle

  /** The specialty chips offered by the filter panel. */
  const Specialties: seq<string> := ["法式", "手繪", "光療", "水晶", "漸層", "貼鑽", "幾何", "花卉"]

  /**
   * The specialty chip's click handler: the same flip as the gallery's style
   * chips, over the specialty options.
   */
  function ToggleSpecialty(selected: seq<string>, specialty: string): (r: seq<string>)
    ensures specialty in r <==> specialty !in selected
    ensures forall x :: x != specialty ==> (x in r <==> x in selected)
    ensures Selection(selected, Specialties) && specialty in Specialties ==> Selection(r, Specialties)
  {
    ToggleFlips(selected, specialty);
    if Selection(selected, Specialties) && specialty in Specialties then
      ToggleKeepsSelection(selected, specialty, Specialties);
      Toggle(selected, specialty)
    else
      Toggle(selected, specialty)
  }

  // ------------------------------------------------------------ rank badge

  const GoldGradient := "from-yellow-400 to-amber-500"
  const SilverGradient := "from-gray-300 to-gray-400"
  const BronzeGradient := "from-amber-200 to-stone-300"

  /** `getRankBadgeColor`: gold for the top three, silver up to tenth, bronze below. */
  function GetRankBadgeColor(rank: int): (r: string)
    ensures r == GoldGradient <==> rank <= 3
    ensures r == SilverGradient <==> 3 < rank <= 10
    ensures r == BronzeGradient <==> rank > 10
  {
    assert GoldGradient[5] != SilverGradient[5] && GoldGradient[5] != BronzeGradient[5];
    assert SilverGradient[5] != BronzeGradient[5];
    if rank <= 3 then GoldGradient
    else if rank <= 10 then SilverGradient
    else BronzeGradient
  }

  const Crown := "\U{1F451}"
  const SilverMedal := "\U{1F948}"
  const BronzeMedal := "\U{1F949}"
  const Star := "\U{2B50}"

  /** `getRankIcon`: a medal for ranks 1 to 3, the star for every other rank. */
  function GetRankIcon(rank: int): (r: string)
    ensures r == Star <==> !(1 <= rank <= 3)
    ensures |r| == 1
  {
    if rank == 1 then Crown
    else if rank == 2 then SilverMedal
    else if rank == 3 then BronzeMedal
    else Star
  }

  /** The three medals differ from each other. */
  lemma MedalsDistinct(a: int, b: int)
    requires 1 <= a <= 3 && 1 <= b <= 3 && a != b
    ensures GetRankIcon(a) != GetRankIcon(b)
  {
    assert GetRankIcon(a)[0] != GetRankIcon(b)[0];
  }

  /**
   * The text in the badge: `#` and the rank for ranks up to ten, otherwise the
   * rank icon, which is then always the star; a medal never reaches the badge.
   */
  function BadgeLabel(rank: int): (r: string)
    ensures rank > 10 ==> r == Star
    ensures rank <= 10 ==> |r| >= 2 && r[0] == '#'
    ensures 0 <= rank <= 10 ==> AllDigits(r[1..]) && ParseNat(r[1..]) == rank
    ensures 0 <= rank <= 10 ==> (|r| > 2 ==> r[1] != '0')
    ensures r != Crown && r != SilverMedal && r != BronzeMedal
  {
    if rank <= 10 then
      var r := "#" + IntToString(rank);
      assert r[1..] == IntToString(rank);
      r
    else GetRankIcon(rank)
  }

  // ------------------------------------------------------------ the roster

  /** The deterministic part of an artist record. */
  datatype Artist = Artist(id: int, rank: int, name: string, featured: bool)

  /** The six hand-written top artists. */
  const TopArtists: seq<Artist> := [
    Artist(1, 1, "雅雅美甲工作室", true),
    Artist(2, 2, "小美の指尖藝術", false),
    Artist(3, 3, "LUNA指甲沙龍", true),
    Artist(4, 4, "蜜桃美甲屋", false),
    Artist(5, 5, "星河美甲藝術", true),
    Artist(6, 6, "森林系美甲", false)
  ]

  /** The names the generator turns into the remaining fifteen artists. */
  const GeneratedNames: seq<string> := [
    "優雅指尖", "夢幻美甲", "時尚工坊", "精品沙龍", "典雅美學",
    "潮流指彩", "藝術美甲", "奢華工作室", "甜美指尖", "現代美學",
    "浪漫美甲", "風格工坊", "創意沙龍", "美學空間", "指尖藝廊"
  ]

  /** `generateMoreArtists`: the name at `index` becomes id and rank `7 + index`; the first three are featured. */
  function GenerateMoreArtists(names: seq<string>): (r: seq<Artist>)
    ensures |r| == |names|
    ensures forall i :: 0 <= i < |r| ==> r[i].name == names[i]
  {
    seq(|names|, index requires 0 <= index < |names| => Artist(7 + index, 7 + index, names[index], index < 3))
  }

  /** `[...topArtists, ...generateMoreArtists()]` */
  function AllArtists(): seq<Artist> {
    TopArtists + GenerateMoreArtists(GeneratedNames)
  }

  /**
   * The roster has 21 artists; the one at position `k` has id and rank `k + 1`,
   * so ids are distinct and ranks follow list order.
   */
  lemma AllArtistsLayout()
    ensures |AllArtists()| == 21
    ensures forall k :: 0 <= k < |AllArtists()| ==> AllArtists()[k].id == k + 1 && AllArtists()[k].rank == k + 1
    ensures forall i, j :: 0 <= i < j < |AllArtists()| ==> AllArtists()[i].id != AllArtists()[j].id
  {
    var all := AllArtists();
    forall k | 0 <= k < |all| ensures all[k].id == k + 1 && all[k].rank == k + 1 {
      if k >= 6 {
        assert all[k] == GenerateMoreArtists(GeneratedNames)[k - 6];
      }
    }
  }

  /** Every artist past the tenth shows the star; the top three get the gold badge. */
  lemma RosterBadges()
    ensures forall k :: 10 <= k < |AllArtists()| ==> BadgeLabel(AllArtists()[k].rank) == Star
    ensures forall k :: 0 <= k < 3 ==> GetRankBadgeColor(AllArtists()[k].rank) == GoldGradient
  {
    AllArtistsLayout();
  }
}
