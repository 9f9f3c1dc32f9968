/**
 * The gallery's filter logic: the style chips, which share the toggle rule of
 * `ListToggle`, and the colour shown for a work's difficulty.
 */
module Gallery {
  import opened ListToggle

  /** The style chips offered by the filter panel. */
  const StyleOptions: seq<string> := ["法式", "漸層", "光療", "水晶", "手繪", "貼鑽", "霧面", "珠光", "幾何", "花卉"]

  /**
   * `toggleStyle`: the clicked style's membership flips, every other style
   * keeps its membership, and a well-formed selection of offered styles stays one.
   */
  function ToggleStyle(selected: seq<string>, style: string): (r: seq<string>)
    ensures style in r <==> style !in selected
    ensures forall x :: x != style ==> (x in r <==> x in selected)
    ensures Selection(selected, StyleOptions) && style in StyleOptions ==> Selection(r, StyleOptions)
  {
    ToggleFlips(selected, style);
    if Selection(selected, StyleOptions) && style in StyleOptions then
      ToggleKeepsSelection(selected, style, StyleOptions);
      Toggle(selected, style)
    else
      Toggle(selected, style)
  }

  const Simple := "簡約"
  const Moderate := "中等"
  const Intricate := "複雜"

  /** The grey used for any value outside the three difficulties. */
  const DefaultGrey := "#6B7280"

  predicate IsKnownDifficulty(d: string) {
    d == Simple || d == Moderate || d == Intricate
  }

  const SimpleGreen := "#10B981"
  const ModerateAmber := "#F59E0B"
  const IntricateRed := "#EF4444"

  /**
   * `getDifficultyColor`: green for 簡約, amber for 中等, red for 複雜, and
   * grey exactly for an unknown difficulty.
   */
  function GetDifficultyColor(difficulty: string): (r: string)
    ensures |r| == 7 && r[0] == '#'
    ensures difficulty == Simple ==> r == SimpleGreen
    ensures difficulty == Moderate ==> r == ModerateAmber
    ensures difficulty == Intricate ==> r == IntricateRed
    ensures r == DefaultGrey <==> !IsKnownDifficulty(difficulty)
  {
    if difficulty == Simple then SimpleGreen
    else if difficulty == Moderate then ModerateAmber
    else if difficulty == Intricate then IntricateRed
    else DefaultGrey
  }

  /** The three difficulties are told apart by colour. */
  lemma DifficultyColorsDistinct(a: string, b: string)
    requires IsKnownDifficulty(a) && IsKnownDifficulty(b) && a != b
    ensures GetDifficultyColor(a) != GetDifficultyColor(b)
  {
  }
}
