/**
 * The emotional narrative arc of `hyukebox/models/narrative.py`: the mood
 * vocabulary, the arc record with its stage-count bound, its bounds-checked
 * accessors, its stage listing and the predefined templates.
 */
module Narrative {
  import opened Wrappers
  import opened Text

  /** `MoodType`: seventeen moods, each carried as a lowercase word. */
  datatype Mood =
    | Joy | Excitement | Hope | Peace | Love | Confidence
    | Sadness | Anger | Fear | Regret | Loneliness | Despair
    | Nostalgia | Melancholy | Ambivalence | Reflection | Determination

  predicate LowerWord(s: string) {
    |s| >= 1 && forall c :: c in s ==> 'a' <= c <= 'z'
  }

  /** A mood's `value`. */
  function MoodValue(m: Mood): (r: string)
    ensures LowerWord(r)
  {
    match m
    case Joy => "joy"
    case Excitement => "excitement"
    case Hope => "hope"
    case Peace => "peace"
    case Love => "love"
    case Confidence => "confidence"
    case Sadness => "sadness"
    case Anger => "anger"
    case Fear => "fear"
    case Regret => "regret"
    case Loneliness => "loneliness"
    case Despair => "despair"
    case Nostalgia => "nostalgia"
    case Melancholy => "melancholy"
    case Ambivalence => "ambivalence"
    case Reflection => "reflection"
    case Determination => "determination"
  }

  /** `MoodType(s)`: the mood whose value is `s`, `None` for the `ValueError` any other string raises. */
  function MoodFromValue(s: string): (r: Option<Mood>)
    ensures r.Some? ==> MoodValue(r.value) == s
  {
    if s == "joy" then Some(Joy)
    else if s == "excitement" then Some(Excitement)
    else if s == "hope" then Some(Hope)
    else if s == "peace" then Some(Peace)
    else if s == "love" then Some(Love)
    else if s == "confidence" then Some(Confidence)
    else if s == "sadness" then Some(Sadness)
    else if s == "anger" then Some(Anger)
    else if s == "fear" then Some(Fear)
    else if s == "regret" then Some(Regret)
    else if s == "loneliness" then Some(Loneliness)
    else if s == "despair" then Some(Despair)
    else if s == "nostalgia" then Some(Nostalgia)
    else if s == "melancholy" then Some(Melancholy)
    else if s == "ambivalence" then Some(Ambivalence)
    else if s == "reflection" then Some(Reflection)
    else if s == "determination" then Some(Determination)
    else None
  }

  /** Every mood's value reads back as that mood, so distinct moods have distinct values. */
  lemma MoodValueRoundTrip(m: Mood)
    ensures MoodFromValue(MoodValue(m)) == Some(m)
  {
    match m
    case Joy =>
    case Excitement =>
    case Hope =>
    case Peace =>
    case Love =>
    case Confidence =>
    case Sadness =>
    case Anger =>
    case Fear =>
    case Regret =>
    case Loneliness =>
    case Despair =>
    case Nostalgia =>
    case Melancholy =>
    case Ambivalence =>
    case Reflection =>
    case Determination =>
  }

  /** `NarrativeArc`: a theme, a description and the ordered `(mood, description)` stages. */
  datatype NarrativeArc = NarrativeArc(
    theme: string,
    description: string,
    stages: seq<(Mood, string)>,
    preferredGenres: seq<string>,
    tempoProgression: Option<string>,
    energyProgression: Option<string>)

  const MinStages := 3
  const MaxStages := 10

  /** The field constraint on `stages`: an arc has between 3 and 10 stages. */
  predicate ValidArc(arc: NarrativeArc) {
    MinStages <= |arc.stages| <= MaxStages
  }

  /** `stage_count`. */
  function StageCount(arc: NarrativeArc): nat {
    |arc.stages|
  }

  /** A valid arc counts between 3 and 10 stages, one per entry of `stages`. */
  lemma StageCountBounds(arc: NarrativeArc)
    requires ValidArc(arc)
    ensures MinStages <= StageCount(arc) <= MaxStages
    ensures StageCount(arc) == |arc.stages|
  {
  }

  /** `get_stage_mood`: the mood at `index` when it is in range, `None` otherwise. */
  function GetStageMood(arc: NarrativeArc, index: int): (r: Option<Mood>)
    ensures r.Some? <==> 0 <= index < StageCount(arc)
    ensures r.Some? ==> r.value == arc.stages[index].0
  {
    if 0 <= index < |arc.stages| then Some(arc.stages[index].0) else None
  }

  /** `get_stage_description`: the description at `index` when it is in range, `None` otherwise. */
  function GetStageDescription(arc: NarrativeArc, index: int): (r: Option<string>)
    ensures r.Some? <==> 0 <= index < StageCount(arc)
    ensures r.Some? ==> r.value == arc.stages[index].1
  {
    if 0 <= index < |arc.stages| then Some(arc.stages[index].1) else None
  }

  /**
   * `str.title()` on a single lowercase ASCII word, which is all a mood value
   * is: the first letter upper-cased, the rest kept.
   */
  function Capitalize(s: string): (r: string)
    requires LowerWord(s)
    ensures |r| == |s| && 'A' <= r[0] <= 'Z' && r[1..] == s[1..]
    ensures forall c :: c in r ==> 'A' <= c <= 'Z' || 'a' <= c <= 'z'
  {
    assert s[0] in s;
    assert forall c :: c in s[1..] ==> c in s;
    [(s[0] as int - 32) as char] + s[1..]
  }

  /** The text after the number on the `i`-th stage's line: `"{Mood}: {description}"`. */
  function StageText(arc: NarrativeArc, i: nat): string
    requires i < |arc.stages|
  {
    Capitalize(MoodValue(arc.stages[i].0)) + ": " + arc.stages[i].1
  }

  function StageTexts(arc: NarrativeArc): (r: seq<string>)
    ensures |r| == |arc.stages|
  {
    seq(|arc.stages|, i requires 0 <= i < |arc.stages| => StageText(arc, i))
  }

  /** `format_stages`: the stages numbered from 1, one per line. */
  function FormatStages(arc: NarrativeArc): string {
    Join(NumberedLines(StageTexts(arc)), "\n")
  }

  /** A stage's text holds no newline when its description holds none. */
  lemma StageTextOneLine(arc: NarrativeArc, i: nat)
    requires i < |arc.stages|
    requires '\n' !in arc.stages[i].1
    ensures '\n' !in StageText(arc, i)
  {
    var word := Capitalize(MoodValue(arc.stages[i].0));
    assert '\n' !in word;
    assert StageText(arc, i) == word + ": " + arc.stages[i].1;
  }

  /**
   * When no description holds a newline, the listing splits back into
   * exactly one line per stage, in stage order, the `i`-th numbered `i + 1`
   * and naming that stage's mood and description.
   */
  lemma FormatStagesLines(arc: NarrativeArc)
    requires |arc.stages| >= 1
    requires forall i :: 0 <= i < |arc.stages| ==> '\n' !in arc.stages[i].1
    ensures |Split(FormatStages(arc), '\n')| == StageCount(arc)
    ensures forall i :: 0 <= i < |arc.stages| ==>
      && Split(FormatStages(arc), '\n')[i] == Numbered(i + 1, StageText(arc, i))
      && NumberOf(Split(FormatStages(arc), '\n')[i]) == i + 1
  {
    var texts := StageTexts(arc);
    forall i | 0 <= i < |texts| ensures '\n' !in texts[i] {
      StageTextOneLine(arc, i);
    }
    NumberedLinesSplit(texts);
  }

  /** The `"breakup_recovery"` template: from sadness to hope in six stages. */
  function BreakupRecovery(): NarrativeArc {
    NarrativeArc(
      "이별 극복",
      "이별의 아픔에서 시작해 회복과 성장으로 나아가는 감정 여정",
      [(Sadness, "이별 직후의 상실감과 슬픔"),
       (Regret, "미련과 자책, 되돌아보기"),
       (Despair, "감정의 바닥, 가장 힘든 순간"),
       (Reflection, "자기 성찰과 받아들이기"),
       (Determination, "다시 일어서기, 앞으로 나아가기"),
       (Hope, "새로운 시작에 대한 희망")],
      ["ballad", "r&b", "soul", "indie"],
      Some("slow → slow → moderate → moderate → upbeat"),
      Some("low → low → building → building → high"))
  }

  /** The `"night_drive"` template: five calm, reflective stages. */
  function NightDrive(): NarrativeArc {
    NarrativeArc(
      "야간 드라이브",
      "밤의 고요함 속에서 펼쳐지는 몽환적이고 감성적인 음악 여행",
      [(Peace, "고요한 밤의 시작"),
       (Nostalgia, "지나간 추억을 떠올리며"),
       (Melancholy, "감성적이고 몽환적인 분위기"),
       (Reflection, "생각에 잠기는 순간"),
       (Peace, "평온한 마무리")],
      ["electronic", "indie", "alternative", "ambient"],
      Some("moderate → slow → slow → moderate"),
      Some("medium → low → low → medium"))
  }

  /** The `"workout_motivation"` template: four stages of rising energy. */
  function WorkoutMotivation(): NarrativeArc {
    NarrativeArc(
      "운동 동기부여",
      "점점 고조되는 에너지로 운동 의욕을 끌어올리는 플레이리스트",
      [(Determination, "시작을 위한 마음 다지기"),
       (Confidence, "자신감 상승, 몸 풀기"),
       (Excitement, "본격적인 운동, 에너지 폭발"),
       (Confidence, "마지막 스퍼트, 끝까지 밀어붙이기")],
      ["hip-hop", "electronic", "rock", "pop"],
      Some("moderate → upbeat → very upbeat → upbeat"),
      Some("medium → high → very high → high"))
  }

  /** `NARRATIVE_TEMPLATES`. */
  function Templates(): map<string, NarrativeArc> {
    map["breakup_recovery" := BreakupRecovery(), "night_drive" := NightDrive(), "workout_motivation" := WorkoutMotivation()]
  }

  /** The three templates all meet the stage bound, with 6, 5 and 4 stages. */
  lemma TemplatesValid()
    ensures Templates().Keys == {"breakup_recovery", "night_drive", "workout_motivation"}
    ensures forall k :: k in Templates() ==> ValidArc(Templates()[k])
    ensures StageCount(Templates()["breakup_recovery"]) == 6
    ensures StageCount(Templates()["night_drive"]) == 5
    ensures StageCount(Templates()["workout_motivation"]) == 4
  {
  }
}
