/**
 * The reply handling of `hyukebox/services/llm_service.py`: locating the JSON
 * in a reply, turning the parsed narrative into a `NarrativeArc`, cutting the
 * recommendation list, and the stage listing of the recommendation prompt.
 * The model call is left out; `json.loads` is an input (`loads`), `None`
 * standing for a text it rejects or a value of the wrong shape.
 */
module LlmService {
  import opened Wrappers
  import opened Text
  import opened JsonExtract
  import opened Narrative

  /** Why building a narrative arc raised. */
  datatype ArcError =
    | NoJson(message: string)
    | InvalidJson
    | MissingKey(name: string)
    | UnknownMood(value: string)
    | StageCountOutOfRange(count: nat)

  /**
   * `response_text[find(open) : rfind(close) + 1]`, the text handed to
   * `json.loads`, or the `ValueError` when either bracket is missing.
   */
  function BracketSpan(text: string, open: char, close: char, message: string): (r: Result<string, string>)
    requires open != close
    ensures r.Failure? <==> open !in text || close !in text
    ensures r.Failure? ==> r.error == message
    ensures r.Success? ==> (r.value != "" <==> CloseAfterOpen(text, open, close))
    ensures r.Success? && r.value != "" ==> OutermostSpan(text, r.value, open, close)
  {
    var startIdx := Find(text, open);
    var endIdx := RFind(text, close) + 1;
    CloseAfterOpenFindRFind(text, open, close);
    if startIdx == -1 || endIdx == 0 then Failure(message)
    else
      if startIdx < endIdx then SliceIsOutermost(text, open, close); Success(PySlice(text, startIdx, endIdx))
      else Success(PySlice(text, startIdx, endIdx))
  }

  /** `_parse_narrative_response` up to `json.loads`. */
  function ParseNarrativeResponse(text: string): Result<string, string> {
    BracketSpan(text, '{', '}', "No JSON found in response")
  }

  /** `_parse_recommendations_response` up to `json.loads`. */
  function ParseRecommendationsResponse(text: string): Result<string, string> {
    BracketSpan(text, '[', ']', "No JSON array found in response")
  }

  /**
   * Where `extract_json_from_response` finds no fenced block, it accepts a
   * reply exactly when `_parse_narrative_response` hands a non-empty text to
   * `json.loads`, and then both take the same text; a reply whose last `}`
   * precedes its first `{` is refused by the former and sent as `""` to
   * `json.loads` by the latter.
   */
  lemma ExtractAgreesWithNarrativeParse(text: string)
    ensures ExtractJsonFromResponse(text, None).Success? <==>
      ParseNarrativeResponse(text).Success? && ParseNarrativeResponse(text).value != ""
    ensures ExtractJsonFromResponse(text, None).Success? ==>
      ExtractJsonFromResponse(text, None).value == ParseNarrativeResponse(text).value
    ensures ParseNarrativeResponse(text).Success? && ExtractJsonFromResponse(text, None).Failure? ==>
      ParseNarrativeResponse(text).value == ""
  {
    var e := ExtractJsonFromResponse(text, None);
    var p := ParseNarrativeResponse(text);
    if e.Success? {
      assert CloseAfterOpen(text, '{', '}');
      OutermostSpanUnique(text, e.value, '{', '}');
      OutermostSpanUnique(text, p.value, '{', '}');
    }
  }

  /** A stage of the parsed narrative: its `"mood"` and `"description"` keys, when present. */
  datatype StageData = StageData(mood: Option<string>, description: Option<string>)

  /** The parsed narrative object: each key when present. */
  datatype NarrativeData = NarrativeData(
    theme: Option<string>,
    description: Option<string>,
    stages: Option<seq<StageData>>,
    preferredGenres: Option<seq<string>>,
    tempoProgression: Option<string>,
    energyProgression: Option<string>)

  /** A stage converts: both keys are present and the mood is a known value. */
  predicate StageOk(s: StageData) {
    s.mood.Some? && MoodFromValue(s.mood.value).Some? && s.description.Some?
  }

  /** The stage's `(mood, description)` pair. */
  function StagePair(s: StageData): (Mood, string)
    requires StageOk(s)
  {
    (MoodFromValue(s.mood.value).value, s.description.value)
  }

  /** What converting a stage that does not convert raises, in evaluation order. */
  function StageError(s: StageData): ArcError
    requires !StageOk(s)
  {
    if s.mood.None? then MissingKey("mood")
    else if MoodFromValue(s.mood.value).None? then UnknownMood(s.mood.value)
    else MissingKey("description")
  }

  /** The position of the first stage that does not convert, or the length when all do. */
  function FirstBadStage(stages: seq<StageData>): (k: nat)
    ensures k <= |stages|
    ensures forall j :: 0 <= j < k ==> StageOk(stages[j])
    ensures k < |stages| ==> !StageOk(stages[k])
  {
    if stages == [] || !StageOk(stages[0]) then 0
    else
      var k := FirstBadStage(stages[1..]);
      assert forall j :: 1 <= j < k + 1 ==> stages[j] == stages[1..][j - 1];
      k + 1
  }

  /**
   * The list comprehension over `narrative_data["stages"]`: every stage's
   * pair in order, or the error of the first stage that does not convert.
   */
  function MapStages(stages: seq<StageData>): (r: Result<seq<(Mood, string)>, ArcError>)
    ensures r.Success? <==> forall i :: 0 <= i < |stages| ==> StageOk(stages[i])
    ensures r.Success? ==>
      && |r.value| == |stages|
      && forall i :: 0 <= i < |stages| ==> r.value[i] == StagePair(stages[i])
    ensures r.Failure? ==>
      FirstBadStage(stages) < |stages| && r.error == StageError(stages[FirstBadStage(stages)])
  {
    if stages == [] then Success([])
    else
      var s := stages[0];
      if !StageOk(s) then
        Failure(StageError(s))
      else
        match MapStages(stages[1..])
        case Failure(e) =>
          var k := FirstBadStage(stages[1..]);
          assert FirstBadStage(stages) == k + 1;
          assert stages[k + 1] == stages[1..][k];
          Failure(e)
        case Success(rest) =>
          assert forall i :: 1 <= i < |stages| ==> stages[i] == stages[1..][i - 1];
          Success([StagePair(s)] + rest)
  }

  /**
   * The conversion in `generate_narrative_arc`: the stages first, then the
   * `theme` and `description` keys, `preferred_genres` defaulting to `[]`,
   * then the arc's own stage-count check.
   */
  function BuildNarrativeArc(data: NarrativeData): (r: Result<NarrativeArc, ArcError>)
    ensures r.Success? <==>
      && data.stages.Some?
      && (forall i :: 0 <= i < |data.stages.value| ==> StageOk(data.stages.value[i]))
      && data.theme.Some? && data.description.Some?
      && MinStages <= |data.stages.value| <= MaxStages
    ensures r.Success? ==>
      && ValidArc(r.value)
      && r.value.theme == data.theme.value && r.value.description == data.description.value
      && |r.value.stages| == |data.stages.value|
      && (forall i :: 0 <= i < |data.stages.value| ==> r.value.stages[i] == StagePair(data.stages.value[i]))
      && r.value.preferredGenres == data.preferredGenres.GetOr([])
      && r.value.tempoProgression == data.tempoProgression
      && r.value.energyProgression == data.energyProgression
    ensures data.stages.None? ==> r == Failure(MissingKey("stages"))
  {
    if data.stages.None? then Failure(MissingKey("stages"))
    else
      match MapStages(data.stages.value)
      case Failure(e) => Failure(e)
      case Success(stages) =>
        if data.theme.None? then Failure(MissingKey("theme"))
        else if data.description.None? then Failure(MissingKey("description"))
        else
          var arc := NarrativeArc(data.theme.value, data.description.value, stages,
                                  data.preferredGenres.GetOr([]), data.tempoProgression, data.energyProgression);
          if ValidArc(arc) then Success(arc) else Failure(StageCountOutOfRange(|stages|))
  }

  /** A stage with an unknown mood, preceded only by stages that convert, makes the conversion raise for it. */
  lemma UnknownMoodRaises(data: NarrativeData, i: nat)
    requires data.stages.Some? && i < |data.stages.value|
    requires data.stages.value[i].mood.Some? && MoodFromValue(data.stages.value[i].mood.value).None?
    requires forall j :: 0 <= j < i ==> StageOk(data.stages.value[j])
    ensures BuildNarrativeArc(data) == Failure(UnknownMood(data.stages.value[i].mood.value))
  {
    var stages := data.stages.value;
    assert !StageOk(stages[i]);
    var k := FirstBadStage(stages);
    assert k == i by {
      assert !(k < i);
      assert !(i < k);
    }
  }

  /** `generate_narrative_arc` after the model call: locate, parse, convert. */
  function GenerateNarrativeArc(text: string, loads: string -> Option<NarrativeData>): (r: Result<NarrativeArc, ArcError>)
    ensures r.Success? ==> ValidArc(r.value)
    ensures ('{' !in text || '}' !in text) ==> r == Failure(NoJson("No JSON found in response"))
  {
    match ParseNarrativeResponse(text)
    case Failure(message) => Failure(NoJson(message))
    case Success(jsonText) =>
      match loads(jsonText)
      case None => Failure(InvalidJson)
      case Some(data) => BuildNarrativeArc(data)
  }

  /** One entry of the recommendation list, `{"artist": ..., "title": ...}`. */
  type SongRequest = map<string, string>

  /**
   * `generate_song_recommendations` after the model call: the parsed list cut
   * with `recommendations[:song_count]`.
   */
  function GenerateSongRecommendations(text: string, loads: string -> Option<seq<SongRequest>>, songCount: int)
    : (r: Result<seq<SongRequest>, string>)
    ensures r.Failure? <==>
      ParseRecommendationsResponse(text).Failure? || loads(ParseRecommendationsResponse(text).value).None?
  {
    match ParseRecommendationsResponse(text)
    case Failure(message) => Failure(message)
    case Success(jsonText) =>
      match loads(jsonText)
      case None => Failure("Invalid JSON")
      case Some(recommendations) => Success(PyPrefix(recommendations, songCount))
  }

  /**
   * The returned list is a prefix of the parsed one: of length
   * `min(song_count, len)` for a count of at least 0 (at most `song_count`),
   * and `len + song_count` (at least 0) for a negative count.
   */
  lemma SongRecommendationsPrefix(text: string, loads: string -> Option<seq<SongRequest>>, songCount: int)
    requires GenerateSongRecommendations(text, loads, songCount).Success?
    ensures var all := loads(ParseRecommendationsResponse(text).value).value;
      var r := GenerateSongRecommendations(text, loads, songCount).value;
      && |r| <= |all| && r == all[..|r|]
      && (songCount >= 0 ==> |r| <= songCount && (|r| == songCount || r == all))
      && (songCount < 0 ==> |r| == if |all| + songCount > 0 then |all| + songCount else 0)
  {
  }

  /** The `i`-th stage in the recommendation prompt: `"{mood.value}: {desc}"`. */
  function PromptStageText(arc: NarrativeArc, i: nat): string
    requires i < |arc.stages|
  {
    MoodValue(arc.stages[i].0) + ": " + arc.stages[i].1
  }

  function PromptStageTexts(arc: NarrativeArc): (r: seq<string>)
    ensures |r| == |arc.stages|
  {
    seq(|arc.stages|, i requires 0 <= i < |arc.stages| => PromptStageText(arc, i))
  }

  /** `stages_text` of `_build_recommendation_prompt`. */
  function StagesText(arc: NarrativeArc): string {
    Join(NumberedLines(PromptStageTexts(arc)), "\n")
  }

  lemma PromptStageTextOneLine(arc: NarrativeArc, i: nat)
    requires i < |arc.stages|
    requires '\n' !in arc.stages[i].1
    ensures '\n' !in PromptStageText(arc, i)
  {
    var word := MoodValue(arc.stages[i].0);
    assert '\n' !in word;
    assert PromptStageText(arc, i) == word + ": " + arc.stages[i].1;
  }

  /**
   * When no description holds a newline, the prompt lists the stages one per
   * line in arc order, the `i`-th numbered `i + 1` with its lowercase mood value.
   */
  lemma StagesTextLines(arc: NarrativeArc)
    requires |arc.stages| >= 1
    requires forall i :: 0 <= i < |arc.stages| ==> '\n' !in arc.stages[i].1
    ensures |Split(StagesText(arc), '\n')| == |arc.stages|
    ensures forall i :: 0 <= i < |arc.stages| ==>
      && Split(StagesText(arc), '\n')[i] == Numbered(i + 1, PromptStageText(arc, i))
      && NumberOf(Split(StagesText(arc), '\n')[i]) == i + 1
  {
    var texts := PromptStageTexts(arc);
    forall i | 0 <= i < |texts| ensures '\n' !in texts[i] {
      PromptStageTextOneLine(arc, i);
    }
    NumberedLinesSplit(texts);
  }
}
