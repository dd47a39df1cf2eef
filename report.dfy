/**
 * The text renderings of `hyukebox/server.py`: the recommendation report
 * (`_format_recommendations`) and the narrative listing
 * (`format_narrative_output`).
 */
module Report {
  import opened Wrappers
  import opened Text
  import opened Records

  /** The rule `"=" * 60`. */
  const Rule: string := "============================================================"

  // ---------------------------------------------------------------------------
  // _format_recommendations

  /** The six header lines; the fifth announces how many songs are recommended. */
  function Header(summary: string, count: int): seq<string> {
    [Rule, "서사 기반 추천곡: " + summary, Rule, "", "총 " + IntToString(count) + "곡 추천", ""]
  }

  function Footer(): seq<string> {
    [Rule, "실행할 때마다 다른 추천곡이 선정됩니다."]
  }

  /** The recommendations of one stage number, in input order: `stage_map[step]`. */
  function Group(recs: seq<Recommendation>, step: int): seq<Recommendation> {
    if recs == [] then []
    else
      var rest := Group(recs[..|recs| - 1], step);
      if recs[|recs| - 1].stageNumber == step then rest + [recs[|recs| - 1]] else rest
  }

  /** `"{artist} - {title} (점수: {score}/100)"`. */
  function SongLine(r: Recommendation): string {
    r.song.artist + " - " + r.song.title + " (점수: " + IntToString(r.song.score) + "/100)"
  }

  /** The three lines of the `i`-th recommendation of a stage. */
  function RecLines(r: Recommendation, i: nat): seq<string> {
    ["  " + Numbered(i, SongLine(r)), "     이유: " + r.song.reason, ""]
  }

  /** The recommendation lines of one stage, numbered from 1. */
  function GroupLines(group: seq<Recommendation>): (r: seq<string>)
    ensures |r| == 3 * |group|
  {
    if group == [] then []
    else GroupLines(group[..|group| - 1]) + RecLines(group[|group| - 1], |group|)
  }

  /** A stage's heading lines. */
  function StageHead(stage: Stage): seq<string> {
    ["[" + IntToString(StepOf(stage)) + "단계] " + stage.title.GetOr(""),
     "키워드: " + Join(stage.keywords.GetOr([]), ", "),
     ""]
  }

  /** A stage's block: nothing when no recommendation carries its `step`. */
  function StageBlock(stage: Stage, recs: seq<Recommendation>): seq<string> {
    var group := Group(recs, StepOf(stage));
    if group == [] then [] else StageHead(stage) + GroupLines(group)
  }

  /** The blocks of the first `n` stages, in narrative order. */
  function Body(stages: seq<Stage>, recs: seq<Recommendation>, n: nat): (r: seq<string>)
    requires n <= |stages|
    ensures |r| == 3 * Shown(stages, recs, n) + 3 * Listed(stages, recs, n)
  {
    if n == 0 then [] else Body(stages, recs, n - 1) + StageBlock(stages[n - 1], recs)
  }

  function ReportLines(narrative: NarrativeJson, recs: seq<Recommendation>): seq<string> {
    var stages := StagesOf(narrative);
    Header(narrative.summary.GetOr(""), |recs|) + Body(stages, recs, |stages|) + Footer()
  }

  /**
   * The `stage_map` loop: every recommendation is appended to the list of
   * its stage number, a list being created on first use.
   */
  method GroupByStage(recs: seq<Recommendation>) returns (stageMap: map<int, seq<Recommendation>>)
    ensures forall k :: k in stageMap <==> Group(recs, k) != []
    ensures forall k :: k in stageMap ==> stageMap[k] == Group(recs, k)
  {
    stageMap := map[];
    var i := 0;
    while i < |recs|
      invariant 0 <= i <= |recs|
      invariant forall k :: k in stageMap <==> Group(recs[..i], k) != []
      invariant forall k :: k in stageMap ==> stageMap[k] == Group(recs[..i], k)
    {
      var rec := recs[i];
      var stageNum := rec.stageNumber;
      assert recs[..i + 1][..i] == recs[..i];
      if stageNum !in stageMap {
        stageMap := stageMap[stageNum := []];
      }
      stageMap := stageMap[stageNum := stageMap[stageNum] + [rec]];
      i := i + 1;
    }
    assert recs[..|recs|] == recs;
  }

  /** The inner loop: three lines per recommendation of the stage, numbered from 1. */
  method AppendGroup(lines: seq<string>, group: seq<Recommendation>) returns (lines': seq<string>)
    ensures lines' == lines + GroupLines(group)
  {
    lines' := lines;
    var i := 0;
    while i < |group|
      invariant 0 <= i <= |group|
      invariant lines' == lines + GroupLines(group[..i])
    {
      var rec := group[i];
      assert group[..i + 1][..i] == group[..i];
      lines' := lines' + ["  " + Numbered(i + 1, SongLine(rec))];
      lines' := lines' + ["     이유: " + rec.song.reason];
      lines' := lines' + [""];
      i := i + 1;
    }
    assert group[..|group|] == group;
  }

  /** The body of the stage loop: a stage's block when `stage_map` holds its number. */
  method AppendStage(lines: seq<string>, stage: Stage, stageMap: map<int, seq<Recommendation>>,
                     ghost recs: seq<Recommendation>)
    returns (lines': seq<string>)
    requires forall k :: k in stageMap <==> Group(recs, k) != []
    requires forall k :: k in stageMap ==> stageMap[k] == Group(recs, k)
    ensures lines' == lines + StageBlock(stage, recs)
  {
    var stageNumber := stage.step.GetOr(0);
    if stageNumber !in stageMap {
      return lines;
    }
    var stageRecs := stageMap[stageNumber];
    lines' := lines + StageHead(stage);
    lines' := AppendGroup(lines', stageRecs);
  }

  /** The stage loop of `_format_recommendations`, appending to `lines`. */
  method AppendStages(lines: seq<string>, stages: seq<Stage>, stageMap: map<int, seq<Recommendation>>,
                      ghost recs: seq<Recommendation>)
    returns (lines': seq<string>)
    requires forall k :: k in stageMap <==> Group(recs, k) != []
    requires forall k :: k in stageMap ==> stageMap[k] == Group(recs, k)
    ensures lines' == lines + Body(stages, recs, |stages|)
  {
    lines' := lines;
    var pos := 0;
    while pos < |stages|
      invariant 0 <= pos <= |stages|
      invariant lines' == lines + Body(stages, recs, pos)
    {
      lines' := AppendStage(lines', stages[pos], stageMap, recs);
      ConcatAssoc(lines, Body(stages, recs, pos), StageBlock(stages[pos], recs));
      pos := pos + 1;
    }
  }

  /**
   * `_format_recommendations`: the header, then each stage of the narrative
   * that has recommendations with its heading and numbered songs, then the
   * footer, joined by newlines.
   */
  method FormatRecommendations(narrative: NarrativeJson, recs: seq<Recommendation>) returns (text: string)
    ensures text == Join(ReportLines(narrative, recs), "\n")
  {
    var summary := narrative.summary.GetOr("");
    var stages := StagesOf(narrative);
    var lines := Header(summary, |recs|);
    var stageMap := GroupByStage(recs);
    lines := AppendStages(lines, stages, stageMap, recs);
    lines := lines + Footer();
    text := Join(lines, "\n");
  }

  /** A stage's group holds exactly its recommendations, and no more than all of them. */
  lemma {:induction false} GroupMembers(recs: seq<Recommendation>, step: int)
    ensures |Group(recs, step)| <= |recs|
    ensures forall r :: r in Group(recs, step) <==> r in recs && r.stageNumber == step
  {
    if recs != [] {
      GroupMembers(recs[..|recs| - 1], step);
      assert recs == recs[..|recs| - 1] + [recs[|recs| - 1]];
    }
  }

  /** Three lines per song: the `i`-th song's lines are its lines under number `i + 1`. */
  lemma {:induction false} GroupLinesShape(group: seq<Recommendation>)
    ensures forall i :: 0 <= i < |group| ==>
      && GroupLines(group)[3 * i] == RecLines(group[i], i + 1)[0]
      && GroupLines(group)[3 * i + 1] == RecLines(group[i], i + 1)[1]
  {
    if group != [] {
      var init := group[..|group| - 1];
      var n := |group|;
      GroupLinesShape(init);
      var l := GroupLines(group);
      var prev := GroupLines(init);
      var last := RecLines(group[n - 1], n);
      assert l == prev + last;
      forall i | 0 <= i < n
        ensures l[3 * i] == RecLines(group[i], i + 1)[0]
        ensures l[3 * i + 1] == RecLines(group[i], i + 1)[1]
      {
        if i < n - 1 {
          assert group[i] == init[i];
          assert l[3 * i] == prev[3 * i];
          assert l[3 * i + 1] == prev[3 * i + 1];
        } else {
          assert l[3 * i] == last[0];
          assert l[3 * i + 1] == last[1];
        }
      }
    }
  }

  /** Within a stage the songs are numbered 1, 2, ... in the order they were recommended. */
  lemma GroupLinesNumbered(group: seq<Recommendation>)
    ensures forall i :: 0 <= i < |group| ==> ItemNumber(GroupLines(group)[3 * i]) == i + 1
  {
    GroupLinesShape(group);
    forall i | 0 <= i < |group| ensures ItemNumber(GroupLines(group)[3 * i]) == i + 1 {
      assert GroupLines(group)[3 * i] == RecLines(group[i], i + 1)[0];
      ItemNumberOf(i + 1, SongLine(group[i]));
    }
  }

  /** The header announces the number of recommendations; the report opens and closes with a rule. */
  lemma ReportFrame(narrative: NarrativeJson, recs: seq<Recommendation>)
    ensures var lines := ReportLines(narrative, recs);
      && |lines| >= 8
      && lines[4] == "총 " + IntToString(|recs|) + "곡 추천"
      && lines[1] == "서사 기반 추천곡: " + narrative.summary.GetOr("")
      && lines[0] == Rule && lines[|lines| - 2] == Rule
  {
  }

  /** The number of stages of the first `n` whose `step` is `v`. */
  function StepCount(stages: seq<Stage>, v: int, n: nat): nat
    requires n <= |stages|
  {
    if n == 0 then 0 else StepCount(stages, v, n - 1) + (if StepOf(stages[n - 1]) == v then 1 else 0)
  }

  /** How many recommendations the blocks of the first `n` stages list. */
  function Listed(stages: seq<Stage>, recs: seq<Recommendation>, n: nat): nat
    requires n <= |stages|
  {
    if n == 0 then 0 else Listed(stages, recs, n - 1) + |Group(recs, StepOf(stages[n - 1]))|
  }

  /** How many of the first `n` stages have a block. */
  function Shown(stages: seq<Stage>, recs: seq<Recommendation>, n: nat): nat
    requires n <= |stages|
  {
    if n == 0 then 0 else Shown(stages, recs, n - 1) + (if Group(recs, StepOf(stages[n - 1])) == [] then 0 else 1)
  }

  /** One more recommendation is listed once for each stage carrying its number. */
  lemma {:induction false} ListedSnoc(stages: seq<Stage>, recs: seq<Recommendation>, r: Recommendation, n: nat)
    requires n <= |stages|
    ensures Listed(stages, recs + [r], n) == Listed(stages, recs, n) + StepCount(stages, r.stageNumber, n)
  {
    if n > 0 {
      ListedSnoc(stages, recs, r, n - 1);
      assert (recs + [r])[..|recs|] == recs;
    }
  }

  /**
   * When every recommendation's stage number is the `step` of exactly one
   * stage, the report lists every recommendation exactly once.
   */
  lemma {:induction false} ListedAll(stages: seq<Stage>, recs: seq<Recommendation>)
    requires forall i :: 0 <= i < |recs| ==> StepCount(stages, recs[i].stageNumber, |stages|) == 1
    ensures Listed(stages, recs, |stages|) == |recs|
  {
    if recs == [] {
      ListedNone(stages, |stages|);
    } else {
      var init := recs[..|recs| - 1];
      ListedAll(stages, init);
      ListedSnoc(stages, init, recs[|recs| - 1], |stages|);
      assert init + [recs[|recs| - 1]] == recs;
    }
  }

  lemma {:induction false} ListedNone(stages: seq<Stage>, n: nat)
    requires n <= |stages|
    ensures Listed(stages, [], n) == 0
  {
    if n > 0 {
      ListedNone(stages, n - 1);
    }
  }

  // ---------------------------------------------------------------------------
  // format_narrative_output

  /** The fields `format_narrative_output` indexes with `[...]` are all present. */
  predicate NarrativeComplete(data: NarrativeJson) {
    && data.summary.Some? && data.stageCount.Some? && data.stages.Some?
    && forall i :: 0 <= i < |data.stages.value| ==>
      data.stages.value[i].step.Some? && data.stages.value[i].title.Some? && data.stages.value[i].keywords.Some?
  }

  /**
   * `format_narrative_output`: `None` stands for the `KeyError` a missing
   * field raises; otherwise the listing's lines.
   */
  function NarrativeLines(artist: string, title: string, data: NarrativeJson): (r: Option<seq<string>>)
    ensures r.Some? <==> NarrativeComplete(data)
  {
    if !NarrativeComplete(data) then None
    else
      var stages := data.stages.value;
      Some(["=== " + artist + " - " + title + " ===", "",
            "요약: " + data.summary.value, "",
            "서사 흐름 (" + IntToString(data.stageCount.value) + "단계):"] +
           seq(|stages|, i requires 0 <= i < |stages| =>
             IntToString(stages[i].step.value) + ". " + stages[i].title.value) +
           ["", "각 단계별 키워드:"] +
           seq(|stages|, i requires 0 <= i < |stages| =>
             IntToString(stages[i].step.value) + ". " + Join(stages[i].keywords.value, ", ")))
  }

  function FormatNarrativeOutput(artist: string, title: string, data: NarrativeJson): Option<string> {
    match NarrativeLines(artist, title, data)
    case None => None
    case Some(lines) => Some(Join(lines, "\n"))
  }

  /**
   * A complete narrative gives five header lines, one title line per stage,
   * two separator lines and one keyword line per stage, both listings in
   * stage order under the same step numbers.
   */
  lemma NarrativeLinesShape(artist: string, title: string, data: NarrativeJson)
    requires NarrativeComplete(data)
    ensures var lines := NarrativeLines(artist, title, data).value;
      var stages := data.stages.value;
      && |lines| == 7 + 2 * |stages|
      && forall i :: 0 <= i < |stages| ==>
        && lines[5 + i] == IntToString(stages[i].step.value) + ". " + stages[i].title.value
        && lines[7 + |stages| + i] == IntToString(stages[i].step.value) + ". " + Join(stages[i].keywords.value, ", ")
  {
  }
}
