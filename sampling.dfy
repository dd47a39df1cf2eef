/**
 * Per-stage selection of `hyukebox/server.py` (`_weighted_random_sampling`):
 * for each narrative stage, the scored candidates whose best stage is that
 * stage's `step`, sorted by score, cut to the top 10, drawn from, and freed of
 * repeated keys. `random.choices` is an input: `pick(pos, j)` is the index
 * (taken modulo the population size) of the `j`-th draw for the stage at
 * position `pos`. Every weight `exp(score / 100 / temperature)` is positive,
 * so every index sequence is a possible draw.
 */
module Sampling {
  import opened Wrappers
  import opened Text
  import opened Unique
  import opened Records
  import opened Scoring

  /** Only the best-scored candidates of a stage are drawn from. */
  const TopLimit := 10

  /** `[c for c in scored if c.get("best_stage") == step]`. */
  function InStage(scored: seq<Scored>, step: int): seq<Scored> {
    if scored == [] then []
    else
      var rest := InStage(scored[..|scored| - 1], step);
      if scored[|scored| - 1].bestStage == step then rest + [scored[|scored| - 1]] else rest
  }

  /** A candidate is in the stage's list exactly when it is scored with that best stage. */
  lemma {:induction false} InStageMembers(scored: seq<Scored>, step: int)
    ensures |InStage(scored, step)| <= |scored|
    ensures forall x :: x in InStage(scored, step) <==> x in scored && x.bestStage == step
  {
    if scored != [] {
      InStageMembers(scored[..|scored| - 1], step);
      assert scored == scored[..|scored| - 1] + [scored[|scored| - 1]];
    }
  }

  /** The stage's candidates sorted by score (stably) and cut to the first 10. */
  function TopTen(candidates: seq<Scored>): seq<Scored> {
    PyPrefix(SortByScoreDesc(candidates), TopLimit)
  }

  /** The top ten are the first `min(10, n)` candidates in sorted order. */
  lemma TopTenPrefix(candidates: seq<Scored>)
    ensures |TopTen(candidates)| == if |candidates| < TopLimit then |candidates| else TopLimit
    ensures TopTen(candidates) == SortByScoreDesc(candidates)[..|TopTen(candidates)|]
  {
    SortByScoreDescSpec(candidates);
    assert |SortByScoreDesc(candidates)| == |candidates| by {
      assert |multiset(SortByScoreDesc(candidates))| == |multiset(candidates)|;
    }
  }

  /**
   * The top ten are candidates of the stage, as many as there are up to 10,
   * and none scores lower than a candidate left out.
   */
  lemma TopTenSpec(candidates: seq<Scored>)
    ensures |TopTen(candidates)| == if |candidates| < TopLimit then |candidates| else TopLimit
    ensures forall x :: x in TopTen(candidates) ==> x in candidates
    ensures forall x, y :: x in TopTen(candidates) && y in candidates && y !in TopTen(candidates) ==>
      x.score >= y.score
  {
    var sorted := SortByScoreDesc(candidates);
    var top := TopTen(candidates);
    TopTenPrefix(candidates);
    SortByScoreDescSpec(candidates);
    SortByScoreDescMembers(candidates);
    forall x | x in top ensures x in candidates {
      var i :| 0 <= i < |top| && top[i] == x;
      assert sorted[i] == x;
    }
    forall x, y | x in top && y in candidates && y !in top
      ensures x.score >= y.score
    {
      var i :| 0 <= i < |top| && top[i] == x;
      var j :| 0 <= j < |sorted| && sorted[j] == y;
      forall k | 0 <= k < |top| ensures sorted[k] in top {
        assert top[k] == sorted[k];
      }
      assert sorted[i] == x;
    }
  }

  /** `min(songs_per_stage, len(top))` draws; `random.choices` makes none for a negative `k`. */
  function DrawCount(songsPerStage: int, population: nat): nat {
    if songsPerStage < 0 then 0
    else if songsPerStage < population then songsPerStage
    else population
  }

  /** The draws of the stage at position `pos`. */
  function Drawn(top: seq<Scored>, k: nat, pos: nat, pick: (nat, nat) -> nat): seq<Scored>
    requires |top| > 0
  {
    seq(k, j requires 0 <= j < k => top[pick(pos, j) % |top|])
  }

  /** Any sequence of indices into the population is a possible outcome of the draws. */
  lemma AnyDrawPossible(top: seq<Scored>, indices: seq<nat>, pos: nat)
    requires |top| > 0
    requires forall i :: 0 <= i < |indices| ==> indices[i] < |top|
    ensures Drawn(top, |indices|, pos, (p: nat, j: nat) => if j < |indices| then indices[j] else 0) ==
      seq(|indices|, i requires 0 <= i < |indices| => top[indices[i]])
  {
  }

  /** `{**song, "stage_number": step, "stage_title": title}` for each song. */
  function TagRecs(songs: seq<Scored>, step: int, title: string): seq<Recommendation> {
    seq(|songs|, i requires 0 <= i < |songs| => Recommendation(songs[i], step, title))
  }

  /** What the stage at position `pos` contributes. */
  function StageRecs(stages: seq<Stage>, pos: nat, scored: seq<Scored>, songsPerStage: int,
                     pick: (nat, nat) -> nat): seq<Recommendation>
    requires pos < |stages|
  {
    var stage := stages[pos];
    var step := StepOf(stage);
    var candidates := InStage(scored, step);
    if candidates == [] then []
    else
      var top := TopTen(candidates);
      var selected := Drawn(top, DrawCount(songsPerStage, |top|), pos, pick);
      TagRecs(Dedup(selected, ScoredKey), step, stage.title.GetOr(""))
  }

  /** The recommendations of the first `n` stages, in stage order. */
  function Sampled(stages: seq<Stage>, scored: seq<Scored>, songsPerStage: int,
                   pick: (nat, nat) -> nat, n: nat): seq<Recommendation>
    requires n <= |stages|
  {
    if n == 0 then []
    else Sampled(stages, scored, songsPerStage, pick, n - 1) + StageRecs(stages, n - 1, scored, songsPerStage, pick)
  }

  /** One more stage appends its draws. */
  lemma SampledSnoc(stages: seq<Stage>, scored: seq<Scored>, songsPerStage: int, pick: (nat, nat) -> nat, n: nat)
    requires n < |stages|
    ensures Sampled(stages, scored, songsPerStage, pick, n + 1) ==
      Sampled(stages, scored, songsPerStage, pick, n) + StageRecs(stages, n, scored, songsPerStage, pick)
  {
  }

  lemma TagRecsSnoc(songs: seq<Scored>, x: Scored, step: int, title: string)
    ensures TagRecs(songs + [x], step, title) == TagRecs(songs, step, title) + [Recommendation(x, step, title)]
  {
  }

  /** One more draw: it is kept exactly when its key is new to the stage. */
  lemma DrawStep(selected: seq<Scored>, j: nat, step: int, title: string)
    requires j < |selected|
    ensures var d := Dedup(selected[..j], ScoredKey);
      var x := selected[j];
      if ScoredKey(x) in Keys(d, ScoredKey) then
        Dedup(selected[..j + 1], ScoredKey) == d
      else
        && Dedup(selected[..j + 1], ScoredKey) == d + [x]
        && Keys(d + [x], ScoredKey) == Keys(d, ScoredKey) + [ScoredKey(x)]
        && TagRecs(d + [x], step, title) == TagRecs(d, step, title) + [Recommendation(x, step, title)]
  {
    var d := Dedup(selected[..j], ScoredKey);
    AppendUnseenSnoc([], selected[..j], selected[j], ScoredKey);
    assert selected[..j + 1] == selected[..j] + [selected[j]];
    KeysAppend(d, selected[j], ScoredKey);
    TagRecsSnoc(d, selected[j], step, title);
  }

  /**
   * The `seen`-set loop of `_weighted_random_sampling` over one stage's draws:
   * each drawn song whose key was not drawn before in this stage is appended,
   * tagged with the stage.
   */
  method AppendDrawn(recs: seq<Recommendation>, selected: seq<Scored>, step: int, title: string)
    returns (recs': seq<Recommendation>)
    ensures recs' == recs + TagRecs(Dedup(selected, ScoredKey), step, title)
  {
    recs' := recs;
    var seen: set<string> := {};
    var j := 0;
    while j < |selected|
      invariant 0 <= j <= |selected|
      invariant recs' == recs + TagRecs(Dedup(selected[..j], ScoredKey), step, title)
      invariant forall k :: k in seen <==> k in Keys(Dedup(selected[..j], ScoredKey), ScoredKey)
    {
      var song := selected[j];
      var key := TrackKey(song.artist, song.title);
      DrawStep(selected, j, step, title);
      if key !in seen {
        recs' := recs' + [Recommendation(song, step, title)];
        seen := seen + {key};
      }
      j := j + 1;
    }
    assert selected[..|selected|] == selected;
  }

  /** The body of the stage loop of `_weighted_random_sampling`. */
  method SampleStage(recs: seq<Recommendation>, stages: seq<Stage>, pos: nat, scored: seq<Scored>,
                     songsPerStage: int, pick: (nat, nat) -> nat)
    returns (recs': seq<Recommendation>)
    requires pos < |stages|
    ensures recs' == recs + StageRecs(stages, pos, scored, songsPerStage, pick)
  {
    var stage := stages[pos];
    var stageNumber := stage.step.GetOr(0);
    var stageCandidates := InStage(scored, stageNumber);
    if stageCandidates == [] {
      return recs;
    }
    stageCandidates := TopTen(stageCandidates);
    var numToSample := DrawCount(songsPerStage, |stageCandidates|);
    var selected := Drawn(stageCandidates, numToSample, pos, pick);
    recs' := AppendDrawn(recs, selected, stageNumber, stage.title.GetOr(""));
  }

  /**
   * `_weighted_random_sampling` with the draws of `pick`: the stages in
   * narrative order, each contributing its deduplicated draws.
   */
  method WeightedRandomSampling(stages: seq<Stage>, scored: seq<Scored>, songsPerStage: int,
                                pick: (nat, nat) -> nat)
    returns (recs: seq<Recommendation>)
    ensures recs == Sampled(stages, scored, songsPerStage, pick, |stages|)
  {
    recs := [];
    var pos := 0;
    while pos < |stages|
      invariant 0 <= pos <= |stages|
      invariant recs == Sampled(stages, scored, songsPerStage, pick, pos)
    {
      recs := SampleStage(recs, stages, pos, scored, songsPerStage, pick);
      SampledSnoc(stages, scored, songsPerStage, pick, pos);
      pos := pos + 1;
    }
  }

  /** A stage emits at most `min(songs_per_stage, 10, number of its candidates)` songs. */
  lemma StageRecsBound(stages: seq<Stage>, pos: nat, scored: seq<Scored>, songsPerStage: int,
                       pick: (nat, nat) -> nat)
    requires pos < |stages|
    ensures var r := StageRecs(stages, pos, scored, songsPerStage, pick);
      && |r| <= (if songsPerStage < 0 then 0 else songsPerStage)
      && |r| <= TopLimit
      && |r| <= |InStage(scored, StepOf(stages[pos]))|
  {
    var candidates := InStage(scored, StepOf(stages[pos]));
    if candidates != [] {
      TopTenSpec(candidates);
      var top := TopTen(candidates);
      var selected := Drawn(top, DrawCount(songsPerStage, |top|), pos, pick);
      assert |Dedup(selected, ScoredKey)| <= |selected|;
    }
  }

  /** Within a stage no key is emitted twice. */
  lemma StageRecsDistinct(stages: seq<Stage>, pos: nat, scored: seq<Scored>, songsPerStage: int,
                          pick: (nat, nat) -> nat)
    requires pos < |stages|
    ensures DistinctKeys(StageRecs(stages, pos, scored, songsPerStage, pick), RecommendationKey)
  {
    var candidates := InStage(scored, StepOf(stages[pos]));
    if candidates != [] {
      var top := TopTen(candidates);
      var selected := Drawn(top, DrawCount(songsPerStage, |top|), pos, pick);
      DedupDistinct(selected, ScoredKey);
      var r := StageRecs(stages, pos, scored, songsPerStage, pick);
      var d := Dedup(selected, ScoredKey);
      forall i, j | 0 <= i < j < |r| ensures RecommendationKey(r[i]) != RecommendationKey(r[j]) {
        assert r[i].song == d[i] && r[j].song == d[j];
      }
    }
  }

  /**
   * Every song a stage emits carries that stage's `step` and title, was
   * scored with that best stage, and is among the stage's top ten.
   */
  lemma StageRecsTagged(stages: seq<Stage>, pos: nat, scored: seq<Scored>, songsPerStage: int,
                        pick: (nat, nat) -> nat)
    requires pos < |stages|
    ensures forall r :: r in StageRecs(stages, pos, scored, songsPerStage, pick) ==>
      && r.stageNumber == StepOf(stages[pos])
      && r.stageTitle == stages[pos].title.GetOr("")
      && r.song.bestStage == StepOf(stages[pos])
      && r.song in scored
      && r.song in TopTen(InStage(scored, StepOf(stages[pos])))
  {
    var step := StepOf(stages[pos]);
    var candidates := InStage(scored, step);
    if candidates != [] {
      var top := TopTen(candidates);
      var selected := Drawn(top, DrawCount(songsPerStage, |top|), pos, pick);
      var d := Dedup(selected, ScoredKey);
      DedupDistinct(selected, ScoredKey);
      TopTenSpec(candidates);
      InStageMembers(scored, step);
      var recs := StageRecs(stages, pos, scored, songsPerStage, pick);
      forall r | r in recs
        ensures r.song in top && r.song in candidates
      {
        var i :| 0 <= i < |recs| && recs[i] == r;
        assert r.song == d[i];
        assert d[i] in selected;
        var j :| 0 <= j < |selected| && selected[j] == d[i];
      }
    }
  }

  /** A stage none of whose candidates is scored with its `step` emits nothing. */
  lemma StageRecsEmpty(stages: seq<Stage>, pos: nat, scored: seq<Scored>, songsPerStage: int,
                       pick: (nat, nat) -> nat)
    requires pos < |stages|
    requires forall x :: x in scored ==> x.bestStage != StepOf(stages[pos])
    ensures StageRecs(stages, pos, scored, songsPerStage, pick) == []
  {
    InStageMembers(scored, StepOf(stages[pos]));
  }

  /**
   * The aggregator defaults a missing `step` to the stage's position + 1,
   * the sampler to 0: when no stage has `step` 0, a stage without `step`
   * receives nothing from the aggregate, however its candidates scored.
   */
  lemma MissingStepStageEmpty(stages: seq<Stage>, results: seq<Fetch<seq<Evaluation>>>, pos: nat,
                              songsPerStage: int, pick: (nat, nat) -> nat)
    requires |results| == |stages| && pos < |stages|
    requires stages[pos].step == None
    requires forall i :: 0 <= i < |stages| ==> stages[i].step != Some(0)
    ensures StageRecs(stages, pos, Aggregate(stages, results), songsPerStage, pick) == []
  {
    var scored := Aggregate(stages, results);
    var items := Flattened(stages, results, |stages|);
    AggregateBest(stages, results);
    forall x | x in scored ensures x.bestStage != 0 {
      assert BestOf(items, x);
      var j :| 0 <= j < |items| && items[j] == x && FirstBest(items, j);
      var idx, e := FlattenedSource(stages, results, |stages|, x);
    }
    StageRecsEmpty(stages, pos, scored, songsPerStage, pick);
  }
}
