/**
 * The dictionaries the recommendation pipeline of `hyukebox/server.py` passes
 * around, as records. A field the code reads with `.get` or `[...]` and that
 * the model JSON may omit is an `Option`.
 */
module Records {
  import opened Wrappers

  /** A search hit `{"artist": ..., "title": ...}`. */
  datatype Candidate = Candidate(artist: string, title: string)

  /** The deduplication key `f"{artist}||{title}"`. */
  function TrackKey(artist: string, title: string): string {
    artist + "||" + title
  }

  function CandidateKey(c: Candidate): string {
    TrackKey(c.artist, c.title)
  }

  /** One element of `narrative.stages` in the narrative JSON. */
  datatype Stage = Stage(
    step: Option<int>,
    title: Option<string>,
    description: Option<string>,
    keywords: Option<seq<string>>)

  /**
   * The narrative JSON `{"summary": ..., "narrative": {"stage_count": ..., "stages": [...]}}`;
   * a missing `narrative` object reads like one whose keys are all missing.
   */
  datatype NarrativeJson = NarrativeJson(
    summary: Option<string>,
    stageCount: Option<int>,
    stages: Option<seq<Stage>>)

  /** `narrative.get("narrative", {}).get("stages", [])`. */
  function StagesOf(n: NarrativeJson): seq<Stage> {
    n.stages.GetOr([])
  }

  /** `stage.get("step", 0)`: the stage number the sampler and the formatter use. */
  function StepOf(s: Stage): int {
    s.step.GetOr(0)
  }

  /** One record of the evaluator's `"evaluations"` list; scores, documented as 0-100, are modelled as integers. */
  datatype Evaluation = Evaluation(
    artist: Option<string>,
    title: Option<string>,
    score: Option<int>,
    reason: Option<string>)

  /** An evaluated candidate with the stage that gave it its best score. */
  datatype Scored = Scored(artist: string, title: string, score: int, reason: string, bestStage: int)

  function ScoredKey(s: Scored): string {
    TrackKey(s.artist, s.title)
  }

  /** `{**song, "stage_number": ..., "stage_title": ...}`. */
  datatype Recommendation = Recommendation(song: Scored, stageNumber: int, stageTitle: string)

  function RecommendationKey(r: Recommendation): string {
    ScoredKey(r.song)
  }
}
