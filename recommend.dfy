/**
 * The recommendation pipeline `recommend_songs` of `hyukebox/server.py`: key
 * checks, narrative generation, candidate pooling, scoring, sampling and
 * rendering, with an early reply at each way it can fail. The outbound calls
 * are inputs: the narrative call's outcome, the `i`-th keyword search's
 * outcome `search(i)`, the evaluator's outcome `evaluate(idx, pool)` for the
 * stage at `idx`, and the draws `pick`.
 */
module Recommend {
  import opened Wrappers
  import opened Text
  import opened Unique
  import opened Records
  import opened Candidates
  import opened Scoring
  import opened Sampling
  import opened Report

  /** A pool smaller than this is rejected before scoring. */
  const MinCandidates := 5
  /** Fewer sampled recommendations than this are rejected. */
  const MinRecommendations := 3
  /** `songs_per_stage` as `recommend_songs` passes it. */
  const SongsPerStage := 2

  /** What `_get_narrative_json` did: returned the narrative or raised. */
  datatype NarrativeOutcome =
    | NarrativeOk(json: NarrativeJson)
    | NarrativeValueError(message: string)
    | NarrativeHttpError(status: int, body: string)
    | NarrativeOtherError(message: string)

  /** The reply of `recommend_songs`, one constructor per message it can return. */
  datatype Reply =
    | MissingKey(name: string)
    | NarrativeFailed(message: string)
    | RateLimited
    | InvalidApiKey
    | NarrativeApiError(status: int, body: string)
    | SystemError(message: string)
    | TooFewCandidates(count: nat)
    | NoEvaluatedCandidates
    | TooFewRecommendations(count: nat)
    | Recommendations(text: string)

  /** The text each reply carries. */
  function ReplyText(r: Reply): string {
    match r
    case MissingKey(name) => "Error: " + name + "가 .env 파일에 설정되지 않았습니다."
    case NarrativeFailed(message) => "서사 생성 실패: " + message
    case RateLimited => "OpenAI API 요청 한도 초과. 잠시 후 다시 시도해주세요."
    case InvalidApiKey => "OpenAI API 키가 유효하지 않습니다. .env 파일을 확인해주세요."
    case NarrativeApiError(status, body) => "서사 생성 API 오류 (" + IntToString(status) + "): " + body
    case SystemError(message) => "추천 시스템 오류: " + message
    case TooFewCandidates(count) =>
      "검색된 후보곡이 너무 적습니다 (" + NatToString(count) + "곡). 다른 곡으로 시도해주세요."
    case NoEvaluatedCandidates => "평가된 후보곡이 없습니다. 다른 곡으로 시도해주세요."
    case TooFewRecommendations(count) =>
      "추천곡이 충분하지 않습니다 (" + NatToString(count) + "곡). 다른 곡으로 시도해주세요."
    case Recommendations(text) => text
  }

  /** An environment variable counts as set when it is present and not empty. */
  predicate IsSet(v: Option<string>) {
    v.Some? && v.value != ""
  }

  /** The reply to a narrative call that raised. */
  function NarrativeErrorReply(n: NarrativeOutcome): Reply
    requires !n.NarrativeOk?
  {
    match n
    case NarrativeValueError(message) => NarrativeFailed(message)
    case NarrativeHttpError(status, body) =>
      if status == 429 then RateLimited
      else if status == 401 then InvalidApiKey
      else NarrativeApiError(status, body)
    case NarrativeOtherError(message) => SystemError(message)
  }

  /** The candidate pool for a narrative, given the keyword searches' outcomes in issue order. */
  function Pool(json: NarrativeJson, search: nat -> Fetch<seq<Candidate>>): seq<Candidate> {
    var keywords := AllKeywords(StagesOf(json));
    Dedup(Successful(seq(|keywords|, i requires 0 <= i < |keywords| => search(i))), CandidateKey)
  }

  /** The scored candidates for a narrative and its pool. */
  function Scores(json: NarrativeJson, pool: seq<Candidate>,
                  evaluate: (nat, seq<Candidate>) -> Fetch<seq<Evaluation>>): seq<Scored> {
    var stages := StagesOf(json);
    Aggregate(stages, seq(|stages|, i requires 0 <= i < |stages| => evaluate(i, pool)))
  }

  /** What `recommend_songs` replies, step by step. */
  function RecommendOutcome(tavilyKey: Option<string>, openaiKey: Option<string>, lastfmKey: Option<string>,
                            narrative: NarrativeOutcome,
                            search: nat -> Fetch<seq<Candidate>>,
                            evaluate: (nat, seq<Candidate>) -> Fetch<seq<Evaluation>>,
                            pick: (nat, nat) -> nat): Reply
  {
    if !IsSet(tavilyKey) then MissingKey("TAVILY_API_KEY")
    else if !IsSet(openaiKey) then MissingKey("OPENAI_API_KEY")
    else if !IsSet(lastfmKey) then MissingKey("LASTFM_API_KEY")
    else if !narrative.NarrativeOk? then NarrativeErrorReply(narrative)
    else
      var json := narrative.json;
      var pool := Pool(json, search);
      if |pool| < MinCandidates then TooFewCandidates(|pool|)
      else
        var scored := Scores(json, pool, evaluate);
        if scored == [] then NoEvaluatedCandidates
        else
          var stages := StagesOf(json);
          var recs := Sampled(stages, scored, SongsPerStage, pick, |stages|);
          if |recs| < MinRecommendations then TooFewRecommendations(|recs|)
          else Recommendations(Join(ReportLines(json, recs), "\n"))
  }

  /** `recommend_songs`. */
  method RecommendSongs(tavilyKey: Option<string>, openaiKey: Option<string>, lastfmKey: Option<string>,
                        narrative: NarrativeOutcome,
                        search: nat -> Fetch<seq<Candidate>>,
                        evaluate: (nat, seq<Candidate>) -> Fetch<seq<Evaluation>>,
                        pick: (nat, nat) -> nat)
    returns (reply: Reply)
    ensures reply == RecommendOutcome(tavilyKey, openaiKey, lastfmKey, narrative, search, evaluate, pick)
  {
    if !IsSet(tavilyKey) {
      return MissingKey("TAVILY_API_KEY");
    }
    if !IsSet(openaiKey) {
      return MissingKey("OPENAI_API_KEY");
    }
    if !IsSet(lastfmKey) {
      return MissingKey("LASTFM_API_KEY");
    }
    if !narrative.NarrativeOk? {
      return NarrativeErrorReply(narrative);
    }
    var narrativeJson := narrative.json;
    var stages := StagesOf(narrativeJson);
    var keywords := AllKeywords(stages);
    var results := seq(|keywords|, i requires 0 <= i < |keywords| => search(i));
    var candidates := SearchCandidatesForNarrative(stages, results);
    if |candidates| < MinCandidates {
      return TooFewCandidates(|candidates|);
    }
    var evaluations := seq(|stages|, i requires 0 <= i < |stages| => evaluate(i, candidates));
    var scoredCandidates := EvaluateCandidatesWithLlm(stages, evaluations);
    if scoredCandidates == [] {
      return NoEvaluatedCandidates;
    }
    var recommendations := WeightedRandomSampling(stages, scoredCandidates, SongsPerStage, pick);
    if |recommendations| < MinRecommendations {
      return TooFewRecommendations(|recommendations|);
    }
    var text := FormatRecommendations(narrativeJson, recommendations);
    return Recommendations(text);
  }

  /**
   * A report is returned exactly when every key is set, the narrative call
   * succeeded, the pool holds at least 5 candidates, something was scored
   * and at least 3 recommendations were sampled; then it is the rendering of
   * those recommendations.
   */
  lemma ReportOnlyPastEveryExit(tavilyKey: Option<string>, openaiKey: Option<string>, lastfmKey: Option<string>,
                                narrative: NarrativeOutcome,
                                search: nat -> Fetch<seq<Candidate>>,
                                evaluate: (nat, seq<Candidate>) -> Fetch<seq<Evaluation>>,
                                pick: (nat, nat) -> nat)
    ensures var r := RecommendOutcome(tavilyKey, openaiKey, lastfmKey, narrative, search, evaluate, pick);
      r.Recommendations? <==>
        && IsSet(tavilyKey) && IsSet(openaiKey) && IsSet(lastfmKey)
        && narrative.NarrativeOk?
        && |Pool(narrative.json, search)| >= MinCandidates
        && Scores(narrative.json, Pool(narrative.json, search), evaluate) != []
        && |Sampled(StagesOf(narrative.json), Scores(narrative.json, Pool(narrative.json, search), evaluate),
                    SongsPerStage, pick, |StagesOf(narrative.json)|)| >= MinRecommendations
  {
  }

  /** A pool of fewer than 5 candidates is rejected whatever the evaluator and the draws would do. */
  lemma SmallPoolIgnoresLaterSteps(tavilyKey: Option<string>, openaiKey: Option<string>, lastfmKey: Option<string>,
                                   json: NarrativeJson,
                                   search: nat -> Fetch<seq<Candidate>>,
                                   evaluate1: (nat, seq<Candidate>) -> Fetch<seq<Evaluation>>,
                                   evaluate2: (nat, seq<Candidate>) -> Fetch<seq<Evaluation>>,
                                   pick1: (nat, nat) -> nat, pick2: (nat, nat) -> nat)
    requires IsSet(tavilyKey) && IsSet(openaiKey) && IsSet(lastfmKey)
    requires |Pool(json, search)| < MinCandidates
    ensures RecommendOutcome(tavilyKey, openaiKey, lastfmKey, NarrativeOk(json), search, evaluate1, pick1) ==
            RecommendOutcome(tavilyKey, openaiKey, lastfmKey, NarrativeOk(json), search, evaluate2, pick2) ==
            TooFewCandidates(|Pool(json, search)|)
  {
  }

  /**
   * With the evaluator as written (`_llm_evaluate_stage` raising for every
   * non-empty pool), a narrative that succeeded never yields a report: a pool
   * of fewer than 5 is rejected as such, any other as having nothing scored.
   */
  lemma AsWrittenNeverRecommends(json: NarrativeJson, search: nat -> Fetch<seq<Candidate>>,
                                 pick: (nat, nat) -> nat, key: string)
    requires key != ""
    ensures var r := RecommendOutcome(Some(key), Some(key), Some(key), NarrativeOk(json), search,
                                      (i: nat, pool: seq<Candidate>) => LlmEvaluateStage(pool), pick);
      && (|Pool(json, search)| < MinCandidates ==> r == TooFewCandidates(|Pool(json, search)|))
      && (|Pool(json, search)| >= MinCandidates ==> r == NoEvaluatedCandidates)
  {
    var pool := Pool(json, search);
    var stages := StagesOf(json);
    var evaluate := (i: nat, p: seq<Candidate>) => LlmEvaluateStage(p);
    assert seq(|stages|, i requires 0 <= i < |stages| => evaluate(i, pool)) ==
           seq(|stages|, _ => LlmEvaluateStage(pool));
    AggregateAsWritten(stages, pool);
  }
}
