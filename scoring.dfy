/**
 * Score aggregation of `hyukebox/server.py`: the per-stage evaluator
 * (`_llm_evaluate_stage`) and the merge of its results into one list with the
 * best score per `artist||title` key, sorted by score (`_evaluate_candidates_with_llm`).
 * The evaluator's outbound call is an input: one `Fetch` per stage, `Failed`
 * standing for the exception `asyncio.gather` captured.
 */
module Scoring {
  import opened Wrappers
  import opened Text
  import opened Unique
  import opened Records

  // ---------------------------------------------------------------------------
  // _llm_evaluate_stage

  /** The candidate listing of the evaluation prompt, one line `"{i+1}. {artist} - {title}"` each. */
  function CandidateLines(candidates: seq<Candidate>): seq<string> {
    seq(|candidates|, i requires 0 <= i < |candidates| =>
      Numbered(i + 1, candidates[i].artist + " - " + candidates[i].title))
  }

  /** The listing has one line per candidate, numbered 1..n in candidate order. */
  lemma CandidateLinesNumbered(candidates: seq<Candidate>)
    ensures |CandidateLines(candidates)| == |candidates|
    ensures forall i :: 0 <= i < |candidates| ==> NumberOf(CandidateLines(candidates)[i]) == i + 1
  {
    forall i | 0 <= i < |candidates|
      ensures NumberOf(CandidateLines(candidates)[i]) == i + 1
    {
      NumberedRoundTrip(i + 1, candidates[i].artist + " - " + candidates[i].title);
    }
  }

  /**
   * `_llm_evaluate_stage` as written: an empty candidate list returns `[]`
   * before anything else; any other list reaches the request payload, which
   * names the undefined `EVALUATION_SYSTEM_PROMPT` outside the `try`, so the
   * call raises.
   */
  function LlmEvaluateStage(candidates: seq<Candidate>): (r: Fetch<seq<Evaluation>>)
    ensures r.Fetched? <==> candidates == []
    ensures r.Fetched? ==> r.items == []
  {
    if candidates == [] then Fetched([]) else Failed
  }

  // ---------------------------------------------------------------------------
  // _evaluate_candidates_with_llm: the records it builds

  /** One evaluation record with the `.get` defaults `""`, `""`, `0`, `""`, tagged with its stage. */
  function ToScored(e: Evaluation, stageNumber: int): Scored {
    Scored(e.artist.GetOr(""), e.title.GetOr(""), e.score.GetOr(0), e.reason.GetOr(""), stageNumber)
  }

  /** `stages[idx].get("step", idx + 1)`. */
  function StageNumberAt(stages: seq<Stage>, idx: nat): int
    requires idx < |stages|
  {
    stages[idx].step.GetOr(idx + 1)
  }

  function Tag(evals: seq<Evaluation>, stageNumber: int): seq<Scored> {
    seq(|evals|, j requires 0 <= j < |evals| => ToScored(evals[j], stageNumber))
  }

  /** What stage `idx` contributes: its records, or nothing when it failed. */
  function Tagged(stages: seq<Stage>, results: seq<Fetch<seq<Evaluation>>>, idx: nat): seq<Scored>
    requires |results| == |stages| && idx < |stages|
  {
    match results[idx]
    case Failed => []
    case Fetched(evals) => Tag(evals, StageNumberAt(stages, idx))
  }

  /** The records of stages `0..n-1`, in the order the loops visit them. */
  function Flattened(stages: seq<Stage>, results: seq<Fetch<seq<Evaluation>>>, n: nat): seq<Scored>
    requires |results| == |stages| && n <= |stages|
  {
    if n == 0 then [] else Flattened(stages, results, n - 1) + Tagged(stages, results, n - 1)
  }

  /** One more stage: its tagged records, if any, follow the earlier ones. */
  lemma FlattenedSnoc(stages: seq<Stage>, results: seq<Fetch<seq<Evaluation>>>, idx: nat)
    requires |results| == |stages| && idx < |stages|
    ensures results[idx].Fetched? && results[idx].items != [] ==>
      Flattened(stages, results, idx + 1) ==
        Flattened(stages, results, idx) + Tag(results[idx].items, StageNumberAt(stages, idx))
    ensures !(results[idx].Fetched? && results[idx].items != []) ==>
      Flattened(stages, results, idx + 1) == Flattened(stages, results, idx)
  {
    assert Flattened(stages, results, idx) + [] == Flattened(stages, results, idx);
  }

  /** Every visited record comes from a stage that did not raise, tagged with that stage's number. */
  lemma {:induction false} FlattenedSource(stages: seq<Stage>, results: seq<Fetch<seq<Evaluation>>>, n: nat, x: Scored)
    returns (idx: nat, e: Evaluation)
    requires |results| == |stages| && n <= |stages|
    requires x in Flattened(stages, results, n)
    ensures idx < n && results[idx].Fetched? && e in results[idx].items
    ensures x == ToScored(e, StageNumberAt(stages, idx))
  {
    assert n > 0;
    var t := Tagged(stages, results, n - 1);
    assert Flattened(stages, results, n) == Flattened(stages, results, n - 1) + t;
    if x in t {
      var j :| 0 <= j < |t| && t[j] == x;
      idx, e := n - 1, results[n - 1].items[j];
    } else {
      idx, e := FlattenedSource(stages, results, n - 1, x);
    }
  }

  /** Every record of a stage that did not raise is visited, tagged with that stage's number. */
  lemma {:induction false} FlattenedHas(stages: seq<Stage>, results: seq<Fetch<seq<Evaluation>>>, n: nat, idx: nat, e: Evaluation)
    requires |results| == |stages| && idx < n <= |stages|
    requires results[idx].Fetched? && e in results[idx].items
    ensures ToScored(e, StageNumberAt(stages, idx)) in Flattened(stages, results, n)
  {
    var t := Tagged(stages, results, n - 1);
    assert Flattened(stages, results, n) == Flattened(stages, results, n - 1) + t;
    if idx == n - 1 {
      var j :| 0 <= j < |results[idx].items| && results[idx].items[j] == e;
      assert t[j] == ToScored(e, StageNumberAt(stages, idx));
    } else {
      FlattenedHas(stages, results, n - 1, idx, e);
    }
  }

  /** A record is visited exactly when some stage that did not raise evaluated it. */
  lemma FlattenedMembers(stages: seq<Stage>, results: seq<Fetch<seq<Evaluation>>>, n: nat, x: Scored)
    requires |results| == |stages| && n <= |stages|
    ensures x in Flattened(stages, results, n) <==>
      exists idx, e :: 0 <= idx < n && results[idx].Fetched? && e in results[idx].items &&
        x == ToScored(e, StageNumberAt(stages, idx))
  {
    if x in Flattened(stages, results, n) {
      var idx, e := FlattenedSource(stages, results, n, x);
    }
    if exists idx, e :: 0 <= idx < n && results[idx].Fetched? && e in results[idx].items &&
        x == ToScored(e, StageNumberAt(stages, idx)) {
      var idx, e :| 0 <= idx < n && results[idx].Fetched? && e in results[idx].items &&
        x == ToScored(e, StageNumberAt(stages, idx));
      FlattenedHas(stages, results, n, idx, e);
    }
  }

  // ---------------------------------------------------------------------------
  // The `song_scores` dictionary: a map plus the order its keys were inserted in

  /** The dictionary after visiting `items`: a key is (re)written when new or strictly better. */
  function BestMap(items: seq<Scored>): map<string, Scored> {
    if items == [] then map[]
    else
      var m := BestMap(items[..|items| - 1]);
      var x := items[|items| - 1];
      var k := ScoredKey(x);
      if k !in m || x.score > m[k].score then m[k := x] else m
  }

  /** The dictionary holds exactly the keys visited, each under its own key. */
  lemma {:induction false} BestMapDomain(items: seq<Scored>)
    ensures forall k :: k in BestMap(items) <==> k in Keys(items, ScoredKey)
    ensures forall k :: k in BestMap(items) ==> ScoredKey(BestMap(items)[k]) == k
  {
    if items != [] {
      var init := items[..|items| - 1];
      BestMapDomain(init);
      assert items == init + [items[|items| - 1]];
      KeysAppend(init, items[|items| - 1], ScoredKey);
    }
  }

  /**
   * `items[j]` is the first record of its key with the highest score of that
   * key: none scores higher, and every earlier one scores strictly lower.
   */
  predicate FirstBest(items: seq<Scored>, j: nat)
    requires j < |items|
  {
    forall i :: 0 <= i < |items| && ScoredKey(items[i]) == ScoredKey(items[j]) ==>
      items[i].score <= items[j].score && (i < j ==> items[i].score < items[j].score)
  }

  /** A record whose key was never seen is the first best of its key. */
  lemma FirstBestFresh(items: seq<Scored>)
    requires items != []
    requires ScoredKey(items[|items| - 1]) !in Keys(items[..|items| - 1], ScoredKey)
    ensures FirstBest(items, |items| - 1)
  {
    var init := items[..|items| - 1];
    forall i | 0 <= i < |init|
      ensures ScoredKey(items[i]) != ScoredKey(items[|items| - 1])
    {
      assert init[i] == items[i];
      assert Keys(init, ScoredKey)[i] == ScoredKey(init[i]);
    }
  }

  /** A record that strictly beats the first best of its key so far becomes the first best. */
  lemma FirstBestBeats(items: seq<Scored>, j0: nat)
    requires items != [] && j0 < |items| - 1
    requires FirstBest(items[..|items| - 1], j0)
    requires var x := items[|items| - 1];
      ScoredKey(x) == ScoredKey(items[j0]) && x.score > items[j0].score
    ensures FirstBest(items, |items| - 1)
  {
    var init := items[..|items| - 1];
    forall i | 0 <= i < |items| - 1
      ensures items[i] == init[i]
    {
    }
  }

  /** A first best record stays first best when the next record does not beat it. */
  lemma FirstBestKeep(items: seq<Scored>, j0: nat)
    requires items != [] && j0 < |items| - 1
    requires FirstBest(items[..|items| - 1], j0)
    requires var x := items[|items| - 1];
      ScoredKey(x) != ScoredKey(items[j0]) || x.score <= items[j0].score
    ensures FirstBest(items, j0)
  {
    var init := items[..|items| - 1];
    forall i | 0 <= i < |items| - 1
      ensures items[i] == init[i]
    {
    }
  }

  /** Each stored record is the first record of its key with the maximum score. */
  lemma {:induction false} BestMapIsFirstBest(items: seq<Scored>)
    ensures forall k :: k in BestMap(items) ==>
      exists j :: 0 <= j < |items| && items[j] == BestMap(items)[k] && FirstBest(items, j)
  {
    if items != [] {
      var init := items[..|items| - 1];
      var x := items[|items| - 1];
      BestMapIsFirstBest(init);
      BestMapDomain(init);
      var m0 := BestMap(init);
      var m := BestMap(items);
      forall k | k in m
        ensures exists j :: 0 <= j < |items| && items[j] == m[k] && FirstBest(items, j)
      {
        if k == ScoredKey(x) && k !in m0 {
          FirstBestFresh(items);
          assert items[|items| - 1] == m[k];
        } else {
          var j0 :| 0 <= j0 < |init| && init[j0] == m0[k] && FirstBest(init, j0);
          assert items[j0] == init[j0];
          if k == ScoredKey(x) && x.score > m0[k].score {
            FirstBestBeats(items, j0);
            assert items[|items| - 1] == m[k];
          } else {
            FirstBestKeep(items, j0);
            assert items[j0] == m[k];
          }
        }
      }
    }
  }

  /** `x` is the first record of its key with the maximum score among `items`. */
  predicate BestOf(items: seq<Scored>, x: Scored) {
    exists j :: 0 <= j < |items| && items[j] == x && FirstBest(items, j)
  }

  /** The dictionary's key order: each key where it was first inserted. */
  function KeyOrder(items: seq<Scored>): seq<string> {
    Keys(Dedup(items, ScoredKey), ScoredKey)
  }

  /** The key order covers the dictionary: every listed key is stored, and there are no repeats. */
  lemma KeyOrderDomain(items: seq<Scored>)
    ensures forall k :: k in KeyOrder(items) <==> k in BestMap(items)
    ensures forall i, j :: 0 <= i < j < |KeyOrder(items)| ==> KeyOrder(items)[i] != KeyOrder(items)[j]
  {
    BestMapDomain(items);
    DedupDistinct(items, ScoredKey);
  }

  /** `list(song_scores.values())`: the stored records in key-insertion order. */
  function DictValues(order: seq<string>, m: map<string, Scored>): seq<Scored>
    requires forall k :: k in order ==> k in m
  {
    seq(|order|, i requires 0 <= i < |order| => m[order[i]])
  }

  /** The best record of every key, keys in first-seen order. */
  function BestPerKey(items: seq<Scored>): seq<Scored> {
    KeyOrderDomain(items);
    DictValues(KeyOrder(items), BestMap(items))
  }

  /** No key twice; exactly the keys visited, in first-seen order. */
  lemma BestPerKeyKeys(items: seq<Scored>)
    ensures DistinctKeys(BestPerKey(items), ScoredKey)
    ensures Keys(BestPerKey(items), ScoredKey) == KeyOrder(items)
    ensures forall k :: k in Keys(BestPerKey(items), ScoredKey) <==> k in Keys(items, ScoredKey)
  {
    var r := BestPerKey(items);
    KeyOrderDomain(items);
    BestMapDomain(items);
    DedupDistinct(items, ScoredKey);
    assert Keys(r, ScoredKey) == KeyOrder(items);
  }

  /** Every record kept is the first record of its key with the maximum score. */
  lemma BestPerKeyBest(items: seq<Scored>)
    ensures forall x :: x in BestPerKey(items) ==> BestOf(items, x)
  {
    KeyOrderDomain(items);
    BestMapIsFirstBest(items);
    var r := BestPerKey(items);
    forall x | x in r
      ensures BestOf(items, x)
    {
      var i :| 0 <= i < |r| && r[i] == x;
      assert KeyOrder(items)[i] in BestMap(items);
    }
  }

  // ---------------------------------------------------------------------------
  // `list.sort(key=score, reverse=True)`: a stable sort by non-increasing score

  predicate SortedDesc(s: seq<Scored>) {
    forall i, j :: 0 <= i < j < |s| ==> s[i].score >= s[j].score
  }

  /** Where `x` goes: right after the last element (from the back) scoring at least as much. */
  function InsertPos(t: seq<Scored>, x: Scored): (p: nat)
    ensures p <= |t|
    ensures p > 0 ==> t[p - 1].score >= x.score
    ensures forall i :: p <= i < |t| ==> t[i].score < x.score
  {
    if t == [] then 0
    else if t[|t| - 1].score >= x.score then |t|
    else InsertPos(t[..|t| - 1], x)
  }

  function InsertDesc(t: seq<Scored>, x: Scored): seq<Scored> {
    var p := InsertPos(t, x);
    t[..p] + [x] + t[p..]
  }

  /** Insertion sort; equal scores keep their input order. */
  function SortByScoreDesc(s: seq<Scored>): seq<Scored> {
    if s == [] then [] else InsertDesc(SortByScoreDesc(s[..|s| - 1]), s[|s| - 1])
  }

  /** Where each element of `t` lands after inserting `x`. */
  lemma InsertDescAt(t: seq<Scored>, x: Scored)
    ensures var p := InsertPos(t, x);
      var r := InsertDesc(t, x);
      && |r| == |t| + 1 && r[p] == x
      && (forall k :: 0 <= k < p ==> r[k] == t[k])
      && (forall k :: p < k < |r| ==> r[k] == t[k - 1])
  {
  }

  lemma InsertDescSorted(t: seq<Scored>, x: Scored)
    requires SortedDesc(t)
    ensures SortedDesc(InsertDesc(t, x))
  {
    var p := InsertPos(t, x);
    var r := InsertDesc(t, x);
    InsertDescAt(t, x);
    forall i, j | 0 <= i < j < |r| ensures r[i].score >= r[j].score {
      if i < p && j == p {
        assert t[i].score >= t[p - 1].score;
      }
    }
  }

  lemma InsertDescMultiset(t: seq<Scored>, x: Scored)
    ensures multiset(InsertDesc(t, x)) == multiset(t) + multiset{x}
  {
    var p := InsertPos(t, x);
    assert t == t[..p] + t[p..];
  }

  /** The sort is a permutation whose scores never increase. */
  lemma {:induction false} SortByScoreDescSpec(s: seq<Scored>)
    ensures SortedDesc(SortByScoreDesc(s))
    ensures multiset(SortByScoreDesc(s)) == multiset(s)
  {
    if s != [] {
      var init := s[..|s| - 1];
      SortByScoreDescSpec(init);
      InsertDescSorted(SortByScoreDesc(init), s[|s| - 1]);
      InsertDescMultiset(SortByScoreDesc(init), s[|s| - 1]);
      assert s == init + [s[|s| - 1]];
    }
  }

  /** The elements scoring exactly `v`, in order. */
  function WithScore(s: seq<Scored>, v: int): seq<Scored> {
    if s == [] then []
    else WithScore(s[..|s| - 1], v) + (if s[|s| - 1].score == v then [s[|s| - 1]] else [])
  }

  lemma {:induction false} WithScoreAppend(a: seq<Scored>, b: seq<Scored>, v: int)
    ensures WithScore(a + b, v) == WithScore(a, v) + WithScore(b, v)
  {
    if b != [] {
      var init := b[..|b| - 1];
      WithScoreAppend(a, init, v);
      assert a + b != [];
      assert (a + b)[..|a + b| - 1] == a + init;
      assert (a + b)[|a + b| - 1] == b[|b| - 1];
    } else {
      assert a + b == a;
    }
  }

  lemma {:induction false} WithScoreNone(s: seq<Scored>, v: int)
    requires forall i :: 0 <= i < |s| ==> s[i].score < v
    ensures WithScore(s, v) == []
  {
    if s != [] {
      WithScoreNone(s[..|s| - 1], v);
    }
  }

  lemma WithScoreSnoc(s: seq<Scored>, x: Scored, v: int)
    ensures WithScore(s + [x], v) == WithScore(s, v) + (if x.score == v then [x] else [])
  {
    assert (s + [x])[..|s|] == s;
  }

  /** Two appended parts of which one is empty can be appended in either order. */
  lemma Regroup<T>(a: seq<T>, b: seq<T>, c: seq<T>)
    requires b == [] || c == []
    ensures (a + b) + c == (a + c) + b
  {
    if b == [] {
      assert a + b == a;
    } else {
      assert a + c == a;
    }
  }

  /** The elements scoring `v` on either side of a cut. */
  lemma WithScoreSplitAt(t: seq<Scored>, p: nat, v: int)
    requires p <= |t|
    ensures WithScore(t, v) == WithScore(t[..p], v) + WithScore(t[p..], v)
  {
    assert t == t[..p] + t[p..];
    WithScoreAppend(t[..p], t[p..], v);
  }

  /** After insertion: the front's elements scoring `v`, then `x` if it does, then the back's. */
  lemma InsertDescWithScore(t: seq<Scored>, x: Scored, v: int)
    ensures var p := InsertPos(t, x);
      WithScore(InsertDesc(t, x), v) ==
        (WithScore(t[..p], v) + (if x.score == v then [x] else [])) + WithScore(t[p..], v)
  {
    var p := InsertPos(t, x);
    assert InsertDesc(t, x) == (t[..p] + [x]) + t[p..];
    WithScoreAppend(t[..p] + [x], t[p..], v);
    WithScoreSnoc(t[..p], x, v);
  }

  /** Nothing behind the insertion point scores as much as `x`. */
  lemma InsertDescBackBelow(t: seq<Scored>, x: Scored)
    ensures WithScore(t[InsertPos(t, x)..], x.score) == []
  {
    var p := InsertPos(t, x);
    var back := t[p..];
    forall i | 0 <= i < |back| ensures back[i].score < x.score {
      assert back[i] == t[p + i];
    }
    WithScoreNone(back, x.score);
  }

  lemma InsertDescStable(t: seq<Scored>, x: Scored, v: int)
    ensures WithScore(InsertDesc(t, x), v) == WithScore(t, v) + (if x.score == v then [x] else [])
  {
    var p := InsertPos(t, x);
    InsertDescWithScore(t, x, v);
    WithScoreSplitAt(t, p, v);
    if x.score == v {
      InsertDescBackBelow(t, x);
    }
    Regroup(WithScore(t[..p], v), if x.score == v then [x] else [], WithScore(t[p..], v));
  }

  /** Stability: the elements of each score keep their relative input order. */
  lemma {:induction false} SortByScoreDescStable(s: seq<Scored>, v: int)
    ensures WithScore(SortByScoreDesc(s), v) == WithScore(s, v)
  {
    if s != [] {
      var init := s[..|s| - 1];
      SortByScoreDescStable(init, v);
      InsertDescStable(SortByScoreDesc(init), s[|s| - 1], v);
    }
  }

  lemma InsertDescDistinct(t: seq<Scored>, x: Scored)
    requires DistinctKeys(t, ScoredKey)
    requires forall i :: 0 <= i < |t| ==> ScoredKey(t[i]) != ScoredKey(x)
    ensures DistinctKeys(InsertDesc(t, x), ScoredKey)
  {
    var p := InsertPos(t, x);
    var r := InsertDesc(t, x);
    InsertDescAt(t, x);
    forall i, j | 0 <= i < j < |r| ensures ScoredKey(r[i]) != ScoredKey(r[j]) {
      var ti := if i < p then i else i - 1;
      var tj := if j < p then j else j - 1;
      if i != p && j != p {
        assert r[i] == t[ti] && r[j] == t[tj];
      } else if i == p {
        assert r[j] == t[tj];
      } else {
        assert r[i] == t[ti];
      }
    }
  }

  /** Sorting keeps keys distinct. */
  lemma {:induction false} SortByScoreDescDistinct(s: seq<Scored>)
    requires DistinctKeys(s, ScoredKey)
    ensures DistinctKeys(SortByScoreDesc(s), ScoredKey)
  {
    if s != [] {
      var init := s[..|s| - 1];
      var x := s[|s| - 1];
      var t := SortByScoreDesc(init);
      SortByScoreDescDistinct(init);
      SortByScoreDescSpec(init);
      forall i | 0 <= i < |t| ensures ScoredKey(t[i]) != ScoredKey(x) {
        assert t[i] in multiset(init);
        var k :| 0 <= k < |init| && init[k] == t[i];
        assert s[k] == init[k];
      }
      InsertDescDistinct(t, x);
    }
  }

  // ---------------------------------------------------------------------------
  // _evaluate_candidates_with_llm

  /** What `_evaluate_candidates_with_llm` returns for the gathered per-stage results. */
  function Aggregate(stages: seq<Stage>, results: seq<Fetch<seq<Evaluation>>>): seq<Scored>
    requires |results| == |stages|
  {
    SortByScoreDesc(BestPerKey(Flattened(stages, results, |stages|)))
  }

  /**
   * Visiting one more record writes it under its key when the key is new or
   * its score strictly higher, and a new key joins the end of the key order.
   */
  lemma VisitStep(prefix: seq<Scored>, x: Scored)
    ensures var m := BestMap(prefix); var k := ScoredKey(x);
      BestMap(prefix + [x]) == (if k !in m || x.score > m[k].score then m[k := x] else m)
    ensures KeyOrder(prefix + [x]) ==
      if ScoredKey(x) !in BestMap(prefix) then KeyOrder(prefix) + [ScoredKey(x)] else KeyOrder(prefix)
  {
    assert (prefix + [x])[..|prefix|] == prefix;
    BestMapDomain(prefix);
    DedupDistinct(prefix, ScoredKey);
    AppendUnseenSnoc([], prefix, x, ScoredKey);
    KeysAppend(Dedup(prefix, ScoredKey), x, ScoredKey);
  }

  /**
   * The inner loop of `_evaluate_candidates_with_llm` over one stage's records:
   * each is written under its key when the key is new or its score strictly
   * higher than the stored one.
   */
  method MergeStage(songScores: map<string, Scored>, order: seq<string>, ghost before: seq<Scored>,
                    evals: seq<Evaluation>, stageNumber: int)
    returns (songScores': map<string, Scored>, order': seq<string>)
    requires songScores == BestMap(before)
    requires order == KeyOrder(before)
    ensures songScores' == BestMap(before + Tag(evals, stageNumber))
    ensures order' == KeyOrder(before + Tag(evals, stageNumber))
  {
    songScores', order' := songScores, order;
    ghost var tagged := Tag(evals, stageNumber);
    assert before + tagged[..0] == before;
    var j := 0;
    while j < |evals|
      invariant 0 <= j <= |evals|
      invariant songScores' == BestMap(before + tagged[..j])
      invariant order' == KeyOrder(before + tagged[..j])
    {
      var e := evals[j];
      var artist := e.artist.GetOr("");
      var title := e.title.GetOr("");
      var score := e.score.GetOr(0);
      var reason := e.reason.GetOr("");
      var key := TrackKey(artist, title);
      var item := Scored(artist, title, score, reason, stageNumber);
      assert item == tagged[j];
      assert (before + tagged[..j]) + [item] == before + tagged[..j + 1];
      songScores', order' := VisitRecord(songScores', order', before + tagged[..j], key, item);
      j := j + 1;
    }
    assert tagged[..|evals|] == tagged;
  }

  /** The body of the inner loop: the record is written under its key when new or strictly better. */
  method VisitRecord(songScores: map<string, Scored>, order: seq<string>, ghost prefix: seq<Scored>,
                     key: string, item: Scored)
    returns (songScores': map<string, Scored>, order': seq<string>)
    requires songScores == BestMap(prefix) && order == KeyOrder(prefix)
    requires key == ScoredKey(item)
    ensures songScores' == BestMap(prefix + [item])
    ensures order' == KeyOrder(prefix + [item])
  {
    VisitStep(prefix, item);
    songScores', order' := songScores, order;
    if key !in songScores' || item.score > songScores'[key].score {
      if key !in songScores' {
        order' := order' + [key];
      }
      songScores' := songScores'[key := item];
    }
  }

  /** One pass of the stage loop: a stage that raised or returned nothing is skipped, another merged. */
  method MergeResult(stages: seq<Stage>, results: seq<Fetch<seq<Evaluation>>>, idx: nat,
                     songScores: map<string, Scored>, order: seq<string>)
    returns (songScores': map<string, Scored>, order': seq<string>)
    requires |results| == |stages| && idx < |stages|
    requires songScores == BestMap(Flattened(stages, results, idx))
    requires order == KeyOrder(Flattened(stages, results, idx))
    ensures songScores' == BestMap(Flattened(stages, results, idx + 1))
    ensures order' == KeyOrder(Flattened(stages, results, idx + 1))
  {
    FlattenedSnoc(stages, results, idx);
    songScores', order' := songScores, order;
    if results[idx].Fetched? && results[idx].items != [] {
      var stageNumber := stages[idx].step.GetOr(idx + 1);
      songScores', order' := MergeStage(songScores, order, Flattened(stages, results, idx),
                                        results[idx].items, stageNumber);
    }
  }

  /** The stage loop of `_evaluate_candidates_with_llm`, over the stages in order. */
  method CollectScores(stages: seq<Stage>, results: seq<Fetch<seq<Evaluation>>>)
    returns (songScores: map<string, Scored>, order: seq<string>)
    requires |results| == |stages|
    ensures songScores == BestMap(Flattened(stages, results, |stages|))
    ensures order == KeyOrder(Flattened(stages, results, |stages|))
  {
    songScores, order := map[], [];
    var idx := 0;
    while idx < |results|
      invariant 0 <= idx <= |results|
      invariant songScores == BestMap(Flattened(stages, results, idx))
      invariant order == KeyOrder(Flattened(stages, results, idx))
    {
      songScores, order := MergeResult(stages, results, idx, songScores, order);
      idx := idx + 1;
    }
  }

  /**
   * `_evaluate_candidates_with_llm` over the gathered per-stage results (one
   * per stage, in stage order): every key keeps its best record, and the
   * list of values is sorted by score, stably.
   */
  method EvaluateCandidatesWithLlm(stages: seq<Stage>, results: seq<Fetch<seq<Evaluation>>>)
    returns (scored: seq<Scored>)
    requires |results| == |stages|
    ensures scored == Aggregate(stages, results)
  {
    var songScores, order := CollectScores(stages, results);
    KeyOrderDomain(Flattened(stages, results, |stages|));
    var values := DictValues(order, songScores);
    scored := SortByScoreDesc(values);
  }

  /** Sorting keeps exactly the same elements. */
  lemma SortByScoreDescMembers(s: seq<Scored>)
    ensures forall x :: x in SortByScoreDesc(s) <==> x in s
  {
    SortByScoreDescSpec(s);
    forall x ensures x in SortByScoreDesc(s) <==> x in s {
      assert x in SortByScoreDesc(s) <==> x in multiset(SortByScoreDesc(s));
      assert x in s <==> x in multiset(s);
    }
  }

  /** The aggregate holds each key once and is sorted by non-increasing score. */
  lemma AggregateDistinctSorted(stages: seq<Stage>, results: seq<Fetch<seq<Evaluation>>>)
    requires |results| == |stages|
    ensures DistinctKeys(Aggregate(stages, results), ScoredKey)
    ensures SortedDesc(Aggregate(stages, results))
  {
    var b := BestPerKey(Flattened(stages, results, |stages|));
    BestPerKeyKeys(Flattened(stages, results, |stages|));
    SortByScoreDescSpec(b);
    SortByScoreDescDistinct(b);
  }

  /** The aggregate holds exactly the keys some stage that did not raise evaluated. */
  lemma AggregateKeys(stages: seq<Stage>, results: seq<Fetch<seq<Evaluation>>>)
    requires |results| == |stages|
    ensures forall k :: k in Keys(Aggregate(stages, results), ScoredKey) <==>
      k in Keys(Flattened(stages, results, |stages|), ScoredKey)
  {
    var items := Flattened(stages, results, |stages|);
    var b := BestPerKey(items);
    var r := Aggregate(stages, results);
    BestPerKeyKeys(items);
    SortByScoreDescMembers(b);
    forall k | k in Keys(r, ScoredKey) ensures k in Keys(b, ScoredKey) {
      var i :| 0 <= i < |r| && Keys(r, ScoredKey)[i] == k;
      assert r[i] in b;
      var j :| 0 <= j < |b| && b[j] == r[i];
      assert Keys(b, ScoredKey)[j] == k;
    }
    forall k | k in Keys(b, ScoredKey) ensures k in Keys(r, ScoredKey) {
      var j :| 0 <= j < |b| && Keys(b, ScoredKey)[j] == k;
      assert b[j] in r;
      var i :| 0 <= i < |r| && r[i] == b[j];
      assert Keys(r, ScoredKey)[i] == k;
    }
  }

  /**
   * Every aggregated record is the first record of its key with the maximum
   * score over all stages, so a tie keeps the earlier stage's record.
   */
  lemma AggregateBest(stages: seq<Stage>, results: seq<Fetch<seq<Evaluation>>>)
    requires |results| == |stages|
    ensures forall x :: x in Aggregate(stages, results) ==> BestOf(Flattened(stages, results, |stages|), x)
  {
    var items := Flattened(stages, results, |stages|);
    BestPerKeyBest(items);
    SortByScoreDescMembers(BestPerKey(items));
  }

  /** When no stage produced a record, nothing is scored. */
  lemma {:induction false} AggregateEmpty(stages: seq<Stage>, results: seq<Fetch<seq<Evaluation>>>)
    requires |results| == |stages|
    requires forall i :: 0 <= i < |results| ==> results[i] == Failed || results[i] == Fetched([])
    ensures Aggregate(stages, results) == []
  {
    var n := |stages|;
    assert Flattened(stages, results, n) == [] by {
      var k := 0;
      while k < n
        invariant 0 <= k <= n
        invariant Flattened(stages, results, k) == []
      {
        k := k + 1;
      }
    }
  }

  /**
   * With the evaluator as written every stage either raises or (for an empty
   * pool) returns `[]`, so nothing is ever scored.
   */
  lemma AggregateAsWritten(stages: seq<Stage>, candidates: seq<Candidate>)
    ensures Aggregate(stages, seq(|stages|, _ => LlmEvaluateStage(candidates))) == []
  {
    AggregateEmpty(stages, seq(|stages|, _ => LlmEvaluateStage(candidates)));
  }

  /**
   * `_llm_evaluate_stage` as evidently intended, with the system prompt
   * defined: `[]` for an empty pool, otherwise the `evaluations` of the
   * model's reply, or `[]` when the request or its parsing raised (`None`).
   */
  function EvaluateStage(candidates: seq<Candidate>, reply: Option<seq<Evaluation>>): Fetch<seq<Evaluation>> {
    if candidates == [] then Fetched([])
    else if reply.None? then Fetched([])
    else Fetched(reply.value)
  }

  /** The stage results of the intended evaluator, one reply per stage. */
  function IntendedResults(stages: seq<Stage>, candidates: seq<Candidate>, replies: seq<Option<seq<Evaluation>>>): (r: seq<Fetch<seq<Evaluation>>>)
    requires |replies| == |stages|
    ensures |r| == |stages|
  {
    seq(|stages|, i requires 0 <= i < |stages| => EvaluateStage(candidates, replies[i]))
  }

  /**
   * With the intended evaluator something is scored exactly when the pool is
   * non-empty and some stage's reply lists at least one evaluation.
   */
  lemma IntendedEvaluatorScores(stages: seq<Stage>, candidates: seq<Candidate>, replies: seq<Option<seq<Evaluation>>>)
    requires |replies| == |stages|
    ensures Aggregate(stages, IntendedResults(stages, candidates, replies)) != [] <==>
      candidates != [] && exists i :: 0 <= i < |replies| && replies[i].Some? && replies[i].value != []
  {
    if candidates != [] && exists i :: 0 <= i < |replies| && replies[i].Some? && replies[i].value != [] {
      var i :| 0 <= i < |replies| && replies[i].Some? && replies[i].value != [];
      IntendedScoresReply(stages, candidates, replies, i);
    }
    if Aggregate(stages, IntendedResults(stages, candidates, replies)) != [] {
      var i := IntendedScoredReply(stages, candidates, replies);
    }
  }

  /** A non-empty pool and one non-empty reply are enough for something to be scored. */
  lemma IntendedScoresReply(stages: seq<Stage>, candidates: seq<Candidate>, replies: seq<Option<seq<Evaluation>>>, i: nat)
    requires |replies| == |stages| && i < |replies|
    requires candidates != [] && replies[i].Some? && replies[i].value != []
    ensures Aggregate(stages, IntendedResults(stages, candidates, replies)) != []
  {
    var results := IntendedResults(stages, candidates, replies);
    var items := Flattened(stages, results, |stages|);
    var agg := Aggregate(stages, results);
    AggregateKeys(stages, results);
    var e := replies[i].value[0];
    var x := ToScored(e, StageNumberAt(stages, i));
    assert results[i] == Fetched(replies[i].value);
    assert e in results[i].items;
    FlattenedHas(stages, results, |stages|, i, e);
    var j :| 0 <= j < |items| && items[j] == x;
    assert Keys(items, ScoredKey)[j] == ScoredKey(x);
    assert ScoredKey(x) in Keys(agg, ScoredKey);
  }

  /** Whatever is scored comes from a non-empty pool and the non-empty reply of some stage. */
  lemma IntendedScoredReply(stages: seq<Stage>, candidates: seq<Candidate>, replies: seq<Option<seq<Evaluation>>>)
    returns (i: nat)
    requires |replies| == |stages|
    requires Aggregate(stages, IntendedResults(stages, candidates, replies)) != []
    ensures i < |replies| && candidates != [] && replies[i].Some? && replies[i].value != []
  {
    var results := IntendedResults(stages, candidates, replies);
    var items := Flattened(stages, results, |stages|);
    var agg := Aggregate(stages, results);
    AggregateKeys(stages, results);
    assert Keys(agg, ScoredKey)[0] in Keys(agg, ScoredKey);
    var k := Keys(agg, ScoredKey)[0];
    var j :| 0 <= j < |items| && Keys(items, ScoredKey)[j] == k;
    assert items[j] in items;
    var idx, e := FlattenedSource(stages, results, |stages|, items[j]);
    assert candidates != [] && replies[idx].Some? && replies[idx].value != [];
    i := idx;
  }
}
