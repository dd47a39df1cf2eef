/**
 * Candidate pooling of `hyukebox/server.py`: one keyword's search
 * (`search_candidates_for_keyword`) and the merge of every keyword's hits
 * (`_search_candidates_for_narrative`). The outbound Last.fm calls are inputs:
 * each is `Failed` (it raised, or its payload lacked the expected keys) or
 * `Fetched` with the tracks it listed.
 */
module Candidates {
  import opened Wrappers
  import opened Text
  import opened Unique
  import opened Records

  /** Below this many tag hits the free-text search is consulted. */
  const TextSearchThreshold := 10
  /** The limit `_search_candidates_for_narrative` passes for every keyword. */
  const KeywordLimit := 15

  /** What the tag lookup contributes: its tracks cut to `limit`, nothing if it failed. */
  function TagHits(tag: Fetch<seq<Candidate>>, limit: int): seq<Candidate> {
    match tag
    case Failed => []
    case Fetched(tracks) => PyPrefix(tracks, limit)
  }

  function TextHits(text: Fetch<seq<Candidate>>): seq<Candidate> {
    match text
    case Failed => []
    case Fetched(tracks) => tracks
  }

  /** The candidates one keyword yields, as a function of the two sub-call outcomes. */
  function KeywordCandidates(tag: Fetch<seq<Candidate>>, text: Fetch<seq<Candidate>>, limit: int): seq<Candidate> {
    var first := TagHits(tag, limit);
    var merged := if |first| < TextSearchThreshold then AppendUnseen(first, TextHits(text), CandidateKey) else first;
    PyPrefix(merged, limit)
  }

  /**
   * `search_candidates_for_keyword`: the tag hits in order (not deduplicated
   * among themselves), then, when fewer than 10, every text-search hit whose
   * key is not yet present, all cut to `limit`.
   */
  method SearchCandidatesForKeyword(tag: Fetch<seq<Candidate>>, text: Fetch<seq<Candidate>>, limit: int)
    returns (r: seq<Candidate>)
    ensures r == KeywordCandidates(tag, text, limit)
  {
    var candidates: seq<Candidate> := [];
    if tag.Fetched? {
      var tracks := PyPrefix(tag.items, limit);
      var i := 0;
      while i < |tracks|
        invariant 0 <= i <= |tracks|
        invariant candidates == tracks[..i]
      {
        candidates := candidates + [tracks[i]];
        i := i + 1;
      }
    }
    assert candidates == TagHits(tag, limit);
    if |candidates| < TextSearchThreshold && text.Fetched? {
      candidates := AddTextHits(candidates, text.items);
    }
    r := PyPrefix(candidates, limit);
  }

  /** The text-search loop: each hit whose key is not yet present is appended. */
  method AddTextHits(first: seq<Candidate>, tracks: seq<Candidate>) returns (candidates: seq<Candidate>)
    ensures candidates == AppendUnseen(first, tracks, CandidateKey)
  {
    candidates := first;
    var i := 0;
    while i < |tracks|
      invariant 0 <= i <= |tracks|
      invariant candidates == AppendUnseen(first, tracks[..i], CandidateKey)
    {
      candidates := AppendIfNewKey(candidates, first, tracks[..i], tracks[i]);
      assert tracks[..i + 1] == tracks[..i] + [tracks[i]];
      i := i + 1;
    }
    assert tracks[..|tracks|] == tracks;
  }

  /** One step of the text-search loop: the hit is appended when no present candidate has its key. */
  method AppendIfNewKey(candidates: seq<Candidate>, ghost first: seq<Candidate>, ghost done: seq<Candidate>, track: Candidate)
    returns (candidates': seq<Candidate>)
    requires candidates == AppendUnseen(first, done, CandidateKey)
    ensures candidates' == AppendUnseen(first, done + [track], CandidateKey)
  {
    var key := CandidateKey(track);
    var existingKeys := Keys(candidates, CandidateKey);
    AppendUnseenSnoc(first, done, track, CandidateKey);
    if key !in existingKeys {
      candidates' := candidates + [track];
    } else {
      candidates' := candidates;
    }
  }

  /** One keyword never yields more than `limit` candidates. */
  lemma KeywordCandidatesBound(tag: Fetch<seq<Candidate>>, text: Fetch<seq<Candidate>>, limit: int)
    requires limit >= 0
    ensures |KeywordCandidates(tag, text, limit)| <= limit
  {
  }

  /** With at least 10 tag hits the text search's outcome does not matter. */
  lemma KeywordTextSearchUnused(tag: Fetch<seq<Candidate>>, text1: Fetch<seq<Candidate>>,
                                text2: Fetch<seq<Candidate>>, limit: int)
    requires |TagHits(tag, limit)| >= TextSearchThreshold
    ensures KeywordCandidates(tag, text1, limit) == KeywordCandidates(tag, text2, limit)
  {
  }

  /** The tag hits lead the result, in their order and with their duplicates. */
  lemma KeywordTagHitsLead(tag: Fetch<seq<Candidate>>, text: Fetch<seq<Candidate>>, limit: int)
    ensures var r := KeywordCandidates(tag, text, limit);
      var first := TagHits(tag, limit);
      if |first| <= |r| then r[..|first|] == first else r == first[..|r|]
  {
    var first := TagHits(tag, limit);
    if |first| < TextSearchThreshold {
      var merged := AppendUnseen(first, TextHits(text), CandidateKey);
      assert merged[..|first|] == first;
    }
  }

  /**
   * Every hit after the tag hits comes from the text search and carries a key
   * that neither the tag hits nor any other appended hit carries.
   */
  lemma KeywordFallbackFresh(tag: Fetch<seq<Candidate>>, text: Fetch<seq<Candidate>>, limit: int)
    ensures var r := KeywordCandidates(tag, text, limit);
      var first := TagHits(tag, limit);
      && (forall i :: |first| <= i < |r| ==>
            r[i] in TextHits(text) && CandidateKey(r[i]) !in Keys(first, CandidateKey))
      && (forall i, j :: |first| <= i < j < |r| ==> CandidateKey(r[i]) != CandidateKey(r[j]))
  {
    var first := TagHits(tag, limit);
    var r := KeywordCandidates(tag, text, limit);
    if |first| < TextSearchThreshold {
      var merged := AppendUnseen(first, TextHits(text), CandidateKey);
      var n := PyPrefixLength(|merged|, limit);
      AppendUnseenPrefixFresh(first, TextHits(text), CandidateKey, n);
      assert r == merged[..n];
    } else {
      assert |r| <= |first|;
    }
  }

  /** Every keyword of every stage, in stage order, duplicates kept. */
  function AllKeywords(stages: seq<Stage>): seq<string> {
    if stages == [] then []
    else AllKeywords(stages[..|stages| - 1]) + stages[|stages| - 1].keywords.GetOr([])
  }

  /** The hits of the searches that did not raise, in issue order. */
  function Successful(results: seq<Fetch<seq<Candidate>>>): seq<Candidate> {
    if results == [] then []
    else Successful(results[..|results| - 1]) + TextHits(results[|results| - 1])
  }

  /** A hit is in the merged stream exactly when some search that did not raise returned it. */
  lemma {:induction false} SuccessfulMembers(results: seq<Fetch<seq<Candidate>>>, c: Candidate)
    ensures c in Successful(results) <==>
      exists i :: 0 <= i < |results| && results[i].Fetched? && c in results[i].items
  {
    if results != [] {
      var init := results[..|results| - 1];
      var last := results[|results| - 1];
      assert Successful(results) == Successful(init) + TextHits(last);
      SuccessfulMembers(init, c);
      if c in Successful(init) {
        var i :| 0 <= i < |init| && init[i].Fetched? && c in init[i].items;
        assert results[i] == init[i];
      } else if c in TextHits(last) {
        assert last.Fetched? && c in last.items;
      }
      if exists i :: 0 <= i < |results| && results[i].Fetched? && c in results[i].items {
        var i :| 0 <= i < |results| && results[i].Fetched? && c in results[i].items;
        if i < |init| {
          assert init[i] == results[i];
          assert c in Successful(init);
        } else {
          assert c in TextHits(last);
        }
      }
    }
  }

  /** One more search: its hits, if it did not raise, follow the earlier ones. */
  lemma SuccessfulSnoc(results: seq<Fetch<seq<Candidate>>>, i: nat)
    requires i < |results|
    ensures results[i].Fetched? ==> Successful(results[..i + 1]) == Successful(results[..i]) + results[i].items
    ensures results[i].Failed? ==> Successful(results[..i + 1]) == Successful(results[..i])
  {
    assert results[..i + 1][..i] == results[..i];
    assert Successful(results[..i]) + [] == Successful(results[..i]);
  }

  /**
   * The inner loop of `_search_candidates_for_narrative`: appends each hit of
   * one search whose key is not in `seen`, and records its key.
   */
  method MergeHits(pool: seq<Candidate>, seen: set<string>, ghost before: seq<Candidate>, hits: seq<Candidate>)
    returns (pool': seq<Candidate>, seen': set<string>)
    requires pool == Dedup(before, CandidateKey)
    requires forall k :: k in seen <==> k in Keys(pool, CandidateKey)
    ensures pool' == Dedup(before + hits, CandidateKey)
    ensures forall k :: k in seen' <==> k in Keys(pool', CandidateKey)
  {
    pool', seen' := pool, seen;
    var j := 0;
    assert before + hits[..0] == before;
    while j < |hits|
      invariant 0 <= j <= |hits|
      invariant pool' == Dedup(before + hits[..j], CandidateKey)
      invariant forall k :: k in seen' <==> k in Keys(pool', CandidateKey)
    {
      pool', seen' := AddIfUnseen(pool', seen', before + hits[..j], hits[j]);
      assert before + hits[..j + 1] == (before + hits[..j]) + [hits[j]];
      j := j + 1;
    }
    assert hits[..|hits|] == hits;
  }

  /** One step of the inner loop: the hit is appended, and its key recorded, when the key is new. */
  method AddIfUnseen(pool: seq<Candidate>, seen: set<string>, ghost before: seq<Candidate>, hit: Candidate)
    returns (pool': seq<Candidate>, seen': set<string>)
    requires pool == Dedup(before, CandidateKey)
    requires forall k :: k in seen <==> k in Keys(pool, CandidateKey)
    ensures pool' == Dedup(before + [hit], CandidateKey)
    ensures forall k :: k in seen' <==> k in Keys(pool', CandidateKey)
  {
    var key := CandidateKey(hit);
    AppendUnseenSnoc([], before, hit, CandidateKey);
    if key !in seen {
      KeysAppend(pool, hit, CandidateKey);
      pool', seen' := pool + [hit], seen + {key};
    } else {
      pool', seen' := pool, seen;
    }
  }

  /**
   * `_search_candidates_for_narrative` over the gathered search results (one
   * per keyword, in issue order): the first occurrence of every key, in
   * first-seen order; failed searches contribute nothing.
   */
  method SearchCandidatesForNarrative(stages: seq<Stage>, results: seq<Fetch<seq<Candidate>>>)
    returns (pool: seq<Candidate>)
    requires |results| == |AllKeywords(stages)|
    ensures pool == Dedup(Successful(results), CandidateKey)
  {
    pool := [];
    var seen: set<string> := {};
    var i := 0;
    while i < |results|
      invariant 0 <= i <= |results|
      invariant pool == Dedup(Successful(results[..i]), CandidateKey)
      invariant forall k :: k in seen <==> k in Keys(pool, CandidateKey)
    {
      SuccessfulSnoc(results, i);
      if results[i].Fetched? {
        pool, seen := MergeHits(pool, seen, Successful(results[..i]), results[i].items);
      }
      i := i + 1;
    }
    assert results[..|results|] == results;
  }
}
