/**
 * Locating a JSON text in a model's reply by bracket search, as
 * `extract_json_from_response` of `hyukebox/server.py` does. The fenced-block
 * regular expression and `json.loads` are not modelled: the fenced match is
 * an input, and the result is the text handed to `json.loads`.
 */
module JsonExtract {
  import opened Wrappers
  import opened Text

  /** Some `close` bracket comes after some `open` bracket. */
  predicate CloseAfterOpen(text: string, open: char, close: char) {
    exists i, j :: 0 <= i < j < |text| && text[i] == open && text[j] == close
  }

  /**
   * The bracket search in terms of positions: a `close` comes after an `open`
   * exactly when the last `close` comes after the first `open`.
   */
  lemma CloseAfterOpenFindRFind(text: string, open: char, close: char)
    requires open != close
    ensures CloseAfterOpen(text, open, close) <==> Find(text, open) >= 0 && RFind(text, close) > Find(text, open)
  {
    var s := Find(text, open);
    var e := RFind(text, close);
    if CloseAfterOpen(text, open, close) {
      var i, j :| 0 <= i < j < |text| && text[i] == open && text[j] == close;
      assert text[i] in text;
      assert forall m :: 0 <= m < s ==> text[..s][m] == text[m];
      assert forall m :: e < m < |text| ==> text[e + 1..][m - e - 1] == text[m];
    }
    if s >= 0 && e > s {
      assert text[s] == open && text[e] == close;
    }
  }

  /**
   * The outermost bracketed span: `text` is `before + span + after`, where
   * `span` runs from an `open` to a `close`, `before` holds no `open` and
   * `after` holds no `close`.
   */
  ghost predicate OutermostSpan(text: string, span: string, open: char, close: char) {
    && |span| >= 2 && span[0] == open && span[|span| - 1] == close
    && exists a, b :: text == a + span + b && open !in a && close !in b
  }

  /** The slice from the first `open` to the last `close` is the outermost span. */
  lemma SliceIsOutermost(text: string, open: char, close: char)
    requires Find(text, open) >= 0 && RFind(text, close) > Find(text, open)
    ensures OutermostSpan(text, text[Find(text, open)..RFind(text, close) + 1], open, close)
  {
    SpanBetween(text, open, close, Find(text, open), RFind(text, close));
  }

  lemma SpanBetween(text: string, open: char, close: char, s: nat, e: nat)
    requires s < e < |text| && text[s] == open && text[e] == close
    requires open !in text[..s] && close !in text[e + 1..]
    ensures OutermostSpan(text, text[s..e + 1], open, close)
  {
    var span := text[s..e + 1];
    var a, b := text[..s], text[e + 1..];
    assert text == a + span + b;
  }

  /** An occurrence with none before it is the one `find` reports. */
  lemma FindAt(text: string, c: char, k: nat)
    requires k < |text| && text[k] == c && c !in text[..k]
    ensures Find(text, c) == k
  {
    var f := Find(text, c);
    assert text[k] in text;
    assert forall m :: 0 <= m < k ==> text[..k][m] == text[m];
    assert forall m :: 0 <= m < f ==> text[..f][m] == text[m];
  }

  /** An occurrence with none after it is the one `rfind` reports. */
  lemma RFindAt(text: string, c: char, k: nat)
    requires k < |text| && text[k] == c && c !in text[k + 1..]
    ensures RFind(text, c) == k
  {
    var g := RFind(text, c);
    assert text[k] in text;
    assert forall m :: k < m < |text| ==> text[k + 1..][m - k - 1] == text[m];
    assert forall m :: g < m < |text| ==> text[g + 1..][m - g - 1] == text[m];
  }

  /** The three pieces of `a + m + b` are its slices, and the ends of `m` sit at `|a|` and `|a| + |m| - 1`. */
  lemma Pieces(a: string, m: string, b: string)
    requires |m| >= 1
    ensures (a + m + b)[..|a|] == a
    ensures (a + m + b)[|a|..|a| + |m|] == m
    ensures (a + m + b)[|a| + |m|..] == b
    ensures (a + m + b)[|a|] == m[0] && (a + m + b)[|a| + |m| - 1] == m[|m| - 1]
  {
  }

  /** The outermost span is unique: it is the slice from the first `open` to the last `close`. */
  lemma OutermostSpanUnique(text: string, span: string, open: char, close: char)
    requires OutermostSpan(text, span, open, close)
    ensures Find(text, open) >= 0 && RFind(text, close) > Find(text, open)
    ensures span == text[Find(text, open)..RFind(text, close) + 1]
  {
    var a, b :| text == a + span + b && open !in a && close !in b;
    var s := |a|;
    var e := |a| + |span| - 1;
    Pieces(a, span, b);
    FindAt(text, open, s);
    RFindAt(text, close, e);
  }

  /**
   * `extract_json_from_response`: a fenced ```` ```json ```` block's object when
   * one matched (`fenced`), else the slice from the first `{` to the last `}`
   * when that `}` comes after the `{`, else the `ValueError`.
   */
  function ExtractJsonFromResponse(text: string, fenced: Option<string>): (r: Result<string, string>)
    ensures fenced.Some? ==> r == Success(fenced.value)
    ensures fenced.None? ==> (r.Success? <==> CloseAfterOpen(text, '{', '}'))
    ensures fenced.None? && r.Success? ==> OutermostSpan(text, r.value, '{', '}')
    ensures r.Failure? ==> r.error == NoJson
  {
    if fenced.Some? then Success(fenced.value) else BraceSlice(text)
  }

  const NoJson := "No valid JSON found in response"

  /** The bracket search of `extract_json_from_response`, used when no fenced block matched. */
  function BraceSlice(text: string): (r: Result<string, string>)
    ensures r.Success? <==> CloseAfterOpen(text, '{', '}')
    ensures r.Success? ==> OutermostSpan(text, r.value, '{', '}')
    ensures r.Failure? ==> r.error == NoJson
  {
    var braceStart := Find(text, '{');
    var braceEnd := RFind(text, '}') + 1;
    if braceStart != -1 && braceEnd > braceStart then
      CloseAfterOpenFindRFind(text, '{', '}');
      SliceIsOutermost(text, '{', '}');
      Success(text[braceStart..braceEnd])
    else
      CloseAfterOpenFindRFind(text, '{', '}');
      Failure(NoJson)
  }
}
