/**
 * First-seen deduplication by a string key, the idiom the pipeline uses three
 * times: a `seen` set (or a list of existing keys) consulted before each append.
 */
module Unique {

  /** The key of every element, position by position. */
  function Keys<T>(s: seq<T>, key: T -> string): (r: seq<string>)
    ensures |r| == |s|
    ensures forall i :: 0 <= i < |s| ==> r[i] == key(s[i])
  {
    seq(|s|, i requires 0 <= i < |s| => key(s[i]))
  }

  lemma KeysAppend<T>(s: seq<T>, x: T, key: T -> string)
    ensures Keys(s + [x], key) == Keys(s, key) + [key(x)]
  {
  }

  predicate DistinctKeys<T>(s: seq<T>, key: T -> string) {
    forall i, j :: 0 <= i < j < |s| ==> key(s[i]) != key(s[j])
  }

  /**
   * Appends to `acc`, in the order of `s`, every element of `s` whose key is
   * not yet among the keys collected so far (those of `acc` and of what was
   * already appended). `acc` itself is kept as it is, duplicates included.
   */
  function AppendUnseen<T>(acc: seq<T>, s: seq<T>, key: T -> string): (r: seq<T>)
    ensures |acc| <= |r| <= |acc| + |s|
    ensures r[..|acc|] == acc
    decreases |s|
  {
    if s == [] then acc
    else
      var d := AppendUnseen(acc, s[..|s| - 1], key);
      if key(s[|s| - 1]) in Keys(d, key) then d else d + [s[|s| - 1]]
  }

  /** The elements of `s` with every repeated key dropped after its first occurrence. */
  function Dedup<T>(s: seq<T>, key: T -> string): seq<T> {
    AppendUnseen([], s, key)
  }

  /** One more element: it is appended exactly when its key is new. */
  lemma AppendUnseenSnoc<T>(acc: seq<T>, s: seq<T>, x: T, key: T -> string)
    ensures AppendUnseen(acc, s + [x], key) ==
      var d := AppendUnseen(acc, s, key);
      if key(x) in Keys(d, key) then d else d + [x]
  {
    assert (s + [x])[..|s|] == s;
  }

  /** Position `j` holds the first occurrence of its key in `s`. */
  predicate IsFirst<T>(s: seq<T>, j: nat, key: T -> string)
    requires j < |s|
  {
    key(s[j]) !in Keys(s[..j], key)
  }

  /** Reference definition: the elements of `s` at first-occurrence positions, in order. */
  function FirstOccurrences<T>(s: seq<T>, key: T -> string): seq<T> {
    if s == [] then []
    else FirstOccurrences(s[..|s| - 1], key) + (if IsFirst(s, |s| - 1, key) then [s[|s| - 1]] else [])
  }

  /**
   * What `AppendUnseen` adds: only elements of `s`, none with a key already in
   * `acc`, no two with one key; and every key of `acc` or `s` ends up present.
   */
  lemma {:induction false} AppendUnseenKeys<T>(acc: seq<T>, s: seq<T>, key: T -> string)
    ensures forall k :: k in Keys(AppendUnseen(acc, s, key), key) <==> k in Keys(acc, key) || k in Keys(s, key)
    ensures forall i :: |acc| <= i < |AppendUnseen(acc, s, key)| ==>
      AppendUnseen(acc, s, key)[i] in s && key(AppendUnseen(acc, s, key)[i]) !in Keys(acc, key)
    ensures DistinctKeys(AppendUnseen(acc, s, key)[|acc|..], key)
    decreases |s|
  {
    if s != [] {
      var init := s[..|s| - 1];
      var x := s[|s| - 1];
      var d := AppendUnseen(acc, init, key);
      AppendUnseenKeys(acc, init, key);
      assert s == init + [x];
      KeysAppend(init, x, key);
      if key(x) !in Keys(d, key) {
        KeysAppend(d, x, key);
        var r := d + [x];
        forall i, j | |acc| <= i < j < |r| ensures key(r[i]) != key(r[j]) {
          assert r[i] == d[i];
          if j == |d| {
            assert r[j] == x;
            assert Keys(d, key)[i] == key(d[i]);
            assert Keys(d, key)[i] in Keys(d, key);
          } else {
            assert r[j] == d[j];
            assert d[|acc|..][i - |acc|] == d[i];
            assert d[|acc|..][j - |acc|] == d[j];
          }
        }
      }
    }
  }

  /** What `AppendUnseenKeys` says of the appended part holds of every prefix of the result. */
  lemma AppendUnseenPrefixFresh<T>(acc: seq<T>, s: seq<T>, key: T -> string, n: nat)
    requires n <= |AppendUnseen(acc, s, key)|
    ensures var r := AppendUnseen(acc, s, key)[..n];
      && (forall i :: |acc| <= i < |r| ==> r[i] in s && key(r[i]) !in Keys(acc, key))
      && (forall i, j :: |acc| <= i < j < |r| ==> key(r[i]) != key(r[j]))
  {
    var merged := AppendUnseen(acc, s, key);
    var r := merged[..n];
    AppendUnseenKeys(acc, s, key);
    forall i, j | |acc| <= i < j < |r| ensures key(r[i]) != key(r[j]) {
      assert r[i] == merged[|acc|..][i - |acc|];
      assert r[j] == merged[|acc|..][j - |acc|];
    }
  }

  /** Deduplication leaves no two elements with the same key. */
  lemma DedupDistinct<T>(s: seq<T>, key: T -> string)
    ensures DistinctKeys(Dedup(s, key), key)
    ensures forall k :: k in Keys(Dedup(s, key), key) <==> k in Keys(s, key)
    ensures forall x :: x in Dedup(s, key) ==> x in s
  {
    AppendUnseenKeys([], s, key);
    var r := Dedup(s, key);
    assert r == AppendUnseen([], s, key);
    assert r[0..] == r;
    forall x | x in r ensures x in s {
      var i :| 0 <= i < |r| && r[i] == x;
    }
  }

  /** `Dedup` keeps exactly the first occurrence of every key, in first-seen order. */
  lemma {:induction false} DedupIsFirstOccurrences<T>(s: seq<T>, key: T -> string)
    ensures Dedup(s, key) == FirstOccurrences(s, key)
    decreases |s|
  {
    if s != [] {
      var init := s[..|s| - 1];
      DedupIsFirstOccurrences(init, key);
      DedupDistinct(init, key);
      assert s[..|s| - 1] == init;
    }
  }
}
