/**
 * The list the garden shows: memories matching the search and the emotion filter,
 * sorted newest date, highest mood or highest growth first. The case-insensitive
 * search match and the date parser are inputs.
 */
module Listing {
  import opened Types
  import opened Seqs

  datatype SortBy = ByDate | ByMood | ByGrowth

  /** No emotion filter lets everything through; otherwise the emotion must equal it. */
  predicate MatchesEmotion(m: Memory, filterEmotion: Option<Emotion>) {
    filterEmotion.None? || m.input.emotion == filterEmotion.value
  }

  /** The filter a memory must pass to be shown: the search and the emotion filter together. */
  function Passes(matchesSearch: Memory -> bool, filterEmotion: Option<Emotion>): Memory -> bool {
    (m: Memory) => matchesSearch(m) && MatchesEmotion(m, filterEmotion)
  }

  /** The memories passing both the search and the emotion filter, in list order. */
  function Visible(ms: seq<Memory>, matchesSearch: Memory -> bool, filterEmotion: Option<Emotion>): (r: seq<Memory>)
    ensures Subsequence(r, ms)
    ensures |r| == CountWhere(ms, Passes(matchesSearch, filterEmotion))
    ensures forall i :: 0 <= i < |r| ==> matchesSearch(r[i]) && MatchesEmotion(r[i], filterEmotion)
    ensures forall i :: 0 <= i < |ms| && matchesSearch(ms[i]) && MatchesEmotion(ms[i], filterEmotion) ==> ms[i] in r
    ensures filterEmotion.None? && (forall i :: 0 <= i < |ms| ==> matchesSearch(ms[i])) ==> r == ms
  {
    FilterLength(ms, Passes(matchesSearch, filterEmotion));
    Filter(ms, Passes(matchesSearch, filterEmotion))
  }

  /** The key a memory is ordered by, larger first; dates go through the supplied parser. */
  function SortKey(m: Memory, sortBy: SortBy, dateTime: string -> int): int {
    match sortBy
    case ByMood => m.input.mood
    case ByGrowth => m.growthStage
    case ByDate => dateTime(m.input.date)
  }

  /**
   * The comparator the list is sorted with: the second memory's value minus the first's,
   * so it is negative exactly when the first memory has the larger key and belongs
   * ahead, and zero exactly when the two tie.
   */
  function Comparator(a: Memory, b: Memory, sortBy: SortBy, dateTime: string -> int): (c: int)
    ensures c < 0 <==> SortKey(a, sortBy, dateTime) > SortKey(b, sortBy, dateTime)
    ensures c == 0 <==> SortKey(a, sortBy, dateTime) == SortKey(b, sortBy, dateTime)
  {
    match sortBy
    case ByMood => b.input.mood - a.input.mood
    case ByGrowth => b.growthStage - a.growthStage
    case ByDate => dateTime(b.input.date) - dateTime(a.input.date)
  }

  /** The ordering key as a function of the memory. */
  function KeyFor(sortBy: SortBy, dateTime: string -> int): Memory -> int {
    (m: Memory) => SortKey(m, sortBy, dateTime)
  }

  /** Keys never increase along the sequence. */
  ghost predicate NonIncreasing(s: seq<Memory>, key: Memory -> int) {
    forall i, j :: 0 <= i < j < |s| ==> key(s[i]) >= key(s[j])
  }

  /** Put `x` in front of the first element whose key does not exceed its own. */
  function Insert(x: Memory, s: seq<Memory>, key: Memory -> int): (r: seq<Memory>)
    ensures multiset(r) == multiset(s) + multiset{x}
    ensures |r| == |s| + 1
  {
    if |s| == 0 || key(s[0]) <= key(x) then
      [x] + s
    else
      assert s == [s[0]] + s[1..];
      [s[0]] + Insert(x, s[1..], key)
  }

  /** Inserting into a sequence sorted by descending key keeps it sorted. */
  lemma {:induction false} InsertKeepsOrder(x: Memory, s: seq<Memory>, key: Memory -> int)
    requires NonIncreasing(s, key)
    ensures NonIncreasing(Insert(x, s, key), key)
  {
    if |s| > 0 && key(s[0]) > key(x) {
      var rest := Insert(x, s[1..], key);
      InsertKeepsOrder(x, s[1..], key);
      var r := [s[0]] + rest;
      assert r == Insert(x, s, key);
      forall i, j | 0 <= i < j < |r| ensures key(r[i]) >= key(r[j]) {
        if i == 0 {
          assert r[j] == rest[j - 1];
          assert r[j] in multiset(rest);
          if r[j] != x {
            assert r[j] in multiset(s[1..]);
            var k :| 0 <= k < |s[1..]| && s[1..][k] == r[j];
            assert s[k + 1] == r[j];
          }
        } else {
          assert r[i] == rest[i - 1] && r[j] == rest[j - 1];
        }
      }
    }
  }

  /**
   * A stable sort by descending key: each element is inserted ahead of the
   * later-listed elements with an equal key.
   */
  function SortDescending(s: seq<Memory>, key: Memory -> int): (r: seq<Memory>)
    ensures multiset(r) == multiset(s)
    ensures |r| == |s|
    ensures NonIncreasing(r, key)
  {
    if |s| == 0 then []
    else
      assert s == [s[0]] + s[1..];
      InsertKeepsOrder(s[0], SortDescending(s[1..], key), key);
      Insert(s[0], SortDescending(s[1..], key), key)
  }

  lemma SameElements(a: seq<Memory>, b: seq<Memory>)
    requires multiset(a) == multiset(b)
    ensures forall i :: 0 <= i < |a| ==> a[i] in b
  {
    forall i | 0 <= i < |a| ensures a[i] in b {
      assert a[i] in multiset(a);
    }
  }

  /** The displayed list: the visible memories, sorted by the chosen key. */
  function FilteredMemories(ms: seq<Memory>, matchesSearch: Memory -> bool, filterEmotion: Option<Emotion>,
                            sortBy: SortBy, dateTime: string -> int): (r: seq<Memory>)
    ensures multiset(r) == multiset(Visible(ms, matchesSearch, filterEmotion))
    ensures |r| <= |ms|
    ensures forall i :: 0 <= i < |r| ==> matchesSearch(r[i]) && MatchesEmotion(r[i], filterEmotion)
    ensures forall i, j :: 0 <= i < j < |r| ==> SortKey(r[i], sortBy, dateTime) >= SortKey(r[j], sortBy, dateTime)
    // the comparator never asks for a displayed pair to be swapped
    ensures forall i, j :: 0 <= i < j < |r| ==> Comparator(r[i], r[j], sortBy, dateTime) <= 0
  {
    var v := Visible(ms, matchesSearch, filterEmotion);
    var r := SortDescending(v, KeyFor(sortBy, dateTime));
    SameElements(r, v);
    NeverSwaps(r, sortBy, dateTime);
    r
  }

  /**
   * In a list ordered by descending key the comparator is never positive on a pair
   * taken in list order, so it never asks for a pair to be swapped.
   */
  lemma NeverSwaps(r: seq<Memory>, sortBy: SortBy, dateTime: string -> int)
    requires forall i, j :: 0 <= i < j < |r| ==> SortKey(r[i], sortBy, dateTime) >= SortKey(r[j], sortBy, dateTime)
    ensures forall i, j :: 0 <= i < j < |r| ==> Comparator(r[i], r[j], sortBy, dateTime) <= 0
  {
    forall i, j | 0 <= i < j < |r| ensures Comparator(r[i], r[j], sortBy, dateTime) <= 0 {
      assert SortKey(r[i], sortBy, dateTime) >= SortKey(r[j], sortBy, dateTime);
    }
  }

  /**
   * Inserting `x` keeps the relative order of every group of equal-keyed elements, and
   * puts `x` first in its own group.
   */
  lemma {:induction false} InsertKeepsTies(x: Memory, s: seq<Memory>, key: Memory -> int, p: Memory -> bool, v: int)
    requires forall m :: p(m) == (key(m) == v)
    ensures Filter(Insert(x, s, key), p) == (if p(x) then [x] else []) + Filter(s, p)
  {
    if |s| == 0 || key(s[0]) <= key(x) {
      assert ([x] + s)[1..] == s;
    } else {
      var rest := Insert(x, s[1..], key);
      InsertKeepsTies(x, s[1..], key, p, v);
      assert ([s[0]] + rest)[1..] == rest;
      assert p(x) ==> !p(s[0]);
    }
  }

  /**
   * The sort is stable: for every key value, the elements carrying it appear in the
   * result in the same order as in the input.
   */
  lemma {:induction false} SortKeepsTies(s: seq<Memory>, key: Memory -> int, p: Memory -> bool, v: int)
    requires forall m :: p(m) == (key(m) == v)
    ensures Filter(SortDescending(s, key), p) == Filter(s, p)
  {
    if |s| > 0 {
      SortKeepsTies(s[1..], key, p, v);
      InsertKeepsTies(s[0], SortDescending(s[1..], key), key, p, v);
    }
  }

  /**
   * Memories that tie on the chosen key are listed in the order of the stored list,
   * as the stable `Array.prototype.sort` keeps them.
   */
  lemma ListingKeepsTies(ms: seq<Memory>, matchesSearch: Memory -> bool, filterEmotion: Option<Emotion>,
                         sortBy: SortBy, dateTime: string -> int, p: Memory -> bool, v: int)
    requires forall m :: p(m) == (SortKey(m, sortBy, dateTime) == v)
    ensures Filter(FilteredMemories(ms, matchesSearch, filterEmotion, sortBy, dateTime), p)
      == Filter(Visible(ms, matchesSearch, filterEmotion), p)
  {
    SortKeepsTies(Visible(ms, matchesSearch, filterEmotion), KeyFor(sortBy, dateTime), p, v);
  }
}
