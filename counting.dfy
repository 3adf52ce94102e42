/**
 * Frequency tables as the scraper and the trend analyser build them: a dictionary
 * incremented word by word (`counts[w] = counts.get(w, 0) + 1`, keys in first-seen order),
 * then `sorted(counts.items(), key=lambda x: x[1], reverse=True)`, which is stable:
 * entries with equal counts keep their dictionary order.
 */
module Counting {
  import opened Wrappers
  import opened Dicts
  import opened PyText

  type Entry = (string, int)
  type Counts = Dict<string, int>

  /** Number of times `w` occurs in `ws`. */
  function Occurrences(ws: seq<string>, w: string): nat
    decreases |ws|
  {
    if ws == [] then 0
    else Occurrences(ws[..|ws| - 1], w) + (if ws[|ws| - 1] == w then 1 else 0)
  }

  /** The distinct words of `ws` in the order of their first occurrence. */
  function FirstSeen(ws: seq<string>): seq<string>
    decreases |ws|
  {
    if ws == [] then []
    else if ws[|ws| - 1] in ws[..|ws| - 1] then FirstSeen(ws[..|ws| - 1])
    else FirstSeen(ws[..|ws| - 1]) + [ws[|ws| - 1]]
  }

  lemma {:induction false} FirstSeenMembers(ws: seq<string>)
    ensures forall w :: w in FirstSeen(ws) <==> w in ws
    decreases |ws|
  {
    if ws != [] {
      FirstSeenMembers(ws[..|ws| - 1]);
      assert ws == ws[..|ws| - 1] + [ws[|ws| - 1]];
    }
  }

  /** `counts[w] = counts.get(w, 0) + 1`. */
  function Bump(c: Counts, w: string): Counts {
    Put(c, w, Current(c, w) + 1)
  }

  /** `counts.get(w, 0)`. */
  function Current(c: Counts, w: string): int {
    match Get(c, w) case Some(n) => n case None => 0
  }

  /** The dictionary obtained by bumping every word of `ws` in turn, starting from `{}`. */
  function TallyOf(ws: seq<string>): Counts
    decreases |ws|
  {
    if ws == [] then [] else Bump(TallyOf(ws[..|ws| - 1]), ws[|ws| - 1])
  }

  /** Each word maps to its number of occurrences; absent words are not keys. */
  lemma {:induction false} TallyCounts(ws: seq<string>, w: string)
    ensures Get(TallyOf(ws), w) == if Occurrences(ws, w) == 0 then None else Some(Occurrences(ws, w))
    decreases |ws|
  {
    if ws != [] {
      var init := ws[..|ws| - 1];
      var x := ws[|ws| - 1];
      var t := TallyOf(init);
      var n: int := Current(t, x) + 1;
      assert TallyOf(ws) == Put(t, x, n);
      TallyCounts(init, w);
      TallyCounts(init, x);
      GetPut(t, x, n, w);
    }
  }

  /** The keys are the distinct words, in first-seen order, and no key is repeated. */
  lemma {:induction false} TallyKeys(ws: seq<string>)
    ensures Keys(TallyOf(ws)) == FirstSeen(ws)
    ensures DistinctKeys(TallyOf(ws))
    decreases |ws|
  {
    if ws != [] {
      var init := ws[..|ws| - 1];
      var x := ws[|ws| - 1];
      var t := TallyOf(init);
      TallyKeys(init);
      FirstSeenMembers(init);
      PutKeys(t, x, Current(t, x) + 1);
    }
  }

  /** Sum of the counts. */
  function Total(es: seq<Entry>): int
    decreases |es|
  {
    if es == [] then 0 else es[0].1 + Total(es[1..])
  }

  lemma {:induction false} TotalPut(d: Counts, k: string, v: int)
    ensures Total(Put(d, k, v)) + Current(d, k) == Total(d) + v
    decreases |d|
  {
    if d != [] && d[0].0 != k {
      TotalPut(d[1..], k, v);
    }
  }

  /** The counts add up to the number of words counted. */
  lemma {:induction false} TallyTotal(ws: seq<string>)
    ensures Total(TallyOf(ws)) == |ws|
    decreases |ws|
  {
    if ws != [] {
      var init := ws[..|ws| - 1];
      var x := ws[|ws| - 1];
      var t := TallyOf(init);
      var n: int := Current(t, x) + 1;
      assert TallyOf(ws) == Put(t, x, n);
      TallyTotal(init);
      TotalPut(t, x, n);
    }
  }

  ghost predicate NonIncreasing(s: seq<Entry>) {
    forall i, j :: 0 <= i < j < |s| ==> s[i].1 >= s[j].1
  }

  /** The entries of `s` whose count is `c`, in order. */
  function WithCount(s: seq<Entry>, c: int): seq<Entry>
    decreases |s|
  {
    if s == [] then [] else (if s[0].1 == c then [s[0]] else []) + WithCount(s[1..], c)
  }

  lemma {:induction false} WithCountAppend(a: seq<Entry>, b: seq<Entry>, c: int)
    ensures WithCount(a + b, c) == WithCount(a, c) + WithCount(b, c)
    decreases |a|
  {
    if a == [] {
      assert a + b == b;
    } else {
      var h := if a[0].1 == c then [a[0]] else [];
      assert (a + b)[0] == a[0];
      assert (a + b)[1..] == a[1..] + b;
      WithCountAppend(a[1..], b, c);
      calc {
        WithCount(a + b, c);
        h + WithCount(a[1..] + b, c);
        h + (WithCount(a[1..], c) + WithCount(b, c));
        (h + WithCount(a[1..], c)) + WithCount(b, c);
      }
    }
  }

  lemma {:induction false} WithCountNone(s: seq<Entry>, c: int)
    requires forall i :: 0 <= i < |s| ==> s[i].1 < c
    ensures WithCount(s, c) == []
    decreases |s|
  {
    if s != [] {
      WithCountNone(s[1..], c);
    }
  }

  /** Insert `x` after every entry whose count is at least `x`'s. */
  function InsertDesc(s: seq<Entry>, x: Entry): seq<Entry>
    decreases |s|
  {
    if s == [] then [x]
    else if s[0].1 >= x.1 then [s[0]] + InsertDesc(s[1..], x)
    else [x] + s
  }

  /** `sorted(items, key=count, reverse=True)`: a stable insertion sort, newest entry last among equals. */
  function SortDesc(es: seq<Entry>): seq<Entry>
    decreases |es|
  {
    if es == [] then [] else InsertDesc(SortDesc(es[..|es| - 1]), es[|es| - 1])
  }

  lemma {:induction false} InsertDescPerm(s: seq<Entry>, x: Entry)
    ensures multiset(InsertDesc(s, x)) == multiset(s) + multiset{x}
    decreases |s|
  {
    if s != [] && s[0].1 >= x.1 {
      InsertDescPerm(s[1..], x);
      assert s == [s[0]] + s[1..];
    }
  }

  /** Inserting below a bound stays below it. */
  lemma {:induction false} InsertDescBound(s: seq<Entry>, x: Entry, m: int)
    requires forall i :: 0 <= i < |s| ==> s[i].1 <= m
    requires x.1 <= m
    ensures forall i :: 0 <= i < |InsertDesc(s, x)| ==> InsertDesc(s, x)[i].1 <= m
    decreases |s|
  {
    if s != [] && s[0].1 >= x.1 {
      InsertDescBound(s[1..], x, m);
    }
  }

  lemma {:induction false} InsertDescSorted(s: seq<Entry>, x: Entry)
    requires NonIncreasing(s)
    ensures NonIncreasing(InsertDesc(s, x))
    decreases |s|
  {
    if s != [] && s[0].1 >= x.1 {
      var rest := InsertDesc(s[1..], x);
      InsertDescSorted(s[1..], x);
      InsertDescBound(s[1..], x, s[0].1);
      var r := [s[0]] + rest;
      forall i, j | 0 <= i < j < |r| ensures r[i].1 >= r[j].1 {
        assert r[j] == rest[j - 1];
        if i > 0 { assert r[i] == rest[i - 1]; }
      }
    }
  }

  lemma {:induction false} InsertDescWithCount(s: seq<Entry>, x: Entry, c: int)
    requires NonIncreasing(s)
    ensures WithCount(InsertDesc(s, x), c) == WithCount(s, c) + (if x.1 == c then [x] else [])
    decreases |s|
  {
    if s == [] {
    } else if s[0].1 >= x.1 {
      InsertDescWithCount(s[1..], x, c);
      var r := [s[0]] + InsertDesc(s[1..], x);
      assert r[0] == s[0] && r[1..] == InsertDesc(s[1..], x);
    } else {
      var r := [x] + s;
      assert r[0] == x && r[1..] == s;
      if c == x.1 { WithCountNone(s, c); }
    }
  }

  /**
   * The sorted table lists counts in non-increasing order, is a permutation of the table,
   * and keeps entries of equal count in the table's own order.
   */
  lemma {:induction false} SortDescCorrect(es: seq<Entry>)
    ensures NonIncreasing(SortDesc(es))
    ensures multiset(SortDesc(es)) == multiset(es)
    ensures forall c :: WithCount(SortDesc(es), c) == WithCount(es, c)
    decreases |es|
  {
    if es != [] {
      var init := es[..|es| - 1];
      var x := es[|es| - 1];
      SortDescCorrect(init);
      InsertDescSorted(SortDesc(init), x);
      InsertDescPerm(SortDesc(init), x);
      assert es == init + [x];
      forall c ensures WithCount(SortDesc(es), c) == WithCount(es, c) {
        InsertDescWithCount(SortDesc(init), x, c);
        WithCountAppend(init, [x], c);
      }
    }
  }

  /** The lower-cased words of every list in `groups`, in order: what the counting loops visit. */
  function LoweredWords(groups: seq<seq<string>>): seq<string>
    decreases |groups|
  {
    if groups == [] then []
    else LoweredWords(groups[..|groups| - 1]) + LowerAll(groups[|groups| - 1])
  }

  function LowerAll(ws: seq<string>): (r: seq<string>)
    ensures |r| == |ws|
    ensures forall i :: 0 <= i < |ws| ==> r[i] == Lower(ws[i])
  {
    seq(|ws|, i requires 0 <= i < |ws| => Lower(ws[i]))
  }

  /**
   * The nested counting loop shared by `_get_most_common_tags`, `_get_most_common_tech`
   * and `_analyze_tech_trends`: for each list, for each word, bump its lower-cased form.
   */
  method CountLowered(groups: seq<seq<string>>) returns (counts: Counts)
    ensures counts == TallyOf(LoweredWords(groups))
  {
    counts := [];
    var i := 0;
    while i < |groups|
      invariant 0 <= i <= |groups|
      invariant counts == TallyOf(LoweredWords(groups[..i]))
    {
      var ws := groups[i];
      var j := 0;
      assert LowerAll(ws[..0]) == [];
      assert LoweredWords(groups[..i]) + LowerAll(ws[..0]) == LoweredWords(groups[..i]);
      while j < |ws|
        invariant 0 <= j <= |ws|
        invariant counts == TallyOf(LoweredWords(groups[..i]) + LowerAll(ws[..j]))
      {
        var w := Lower(ws[j]);
        ghost var before := LoweredWords(groups[..i]) + LowerAll(ws[..j]);
        assert LowerAll(ws[..j + 1]) == LowerAll(ws[..j]) + [w];
        assert before + [w] == LoweredWords(groups[..i]) + LowerAll(ws[..j + 1]);
        assert (before + [w])[..|before + [w]| - 1] == before;
        counts := Bump(counts, w);
        j := j + 1;
      }
      assert ws[..j] == ws;
      assert groups[..i + 1][..i] == groups[..i];
      assert LoweredWords(groups[..i + 1]) == LoweredWords(groups[..i]) + LowerAll(ws);
      i := i + 1;
    }
    assert groups[..i] == groups;
  }

  /** `sorted(counts.items(), key=lambda x: x[1], reverse=True)[:n]` for the tally of `ws`. */
  function Top(ws: seq<string>, n: int): seq<Entry> {
    PyTake(SortDesc(TallyOf(ws)), n)
  }

  /** A dictionary holds each pair at most once. */
  lemma {:induction false} DistinctKeysOnce<K, V>(d: Dict<K, V>, x: (K, V))
    requires DistinctKeys(d)
    ensures multiset(d)[x] <= 1
    decreases |d|
  {
    if d != [] {
      assert d == [d[0]] + d[1..];
      ConsDistinctTail(d[0], d[1..]);
      DistinctKeysOnce(d[1..], x);
    }
  }

  /** An element found at two positions is counted at least twice. */
  lemma Twice<T>(s: seq<T>, i: int, j: int)
    requires 0 <= i < j < |s| && s[i] == s[j]
    ensures multiset(s)[s[i]] >= 2
  {
    assert s == s[..i] + [s[i]] + s[i + 1..j] + [s[j]] + s[j + 1..];
  }

  lemma WithCountPrefix(a: seq<Entry>, b: seq<Entry>, c: int)
    requires a <= b
    ensures WithCount(a, c) <= WithCount(b, c)
  {
    assert b == a + b[|a|..];
    WithCountAppend(a, b[|a|..], c);
  }

  /**
   * The first `n` rows of the frequency table: at most `n` of them, one per distinct word,
   * each with the word's number of occurrences, most frequent first; a word left out occurs
   * no more often than any listed word, and among equal counts the first-seen words are kept.
   */
  lemma TopCorrect(ws: seq<string>, n: nat)
    ensures |Top(ws, n)| == if n <= |FirstSeen(ws)| then n else |FirstSeen(ws)|
    ensures NonIncreasing(Top(ws, n))
    ensures forall e :: e in Top(ws, n) ==> e.0 in ws && e.1 == Occurrences(ws, e.0)
    ensures DistinctKeys(Top(ws, n))
    ensures forall w, e :: w in ws && w !in Keys(Top(ws, n)) && e in Top(ws, n) ==> Occurrences(ws, w) <= e.1
    ensures forall c :: WithCount(Top(ws, n), c) <= WithCount(TallyOf(ws), c)
  {
    TopShape(ws, n);
    TopEntries(ws, n);
    TopDistinct(ws, n);
    TopOmitted(ws, n);
    TopStable(ws, n);
  }

  lemma TopShape(ws: seq<string>, n: nat)
    ensures |Top(ws, n)| == if n <= |FirstSeen(ws)| then n else |FirstSeen(ws)|
    ensures NonIncreasing(Top(ws, n))
    ensures Top(ws, n) <= SortDesc(TallyOf(ws))
  {
    var tally := TallyOf(ws);
    var sorted := SortDesc(tally);
    TallyKeys(ws);
    SortDescCorrect(tally);
    assert |sorted| == |multiset(sorted)| == |multiset(tally)| == |tally|;
    assert Top(ws, n) <= sorted;
  }

  lemma TopEntries(ws: seq<string>, n: nat)
    ensures forall e :: e in Top(ws, n) ==> e.0 in ws && e.1 == Occurrences(ws, e.0)
  {
    var tally := TallyOf(ws);
    var top := Top(ws, n);
    TallyKeys(ws);
    FirstSeenMembers(ws);
    SortDescCorrect(tally);
    forall e | e in top ensures e.0 in ws && e.1 == Occurrences(ws, e.0) {
      assert e in multiset(tally);
      var i :| 0 <= i < |tally| && tally[i] == e;
      assert Keys(tally)[i] == e.0;
      GetAt(tally, i);
      TallyCounts(ws, e.0);
    }
  }

  lemma TopDistinct(ws: seq<string>, n: nat)
    ensures DistinctKeys(Top(ws, n))
  {
    var tally := TallyOf(ws);
    var sorted := SortDesc(tally);
    var top := Top(ws, n);
    TopShape(ws, n);
    TopEntries(ws, n);
    TallyKeys(ws);
    SortDescCorrect(tally);
    forall i, j | 0 <= i < j < |top| ensures top[i].0 != top[j].0 {
      if top[i].0 == top[j].0 {
        assert top[i] in top && top[j] in top;
        assert sorted[i] == top[i] && sorted[j] == top[j];
        Twice(sorted, i, j);
        DistinctKeysOnce(tally, top[i]);
        assert false;
      }
    }
  }

  lemma TopOmitted(ws: seq<string>, n: nat)
    ensures forall w, e :: w in ws && w !in Keys(Top(ws, n)) && e in Top(ws, n) ==> Occurrences(ws, w) <= e.1
  {
    var tally := TallyOf(ws);
    var sorted := SortDesc(tally);
    var top := Top(ws, n);
    TopShape(ws, n);
    TallyKeys(ws);
    FirstSeenMembers(ws);
    SortDescCorrect(tally);
    forall w, e | w in ws && w !in Keys(top) && e in top ensures Occurrences(ws, w) <= e.1 {
      TallyCounts(ws, w);
      assert w in FirstSeen(ws);
      GetNone(tally, w);
      GetIn(tally, w, Occurrences(ws, w));
      assert (w, Occurrences(ws, w)) in multiset(sorted);
      var k :| 0 <= k < |sorted| && sorted[k] == (w, Occurrences(ws, w));
      var i :| 0 <= i < |top| && top[i] == e;
      assert sorted[i] == e;
    }
  }

  lemma TopStable(ws: seq<string>, n: nat)
    ensures forall c :: WithCount(Top(ws, n), c) <= WithCount(TallyOf(ws), c)
  {
    var tally := TallyOf(ws);
    TopShape(ws, n);
    SortDescCorrect(tally);
    forall c ensures WithCount(Top(ws, n), c) <= WithCount(tally, c) {
      WithCountPrefix(Top(ws, n), SortDesc(tally), c);
    }
  }

  lemma {:induction false} TotalAppend(es: seq<Entry>, x: Entry)
    ensures Total(es + [x]) == Total(es) + x.1
    decreases |es|
  {
    if es != [] {
      assert (es + [x])[1..] == es[1..] + [x];
      TotalAppend(es[1..], x);
    }
  }

  lemma {:induction false} TotalInsert(s: seq<Entry>, x: Entry)
    ensures Total(InsertDesc(s, x)) == Total(s) + x.1
    decreases |s|
  {
    if s != [] && s[0].1 >= x.1 {
      TotalInsert(s[1..], x);
    }
  }

  /** Sorting keeps the sum of the counts. */
  lemma {:induction false} TotalSorted(es: seq<Entry>)
    ensures Total(SortDesc(es)) == Total(es)
    decreases |es|
  {
    if es != [] {
      var init := es[..|es| - 1];
      TotalSorted(init);
      TotalInsert(SortDesc(init), es[|es| - 1]);
      TotalAppend(init, es[|es| - 1]);
      assert es == init + [es[|es| - 1]];
    }
  }
}
