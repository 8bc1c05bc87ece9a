/** The word statistics of `extract_seo_metadata` (main.py:200-214): the
    word count, and the keyword table of the 20 most frequent words that
    are neither stop words nor shorter than three characters. */
module Keywords {
  import opened Text
  import opened Sorting

  /** One row of the keyword table. */
  datatype Entry = Entry(word: string, count: nat)

  const StopWords: set<string> := {
    "the", "a", "an", "and", "or", "but", "in", "on", "at", "to", "for", "of", "with", "by",
    "is", "are", "was", "were", "be", "been", "have", "has", "had", "do", "does", "did",
    "will", "would", "could", "should", "may", "might", "must", "can", "this", "that",
    "these", "those", "i", "you", "he", "she", "it", "we", "they", "me", "him", "her", "us",
    "them", "my", "your", "his", "its", "our", "their", "mine", "yours", "hers", "ours", "theirs"
  }

  const TableSize: nat := 20

  /** `re.findall(r'\b\w+\b', text.lower())`: the maximal word-character
      runs of the lower-cased text, one token per position where a run begins. */
  function Tokens(text: string): (r: seq<string>)
    ensures forall k :: 0 <= k < |r| ==> r[k] != [] && forall i :: 0 <= i < |r[k]| ==> IsWordChar(r[k][i])
    ensures |r| == StartsFrom(Lower(text), IsWordChar, 0)
    ensures forall t :: t in r <==> exists i, j :: MaximalRun(Lower(text), IsWordChar, i, j) && t == Lower(text)[i..j]
  {
    RunsCharacterised(Lower(text), IsWordChar);
    Runs(Lower(text), IsWordChar)
  }

  /** Index of the first occurrence of `w` in `ws`, or `|ws|` when absent. */
  function Pos(ws: seq<string>, w: string): (i: nat)
    ensures i <= |ws|
    ensures i < |ws| <==> w in ws
    ensures i < |ws| ==> ws[i] == w
    ensures forall j :: 0 <= j < i ==> ws[j] != w
  {
    if ws == [] then 0 else if ws[0] == w then 0 else 1 + Pos(ws[1..], w)
  }

  lemma PosExtend(ws: seq<string>, x: string, w: string)
    requires w in ws
    ensures Pos(ws + [x], w) == Pos(ws, w)
  {
    var p, q := Pos(ws + [x], w), Pos(ws, w);
    assert (ws + [x])[q] == w;
    if p < q { assert ws[p] == (ws + [x])[p]; }
  }

  /** The distinct words of `ws` in order of first occurrence: the key order
      of `collections.Counter(ws)`. */
  function Distinct(ws: seq<string>): (d: seq<string>)
    ensures forall w :: w in d <==> w in ws
    ensures forall i, j :: 0 <= i < j < |d| ==> Pos(ws, d[i]) < Pos(ws, d[j])
  {
    if ws == [] then []
    else
      var init, last := ws[..|ws| - 1], ws[|ws| - 1];
      var d := Distinct(init);
      assert ws == init + [last];
      forall w | w in init ensures Pos(ws, w) == Pos(init, w) { PosExtend(init, last, w); }
      if last in init then d
      else
        assert Pos(ws, last) == |init|;
        d + [last]
  }

  /** `collections.Counter(ws).items()`. */
  function Frequencies(ws: seq<string>): (r: seq<Entry>)
    ensures |r| == |Distinct(ws)|
    ensures forall i :: 0 <= i < |r| ==> r[i] == Entry(Distinct(ws)[i], multiset(ws)[Distinct(ws)[i]])
  {
    var d := Distinct(ws);
    seq(|d|, i requires 0 <= i < |d| => Entry(d[i], multiset(ws)[d[i]]))
  }

  predicate Kept(e: Entry) {
    e.word !in StopWords && |e.word| > 2
  }

  /** The dict comprehension that drops stop words and short words, in order. */
  function KeepWords(es: seq<Entry>): (r: seq<Entry>)
    ensures forall e :: e in r <==> e in es && Kept(e)
  {
    if es == [] then []
    else KeepWords(es[..|es| - 1]) + (if Kept(es[|es| - 1]) then [es[|es| - 1]] else [])
  }

  lemma {:induction false} KeepWordsIncreasing(es: seq<Entry>, f: Entry -> int)
    requires IncreasingBy(es, f)
    ensures IncreasingBy(KeepWords(es), f)
  {
    if es != [] {
      var init := es[..|es| - 1];
      assert IncreasingBy(init, f) by {
        forall i, j | 0 <= i < j < |init| ensures f(init[i]) < f(init[j]) {
          assert init[i] == es[i] && init[j] == es[j];
        }
      }
      KeepWordsIncreasing(init, f);
      var kept := KeepWords(init);
      var r := KeepWords(es);
      if Kept(es[|es| - 1]) {
        forall i, j | 0 <= i < j < |r| ensures f(r[i]) < f(r[j]) {
          if j == |r| - 1 {
            assert r[i] == kept[i] && r[i] in init;
            var m :| 0 <= m < |init| && init[m] == r[i];
            assert es[m] == r[i];
          } else {
            assert r[i] == kept[i] && r[j] == kept[j];
          }
        }
      }
    }
  }

  function CountOf(e: Entry): int { e.count }

  /** The kept rows of `Counter(ws)` by descending count, ties in first-occurrence order. */
  function Ranked(ws: seq<string>): (r: seq<Entry>) {
    SortDesc(KeepWords(Frequencies(ws)), CountOf)
  }

  /** `[:20]` */
  function Top(s: seq<Entry>): (r: seq<Entry>)
    ensures |r| <= TableSize && |r| <= |s| && r == s[..|r|]
    ensures |r| == TableSize || r == s
  {
    if |s| <= TableSize then s else s[..TableSize]
  }

  /** `keyword_density`: the first 20 ranked rows of the page text's words. */
  function KeywordDensity(text: string): (r: seq<Entry>) {
    Top(Ranked(Tokens(text)))
  }

  /** Every ranked row is a kept word with its exact count among the tokens. */
  lemma RankedRows(ws: seq<string>)
    ensures forall e :: e in Ranked(ws) ==>
      Kept(e) && e.word in ws && e.count == multiset(ws)[e.word] && e.count >= 1
  {
    var freq := Frequencies(ws);
    var kept := KeepWords(freq);
    forall e | e in Ranked(ws) ensures Kept(e) && e.word in ws && e.count == multiset(ws)[e.word] && e.count >= 1 {
      assert e in multiset(Ranked(ws));
      assert e in kept;
      var k :| 0 <= k < |freq| && freq[k] == e;
      assert Distinct(ws)[k] in Distinct(ws);
    }
  }

  /** No row occurs twice among the ranked rows. */
  lemma RankedNoRepeats(ws: seq<string>)
    ensures forall x :: multiset(Ranked(ws))[x] <= 1
  {
    var freq := Frequencies(ws);
    var kept := KeepWords(freq);
    var f := (e: Entry) => Pos(ws, e.word);
    assert IncreasingBy(freq, f) by {
      forall a, b | 0 <= a < b < |freq| ensures f(freq[a]) < f(freq[b]) { }
    }
    KeepWordsIncreasing(freq, f);
    forall x ensures multiset(kept)[x] <= 1 { MultisetOfIncreasing(kept, f, x); }
  }

  lemma NoDuplicates(s: seq<Entry>, i: nat, j: nat)
    requires i < j < |s| && multiset(s)[s[i]] <= 1
    ensures s[i] != s[j]
  {
    assert s == s[..j] + [s[j]] + s[j + 1..];
    assert s[i] in multiset(s[..j]) by { assert s[..j][i] == s[i]; }
    assert multiset(s)[s[i]]
        == multiset(s[..j])[s[i]] + multiset([s[j]])[s[i]] + multiset(s[j + 1..])[s[i]];
  }

  /** Every row of the table: a kept word with its exact count in the text. */
  lemma KeywordRows(text: string)
    ensures var r := KeywordDensity(text); var ws := Tokens(text);
      |r| <= TableSize &&
      forall i :: 0 <= i < |r| ==>
        Kept(r[i]) && r[i].word in ws && r[i].count == multiset(ws)[r[i].word] && r[i].count >= 1
  {
    var ranked := Ranked(Tokens(text));
    RankedRows(Tokens(text));
    var r := KeywordDensity(text);
    assert forall i :: 0 <= i < |r| ==> r[i] == ranked[i] && ranked[i] in ranked;
  }

  /** Counts are non-increasing down the table. */
  lemma KeywordCountsDescending(text: string)
    ensures var r := KeywordDensity(text);
      forall i, j :: 0 <= i < j < |r| ==> r[i].count >= r[j].count
  {
    var ranked := Ranked(Tokens(text));
    var r := KeywordDensity(text);
    forall i, j | 0 <= i < j < |r| ensures r[i].count >= r[j].count {
      assert r[i] == ranked[i] && r[j] == ranked[j];
      assert CountOf(ranked[i]) >= CountOf(ranked[j]);
    }
  }

  /** No word appears twice in the table. */
  lemma KeywordWordsDistinct(text: string)
    ensures var r := KeywordDensity(text);
      forall i, j :: 0 <= i < j < |r| ==> r[i].word != r[j].word
  {
    var ws := Tokens(text);
    var ranked := Ranked(ws);
    var r := KeywordDensity(text);
    RankedRows(ws);
    RankedNoRepeats(ws);
    forall i, j | 0 <= i < j < |r| ensures r[i].word != r[j].word {
      assert r[i] == ranked[i] && r[j] == ranked[j];
      assert ranked[i] in ranked && ranked[j] in ranked;
      NoDuplicates(ranked, i, j);
    }
  }

  /** In an increasing sequence every element occurs at most once. */
  lemma MultisetOfIncreasing(s: seq<Entry>, f: Entry -> int, x: Entry)
    requires IncreasingBy(s, f)
    ensures multiset(s)[x] <= 1
  {
    if s != [] {
      var tail := s[1..];
      assert s == [s[0]] + tail;
      assert IncreasingBy(tail, f) by {
        forall a, b | 0 <= a < b < |tail| ensures f(tail[a]) < f(tail[b]) {
          assert tail[a] == s[a + 1] && tail[b] == s[b + 1];
        }
      }
      MultisetOfIncreasing(tail, f, x);
      if x == s[0] {
        forall k | 0 <= k < |tail| ensures tail[k] != x { assert f(s[0]) < f(s[k + 1]); }
        assert x !in multiset(tail);
      }
    }
  }

  /** Words of equal count keep the order of their first occurrence in the text. */
  lemma KeywordTies(text: string)
    ensures var r := KeywordDensity(text); var ws := Tokens(text);
      forall i, j :: 0 <= i < j < |r| && r[i].count == r[j].count ==> Pos(ws, r[i].word) < Pos(ws, r[j].word)
  {
    var ws := Tokens(text);
    var freq := Frequencies(ws);
    var kept := KeepWords(freq);
    var ranked := Ranked(ws);
    var r := KeywordDensity(text);
    var f := (e: Entry) => Pos(ws, e.word);
    assert IncreasingBy(freq, f) by {
      forall a, b | 0 <= a < b < |freq| ensures f(freq[a]) < f(freq[b]) { }
    }
    KeepWordsIncreasing(freq, f);
    forall i, j | 0 <= i < j < |r| && r[i].count == r[j].count
      ensures Pos(ws, r[i].word) < Pos(ws, r[j].word)
    {
      var k := r[i].count;
      assert r[i] == ranked[i] && r[j] == ranked[j];
      WithKeyOrder(ranked, CountOf, k, i, j);
      var w := WithKey(kept, CountOf, k);
      WithKeyIncreasing(kept, CountOf, k, f);
      var a, b :| 0 <= a < b < |w| && w[a] == ranked[i] && w[b] == ranked[j];
      assert f(w[a]) < f(w[b]);
    }
  }

  /** A kept word left out of the table loses to every word in it: the
      table is then full and its last count is at least the word's count. */
  lemma KeywordTopTwenty(text: string, word: string)
    requires word in Tokens(text) && Kept(Entry(word, multiset(Tokens(text))[word]))
    requires forall i :: 0 <= i < |KeywordDensity(text)| ==> KeywordDensity(text)[i].word != word
    ensures |KeywordDensity(text)| == TableSize
    ensures multiset(Tokens(text))[word] <= KeywordDensity(text)[TableSize - 1].count
  {
    var ws := Tokens(text);
    var e := Entry(word, multiset(ws)[word]);
    var p := RankedPosition(ws, word);
    var ranked := Ranked(ws);
    var r := KeywordDensity(text);
    assert forall i :: 0 <= i < |r| ==> r[i] == ranked[i];
    if |ranked| > TableSize {
      assert CountOf(ranked[TableSize - 1]) >= CountOf(ranked[p]);
    }
  }

  /** Where a kept word sits among the ranked rows. */
  lemma RankedPosition(ws: seq<string>, word: string) returns (p: nat)
    requires word in ws && Kept(Entry(word, multiset(ws)[word]))
    ensures p < |Ranked(ws)| && Ranked(ws)[p] == Entry(word, multiset(ws)[word])
  {
    var freq := Frequencies(ws);
    var e := Entry(word, multiset(ws)[word]);
    var d := Distinct(ws);
    var k :| 0 <= k < |d| && d[k] == word;
    assert freq[k] == e;
    assert e in KeepWords(freq);
    assert e in multiset(Ranked(ws));
    p :| 0 <= p < |Ranked(ws)| && Ranked(ws)[p] == e;
  }

  /** Summing the counts of `Counter(ws)` gives `len(ws)`: the word count
      covers stop words and short words alike. */
  function SumCounts(es: seq<Entry>): nat {
    if es == [] then 0 else SumCounts(es[..|es| - 1]) + es[|es| - 1].count
  }

  lemma {:induction false} WordCountIsTotal(ws: seq<string>)
    ensures SumCounts(Frequencies(ws)) == |ws|
  {
    if ws != [] {
      var init, last := ws[..|ws| - 1], ws[|ws| - 1];
      assert ws == init + [last];
      WordCountIsTotal(init);
      if last in init {
        RepeatedWordBumps(init, last);
      } else {
        NewWordAppends(init, last);
      }
    }
  }

  /** A word seen before adds one to its own count. */
  lemma RepeatedWordBumps(init: seq<string>, last: string)
    requires last in init
    ensures SumCounts(Frequencies(init + [last])) == SumCounts(Frequencies(init)) + 1
  {
    var ws := init + [last];
    assert ws[..|ws| - 1] == init;
    var fi, f := Frequencies(init), Frequencies(ws);
    var di, d := Distinct(init), Distinct(ws);
    assert d == di;
    SumBump(fi, f, Pos(di, last));
  }

  /** A new word adds an entry with count 1 at the end. */
  lemma NewWordAppends(init: seq<string>, last: string)
    requires last !in init
    ensures SumCounts(Frequencies(init + [last])) == SumCounts(Frequencies(init)) + 1
  {
    var ws := init + [last];
    assert ws[..|ws| - 1] == init;
    var fi, f := Frequencies(init), Frequencies(ws);
    var di, d := Distinct(init), Distinct(ws);
    assert d == di + [last];
    assert f[..|f| - 1] == fi by {
      forall i | 0 <= i < |fi| ensures f[i] == fi[i] {
        assert di[i] != last;
      }
    }
    assert f[|f| - 1] == Entry(last, 1);
  }

  /** `f` is `fi` with the count at `p` one higher. */
  lemma {:induction false} SumBump(fi: seq<Entry>, f: seq<Entry>, p: nat)
    requires |f| == |fi| && p < |fi|
    requires f[p].count == fi[p].count + 1
    requires forall i :: 0 <= i < |fi| && i != p ==> f[i] == fi[i]
    ensures SumCounts(f) == SumCounts(fi) + 1
  {
    var n := |fi| - 1;
    if p == n {
      assert f[..n] == fi[..n];
    } else {
      SumBump(fi[..n], f[..n], p);
      assert f[n] == fi[n];
    }
  }
}
