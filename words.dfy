/**
 * The word list entry and the shuffle that orders a training run (words.ts).
 * `Math.random` is an oracle: `draws` lists the numbers it returns, in order,
 * each in [0, 1).
 */
module Words {

  datatype Category = Animal | Food | Transport | Verb | Social

  datatype Word = Word(id: string, category: Category, word: string, pinyin: string, prompt: string, emoji: string)

  predicate ValidDraws(draws: seq<real>) {
    forall k :: 0 <= k < |draws| ==> 0.0 <= draws[k] < 1.0
  }

  lemma BelowOneTimes(r: real, n: real)
    requires 0.0 <= r < 1.0 && n > 0.0
    ensures 0.0 <= r * n < n
  {
    var d := 1.0 - r;
    assert d * n > 0.0;
    assert n - r * n == d * n;
  }

  /** `Math.floor(r * (i + 1))`: the swap partner, always within 0..i. */
  function SwapPartner(r: real, i: nat): (j: nat)
    requires 0.0 <= r < 1.0
    ensures j <= i
  {
    var n := (i + 1) as real;
    BelowOneTimes(r, n);
    (r * n).Floor
  }

  function Swap<T>(s: seq<T>, i: nat, j: nat): seq<T>
    requires i < |s| && j < |s|
  {
    s[i := s[j]][j := s[i]]
  }

  /**
   * The iterations from `i` down to 1 of the loop over a copy of length `n`;
   * iteration `i` uses draw number `n - 1 - i`.
   */
  function Pass<T>(s: seq<T>, draws: seq<real>, i: nat): seq<T>
    requires i < |s| && |draws| >= |s| - 1 && ValidDraws(draws)
    decreases i
  {
    if i == 0 then s
    else
      var j := SwapPartner(draws[|s| - 1 - i], i);
      Pass(Swap(s, i, j), draws, i - 1)
  }

  /** The result of shuffleWords as a function of the input and the draws. */
  function Shuffled<T>(s: seq<T>, draws: seq<real>): (r: seq<T>)
    requires |draws| >= |s| - 1 && ValidDraws(draws)
    ensures |r| == |s|
    ensures |s| <= 1 ==> r == s
  {
    if |s| == 0 then s else PassProperties(s, draws, |s| - 1); Pass(s, draws, |s| - 1)
  }

  lemma SwapPermutes<T>(s: seq<T>, i: nat, j: nat)
    requires i < |s| && j < |s|
    ensures |Swap(s, i, j)| == |s|
    ensures multiset(Swap(s, i, j)) == multiset(s)
  {
  }

  /** The passes permute their input and never touch a position above `i`. */
  lemma {:induction false} PassProperties<T>(s: seq<T>, draws: seq<real>, i: nat)
    requires i < |s| && |draws| >= |s| - 1 && ValidDraws(draws)
    ensures |Pass(s, draws, i)| == |s|
    ensures multiset(Pass(s, draws, i)) == multiset(s)
    ensures forall k :: i < k < |s| ==> Pass(s, draws, i)[k] == s[k]
    ensures Pass(s, draws, i)[i + 1..] == s[i + 1..]
    decreases i
  {
    if i > 0 {
      var j := SwapPartner(draws[|s| - 1 - i], i);
      SwapPermutes(s, i, j);
      PassProperties(Swap(s, i, j), draws, i - 1);
    }
  }

  /** The shuffle is a permutation of its input, of the same length. */
  lemma ShuffledPermutes<T>(s: seq<T>, draws: seq<real>)
    requires |draws| >= |s| - 1 && ValidDraws(draws)
    ensures |Shuffled(s, draws)| == |s|
    ensures multiset(Shuffled(s, draws)) == multiset(s)
  {
    if |s| > 0 {
      PassProperties(s, draws, |s| - 1);
    }
  }

  /** One iteration of the loop: the remaining passes after the swap still reach `target`, and position `i` is final. */
  lemma PassStep<T>(s: seq<T>, draws: seq<real>, i: nat, target: seq<T>)
    requires 0 < i < |s| && |draws| >= |s| - 1 && ValidDraws(draws)
    requires Pass(s, draws, i) == target && |target| == |s|
    ensures var next := Swap(s, i, SwapPartner(draws[|s| - 1 - i], i));
            Pass(next, draws, i - 1) == target && next[i..] == target[i..]
  {
    var next := Swap(s, i, SwapPartner(draws[|s| - 1 - i], i));
    SwapPermutes(s, i, SwapPartner(draws[|s| - 1 - i], i));
    PassProperties(next, draws, i - 1);
  }

  /**
   * shuffleWords: copies the list and swaps in place from the last position
   * down to position 1. The input is a value, so it is not modified.
   */
  method ShuffleWords<T>(wordList: seq<T>, draws: seq<real>) returns (shuffled: seq<T>)
    requires |draws| >= |wordList| - 1 && ValidDraws(draws)
    ensures shuffled == Shuffled(wordList, draws)
    ensures |shuffled| == |wordList| && multiset(shuffled) == multiset(wordList)
    ensures |wordList| <= 1 ==> shuffled == wordList
  {
    var n := |wordList|;
    ghost var target := Shuffled(wordList, draws);
    ShuffledPermutes(wordList, draws);
    var a := new T[n](k requires 0 <= k < n => wordList[k]);
    assert a[..] == wordList;
    var i := n - 1;
    while i > 0
      invariant -1 <= i < n && (n > 0 ==> i >= 0)
      invariant i >= 0 ==> Pass(a[..], draws, i) == target
      // positions above i are final: later iterations never touch them
      invariant a[i + 1..] == target[i + 1..]
    {
      var j := SwapPartner(draws[n - 1 - i], i);
      ghost var before := a[..];
      a[i], a[j] := a[j], a[i];
      assert a[..] == Swap(before, i, j);
      PassStep(before, draws, i, target);
      i := i - 1;
    }
    shuffled := a[..];
  }
}
