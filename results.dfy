// The dominant-mood computation of the `Results` component
// (src/components/results.tsx): the moods collected during a session are
// folded into per-mood totals, and the first mood with the largest total,
// in the totals' key order, becomes the final result.
module ResultsComponent {

  datatype Option<T> = None | Some(value: T)

  /** The mood keys a session can collect. */
  datatype Mood = CosmicChill | MainCharacter | ChaoticGood | SoftExistential

  /** The position of the first occurrence of `x` in `s`. */
  function FirstIndex<T(==)>(s: seq<T>, x: T): (i: nat)
    requires x in s
    ensures i < |s| && s[i] == x
    ensures forall j :: 0 <= j < i ==> s[j] != x
  {
    if s[0] == x then 0 else 1 + FirstIndex(s[1..], x)
  }

  /** `order` lists each mood of `moods` once, by first occurrence: the key
      order of the totals object, since its keys are inserted in that order. */
  ghost predicate FirstSeenOrder(order: seq<Mood>, moods: seq<Mood>)
  {
    && (forall m :: m in order <==> m in moods)
    && (forall j, k :: 0 <= j < k < |order| ==>
          order[j] in moods && order[k] in moods &&
          FirstIndex(moods, order[j]) < FirstIndex(moods, order[k]))
  }

  /** The sum of the totals of `keys`. */
  function SumTotals(keys: seq<Mood>, totals: map<Mood, nat>): nat
    requires forall m :: m in keys ==> m in totals
  {
    if keys == [] then 0
    else SumTotals(keys[..|keys| - 1], totals) + totals[keys[|keys| - 1]]
  }

  lemma {:induction false} SumTotalsIgnoresOthers(keys: seq<Mood>, totals: map<Mood, nat>, m: Mood, v: nat)
    requires forall k :: k in keys ==> k in totals
    requires m !in keys
    ensures SumTotals(keys, totals[m := v]) == SumTotals(keys, totals)
  {
    if keys != [] {
      SumTotalsIgnoresOthers(keys[..|keys| - 1], totals, m, v);
    }
  }

  lemma {:induction false} SumTotalsBump(keys: seq<Mood>, totals: map<Mood, nat>, m: Mood)
    requires forall k :: k in keys ==> k in totals
    requires forall j, k :: 0 <= j < k < |keys| ==> keys[j] != keys[k]
    requires m in keys
    ensures SumTotals(keys, totals[m := totals[m] + 1]) == SumTotals(keys, totals) + 1
  {
    var init, last := keys[..|keys| - 1], keys[|keys| - 1];
    if last == m {
      SumTotalsIgnoresOthers(init, totals, m, totals[m] + 1);
    } else {
      SumTotalsBump(init, totals, m);
    }
  }

  /** The totals object after the `reduce` over `moods`: a mood already
      present gets one more, a new mood gets a total of one. */
  function Totals(moods: seq<Mood>): (totals: map<Mood, nat>)
    ensures moods != [] ==> moods[|moods| - 1] in totals
    ensures forall m :: m in totals ==> totals[m] > 0
  {
    if moods == [] then map[]
    else
      var totals, mood := Totals(moods[..|moods| - 1]), moods[|moods| - 1];
      if mood in totals then totals[mood := totals[mood] + 1] else totals[mood := 1]
  }

  /** The keys of that object in insertion order: a mood is appended when the
      `reduce` creates its entry. */
  function KeyOrder(moods: seq<Mood>): (order: seq<Mood>)
    ensures |order| <= |moods|
    ensures forall i :: 0 <= i < |order| ==> order[i] in moods
  {
    if moods == [] then []
    else
      var mood := moods[|moods| - 1];
      if mood in Totals(moods[..|moods| - 1]) then KeyOrder(moods[..|moods| - 1])
      else KeyOrder(moods[..|moods| - 1]) + [mood]
  }

  /** The totals count occurrences: a mood has an entry exactly when it was
      collected, and its entry is the number of times it was collected. */
  lemma {:induction false} TotalsCountOccurrences(moods: seq<Mood>)
    ensures forall m :: m in Totals(moods) <==> m in moods
    ensures forall m :: m in Totals(moods) ==> Totals(moods)[m] == multiset(moods)[m]
  {
    if moods != [] {
      var init := moods[..|moods| - 1];
      TotalsCountOccurrences(init);
      assert moods == init + [moods[|moods| - 1]];
    }
  }

  /** Extending a sequence does not move the first occurrence of an element
      already present. */
  lemma FirstIndexOfPrefix<T>(s: seq<T>, n: nat, x: T)
    requires n <= |s| && x in s[..n]
    ensures FirstIndex(s, x) == FirstIndex(s[..n], x)
  {
    var f, g := FirstIndex(s[..n], x), FirstIndex(s, x);
    assert s[f] == s[..n][f] == x;
    assert g <= f;
    assert s[..n][g] == s[g];
  }

  /** An element not seen before position `i` first occurs at `i`. */
  lemma FirstIndexOfNew<T>(s: seq<T>, i: nat)
    requires i < |s| && s[i] !in s[..i]
    ensures FirstIndex(s, s[i]) == i
  {
  }

  /** The key order holds exactly the keys of the totals, each once. */
  lemma {:induction false} KeyOrderMatchesTotals(moods: seq<Mood>)
    ensures forall m :: m in KeyOrder(moods) <==> m in Totals(moods)
    ensures forall j, k :: 0 <= j < k < |KeyOrder(moods)| ==> KeyOrder(moods)[j] != KeyOrder(moods)[k]
  {
    if moods != [] {
      KeyOrderMatchesTotals(moods[..|moods| - 1]);
    }
  }

  /** Each key comes before every key whose first occurrence is later. */
  lemma {:induction false} KeyOrderByFirstOccurrence(moods: seq<Mood>)
    ensures forall m :: m in KeyOrder(moods) ==> m in moods
    ensures forall j, k :: 0 <= j < k < |KeyOrder(moods)| ==>
              FirstIndex(moods, KeyOrder(moods)[j]) < FirstIndex(moods, KeyOrder(moods)[k])
  {
    KeyOrderMatchesTotals(moods);
    TotalsCountOccurrences(moods);
    if moods != [] {
      var n := |moods| - 1;
      var init, mood := moods[..n], moods[n];
      var order, order' := KeyOrder(init), KeyOrder(moods);
      KeyOrderByFirstOccurrence(init);
      TotalsCountOccurrences(init);
      forall j | 0 <= j < |order|
        ensures FirstIndex(moods, order[j]) == FirstIndex(init, order[j]) < n
      {
        FirstIndexOfPrefix(moods, n, order[j]);
      }
      if mood !in init {
        FirstIndexOfNew(moods, n);
        forall j, k | 0 <= j < k < |order'|
          ensures FirstIndex(moods, order'[j]) < FirstIndex(moods, order'[k])
        {
          assert order'[j] == order[j];
          if k < |order| {
            assert order'[k] == order[k];
          }
        }
      }
    }
  }

  /** The key order lists each collected mood once, by first occurrence. */
  lemma KeyOrderIsFirstSeen(moods: seq<Mood>)
    ensures FirstSeenOrder(KeyOrder(moods), moods)
  {
    KeyOrderMatchesTotals(moods);
    TotalsCountOccurrences(moods);
    KeyOrderByFirstOccurrence(moods);
  }

  /** The totals add up to the number of collected moods. */
  lemma {:induction false} TotalsSumToLength(moods: seq<Mood>)
    ensures forall m :: m in KeyOrder(moods) ==> m in Totals(moods)
    ensures SumTotals(KeyOrder(moods), Totals(moods)) == |moods|
  {
    KeyOrderMatchesTotals(moods);
    if moods != [] {
      var n := |moods| - 1;
      var init, mood := moods[..n], moods[n];
      var order, totals := KeyOrder(init), Totals(init);
      TotalsSumToLength(init);
      KeyOrderMatchesTotals(init);
      if mood in totals {
        assert KeyOrder(moods) == order && Totals(moods) == totals[mood := totals[mood] + 1];
        SumTotalsBump(order, totals, mood);
      } else {
        assert KeyOrder(moods) == order + [mood] && Totals(moods) == totals[mood := 1];
        SumTotalsIgnoresOthers(order, totals, mood, 1);
        assert (order + [mood])[..|order|] == order;
      }
    }
  }

  /** The `reduce` of the effect: a total per mood, and the order in which
      the totals object received its keys. */
  method TallyMoods(moods: seq<Mood>) returns (totals: map<Mood, nat>, order: seq<Mood>)
    ensures forall m :: m in totals <==> m in moods
    ensures forall m :: m in totals ==> totals[m] == multiset(moods)[m]
    ensures FirstSeenOrder(order, moods)
    ensures forall m :: m in order ==> m in totals
    ensures SumTotals(order, totals) == |moods|
  {
    totals, order := map[], [];
    for i := 0 to |moods|
      invariant totals == Totals(moods[..i]) && order == KeyOrder(moods[..i])
    {
      var mood := moods[i];
      assert moods[..i + 1][..i] == moods[..i];
      if mood in totals {
        totals := totals[mood := totals[mood] + 1];
      } else {
        totals := totals[mood := 1];
        order := order + [mood];
      }
    }
    assert moods[..|moods|] == moods;
    TotalsCountOccurrences(moods);
    KeyOrderIsFirstSeen(moods);
    TotalsSumToLength(moods);
  }

  /** The key at position `b` has the largest total, and every key before it
      has a strictly smaller one. */
  ghost predicate IsFirstMaximumAt(keys: seq<Mood>, totals: map<Mood, nat>, b: nat)
    requires forall k :: k in keys ==> k in totals
  {
    && b < |keys|
    && (forall j :: 0 <= j < |keys| ==> totals[keys[j]] <= totals[keys[b]])
    && (forall j :: 0 <= j < b ==> totals[keys[j]] < totals[keys[b]])
  }

  /** The `for...in` scan of the effect: the first key seen is the initial
      candidate, and a later key replaces it only with a strictly larger total. */
  method TopMood(order: seq<Mood>, totals: map<Mood, nat>) returns (top: Option<Mood>, ghost best: nat)
    requires forall m :: m in order ==> m in totals
    ensures top == None <==> order == []
    ensures top.Some? ==> IsFirstMaximumAt(order, totals, best) && order[best] == top.value
  {
    top, best := None, 0;
    for i := 0 to |order|
      invariant top == None <==> i == 0
      invariant top.Some? ==> best < i && order[best] == top.value
      invariant top.Some? ==> forall j :: 0 <= j < i ==> totals[order[j]] <= totals[top.value]
      invariant top.Some? ==> forall j :: 0 <= j < best ==> totals[order[j]] < totals[top.value]
    {
      var mood := order[i];
      if top.None? {
        top, best := Some(mood), i;
      } else if totals[mood] > totals[top.value] {
        top, best := Some(mood), i;
      }
    }
  }

  /** `top` is the dominant mood of `moods`: none for no moods, otherwise a
      collected mood occurring at least as often as any other, and seen no
      later than any mood tied with it. */
  ghost predicate IsDominant(moods: seq<Mood>, top: Option<Mood>)
  {
    match top
    case None => moods == []
    case Some(m) =>
      && m in moods
      && (forall k :: multiset(moods)[k] <= multiset(moods)[m])
      && (forall k :: k in moods && multiset(moods)[k] == multiset(moods)[m] ==>
            FirstIndex(moods, m) <= FirstIndex(moods, k))
  }

  /** The result of the scan over the tallied totals is the dominant mood. */
  lemma DominantFromTotals(moods: seq<Mood>, totals: map<Mood, nat>, order: seq<Mood>, b: nat)
    requires forall k :: k in totals <==> k in moods
    requires forall k :: k in totals ==> totals[k] == multiset(moods)[k]
    requires FirstSeenOrder(order, moods)
    requires IsFirstMaximumAt(order, totals, b)
    ensures IsDominant(moods, Some(order[b]))
  {
    var m := order[b];
    forall k
      ensures multiset(moods)[k] <= multiset(moods)[m]
    {
      if k in moods {
        var jk :| 0 <= jk < |order| && order[jk] == k;
      }
    }
    forall k | k in moods && multiset(moods)[k] == multiset(moods)[m]
      ensures FirstIndex(moods, m) <= FirstIndex(moods, k)
    {
      var jk :| 0 <= jk < |order| && order[jk] == k;
      assert b <= jk;
    }
  }

  /** The whole effect body: tally the moods, then scan the totals. */
  method DominantMood(moods: seq<Mood>) returns (top: Option<Mood>)
    ensures IsDominant(moods, top)
  {
    var totals, order := TallyMoods(moods);
    ghost var best;
    top, best := TopMood(order, totals);
    if top.Some? {
      DominantFromTotals(moods, totals, order, best);
    }
  }

  /** The dominant mood is determined by the moods alone. */
  lemma DominantIsUnique(moods: seq<Mood>, a: Option<Mood>, b: Option<Mood>)
    requires IsDominant(moods, a) && IsDominant(moods, b)
    ensures a == b
  {
    if a.Some? && b.Some? {
      assert multiset(moods)[a.value] == multiset(moods)[b.value];
      var i := FirstIndex(moods, a.value);
      assert i == FirstIndex(moods, b.value);
    }
  }

  /** No moods give no result, and a tie goes to the mood seen first and
      not to the other. */
  lemma TieGoesToFirstSeen()
    ensures IsDominant([], None)
    ensures IsDominant([ChaoticGood, CosmicChill], Some(ChaoticGood))
    ensures !IsDominant([ChaoticGood, CosmicChill], Some(CosmicChill))
  {
    var tie := [ChaoticGood, CosmicChill];
    assert FirstIndex(tie, ChaoticGood) == 0;
    assert FirstIndex(tie, CosmicChill) == 1;
  }

  /** A larger count wins even when its mood is seen later. */
  lemma LargerCountWins()
    ensures IsDominant([CosmicChill, ChaoticGood, ChaoticGood], Some(ChaoticGood))
    ensures !IsDominant([CosmicChill, ChaoticGood, ChaoticGood], Some(CosmicChill))
  {
    var s := [CosmicChill, ChaoticGood, ChaoticGood];
    assert multiset(s) == multiset{CosmicChill, ChaoticGood, ChaoticGood};
  }

  class Results {
    /** The mood shown as the session's result, if any. */
    var finalResult: Option<Mood>

    constructor ()
      ensures finalResult == None
    {
      finalResult := None;
    }

    /** The effect run when `showResults` or `moodCount` changes: only while
        the results are shown does it recompute the final result. */
    method ShowResultsEffect(showResults: bool, moodCount: seq<Mood>)
      modifies this
      ensures !showResults ==> finalResult == old(finalResult)
      ensures showResults ==> IsDominant(moodCount, finalResult)
    {
      if !showResults {
        return;
      }
      var top := DominantMood(moodCount);
      finalResult := top;
    }
  }
}
