/**
 Ranking a player's decks by how often they were played: count the
 battles per canonical deck (keys in the order first seen, as a Python
 dict keeps them), sort the counts in descending order with a stable sort,
 keep the first three, and report each with its share of all counted
 battles.
 */
module DeckRanking {
  import opened Common
  import opened Upstream
  import Helpers
  import CardOrder

  type Deck = seq<string>

  /** A battle whose team[0] lists its cards; any other battle is skipped when counting. */
  predicate HasCards(b: Battle) { HasTeam(b) && b.team[0].cards.Some? }

  function DeckOf(b: Battle): Deck
    requires HasCards(b)
  {
    Helpers.Canon(b.team[0].cards.value)
  }

  /** How many battles of s were played with canonical deck d. */
  function Occurrences(s: seq<Battle>, d: Deck): nat {
    if s == [] then 0
    else
      var b := s[|s| - 1];
      Occurrences(s[..|s| - 1], d) + (if HasCards(b) && DeckOf(b) == d then 1 else 0)
  }

  /** How many battles of s have a readable deck. */
  function WithDeck(s: seq<Battle>): nat {
    if s == [] then 0
    else WithDeck(s[..|s| - 1]) + (if HasCards(s[|s| - 1]) then 1 else 0)
  }

  predicate Distinct(keys: seq<Deck>) {
    forall i, j :: 0 <= i < j < |keys| ==> keys[i] != keys[j]
  }

  /** The decks of s in the order of their first appearance. */
  function FirstSeen(s: seq<Battle>): (keys: seq<Deck>)
    ensures Distinct(keys)
    ensures forall d :: d in keys <==> Occurrences(s, d) > 0
    ensures forall d :: d in keys ==> CardOrder.Sorted(d)
  {
    if s == [] then []
    else
      var keys := FirstSeen(s[..|s| - 1]);
      var b := s[|s| - 1];
      if HasCards(b) && DeckOf(b) !in keys then keys + [DeckOf(b)] else keys
  }

  lemma {:induction false} OccurrenceWitness(s: seq<Battle>, d: Deck)
    requires Occurrences(s, d) > 0
    ensures exists k :: 0 <= k < |s| && HasCards(s[k]) && DeckOf(s[k]) == d
  {
    var n := |s| - 1;
    if !(HasCards(s[n]) && DeckOf(s[n]) == d) {
      OccurrenceWitness(s[..n], d);
      var k :| 0 <= k < n && HasCards(s[..n][k]) && DeckOf(s[..n][k]) == d;
      assert s[..n][k] == s[k];
    }
  }

  lemma {:induction false} OccurrencesPrefix(s: seq<Battle>, d: Deck, k: nat)
    requires k <= |s|
    ensures Occurrences(s[..k], d) <= Occurrences(s, d)
  {
    if k == |s| {
      assert s[..k] == s;
    } else {
      var n := |s| - 1;
      assert s[..n][..k] == s[..k];
      OccurrencesPrefix(s[..n], d, k);
    }
  }

  /** The keys come in the order of the decks' first battles: an earlier key is played at some
      battle before the later key has been played at all. */
  lemma {:induction false} FirstSeenOrder(s: seq<Battle>, i: nat, j: nat)
    requires i < j < |FirstSeen(s)|
    ensures exists k :: 0 <= k < |s| && HasCards(s[k]) && DeckOf(s[k]) == FirstSeen(s)[i] &&
                        Occurrences(s[..k], FirstSeen(s)[j]) == 0
    decreases |s|, 0
  {
    var n := |s| - 1;
    var init, b := s[..n], s[n];
    assert s == init + [b];
    var k := FirstSeenOrderSnoc(init, b, i, j);
    assert init[k] == s[k] && init[..k] == s[..k];
  }

  /** The order of the keys after one more battle, from the order before it. */
  lemma {:induction false} FirstSeenOrderSnoc(init: seq<Battle>, b: Battle, i: nat, j: nat) returns (k: nat)
    requires i < j < |FirstSeen(init + [b])|
    ensures k < |init| && HasCards(init[k]) && DeckOf(init[k]) == FirstSeen(init + [b])[i] &&
            Occurrences(init[..k], FirstSeen(init + [b])[j]) == 0
    decreases |init|, 2
  {
    var keys := FirstSeen(init);
    FirstSeenStep(init, b);
    if j < |keys| {
      k := FirstSeenOrderOld(init, i, j);
    } else {
      k := FirstSeenOrderNew(init, b, i);
    }
  }

  /** Both keys were already present before the last battle. */
  lemma {:induction false} FirstSeenOrderOld(init: seq<Battle>, i: nat, j: nat) returns (k: nat)
    requires i < j < |FirstSeen(init)|
    ensures k < |init| && HasCards(init[k]) && DeckOf(init[k]) == FirstSeen(init)[i] &&
            Occurrences(init[..k], FirstSeen(init)[j]) == 0
    decreases |init|, 1
  {
    FirstSeenOrder(init, i, j);
    k :| 0 <= k < |init| && HasCards(init[k]) && DeckOf(init[k]) == FirstSeen(init)[i] &&
         Occurrences(init[..k], FirstSeen(init)[j]) == 0;
  }

  /** The later key is the last battle's new deck. */
  lemma {:induction false} FirstSeenOrderNew(init: seq<Battle>, b: Battle, i: nat) returns (k: nat)
    requires i < |FirstSeen(init)|
    requires HasCards(b) && DeckOf(b) !in FirstSeen(init)
    ensures k < |init| && HasCards(init[k]) && DeckOf(init[k]) == FirstSeen(init)[i] &&
            Occurrences(init[..k], DeckOf(b)) == 0
  {
    var keys := FirstSeen(init);
    assert keys[i] in keys;
    OccurrenceWitness(init, keys[i]);
    k :| 0 <= k < |init| && HasCards(init[k]) && DeckOf(init[k]) == keys[i];
    OccurrencesPrefix(init, DeckOf(b), k);
  }

  lemma FirstSeenStep(s: seq<Battle>, b: Battle)
    ensures FirstSeen(s + [b]) ==
      if HasCards(b) && DeckOf(b) !in FirstSeen(s) then FirstSeen(s) + [DeckOf(b)] else FirstSeen(s)
  {
    assert (s + [b])[..|s|] == s;
  }

  datatype DeckCount = DeckCount(deck: Deck, count: nat)

  /** Each key with its number of battles. */
  function Counted(keys: seq<Deck>, s: seq<Battle>): (r: seq<DeckCount>)
    ensures |r| == |keys|
    ensures forall i :: 0 <= i < |keys| ==> r[i] == DeckCount(keys[i], Occurrences(s, keys[i]))
  {
    seq(|keys|, i requires 0 <= i < |keys| => DeckCount(keys[i], Occurrences(s, keys[i])))
  }

  /** `counts.items()` after the counting loop. */
  function Tally(s: seq<Battle>): seq<DeckCount> {
    Counted(FirstSeen(s), s)
  }

  lemma CountStep(s: seq<Battle>, b: Battle)
    ensures forall d :: Occurrences(s + [b], d) == Occurrences(s, d) + (if HasCards(b) && DeckOf(b) == d then 1 else 0)
    ensures FirstSeen(s + [b]) ==
      if HasCards(b) && DeckOf(b) !in FirstSeen(s) then FirstSeen(s) + [DeckOf(b)] else FirstSeen(s)
  {
    assert (s + [b])[..|s|] == s;
    FirstSeenStep(s, b);
  }

  method CountDecks(battles: seq<Battle>) returns (items: seq<DeckCount>)
    ensures items == Tally(battles)
  {
    var keys: seq<Deck> := [];
    var counts: map<Deck, nat> := map[];
    var i := 0;
    while i < |battles|
      invariant 0 <= i <= |battles|
      invariant keys == FirstSeen(battles[..i])
      invariant forall d :: d in counts <==> d in keys
      invariant forall d :: d in counts ==> counts[d] == Occurrences(battles[..i], d)
    {
      var b := battles[i];
      assert battles[..i + 1] == battles[..i] + [b];
      CountStep(battles[..i], b);
      if HasTeam(b) && b.team[0].cards.Some? {
        var deckKey := Helpers.Canon(b.team[0].cards.value);
        var n := if deckKey in counts then counts[deckKey] else 0;
        if deckKey !in counts {
          keys := keys + [deckKey];
        }
        counts := counts[deckKey := n + 1];
      }
      i := i + 1;
    }
    assert battles[..i] == battles;
    items := seq(|keys|, j requires 0 <= j < |keys| => DeckCount(keys[j], counts[keys[j]]));
  }

  function Sum(items: seq<DeckCount>): nat {
    if items == [] then 0 else items[0].count + Sum(items[1..])
  }

  /** Occurrences of d inside the keys, over s extended by one battle. */
  lemma {:induction false} SumCountedStep(keys: seq<Deck>, s: seq<Battle>, b: Battle)
    requires Distinct(keys)
    ensures Sum(Counted(keys, s + [b])) ==
      Sum(Counted(keys, s)) + (if HasCards(b) && DeckOf(b) in keys then 1 else 0)
  {
    if keys != [] {
      var k0, rest := keys[0], keys[1..];
      assert Distinct(rest) by {
        forall i, j | 0 <= i < j < |rest| ensures rest[i] != rest[j] {
          assert rest[i] == keys[i + 1] && rest[j] == keys[j + 1];
        }
      }
      assert keys == [k0] + rest;
      assert HasCards(b) && DeckOf(b) in keys ==> (DeckOf(b) == k0 <==> DeckOf(b) !in rest);
      SumCountedStep(rest, s, b);
      SumCountedCons(keys, s + [b]);
      SumCountedCons(keys, s);
      OccurrencesStep(s, b, k0);
    }
  }

  lemma OccurrencesStep(s: seq<Battle>, b: Battle, d: Deck)
    ensures Occurrences(s + [b], d) == Occurrences(s, d) + (if HasCards(b) && DeckOf(b) == d then 1 else 0)
  {
    assert (s + [b])[..|s|] == s;
  }

  lemma SumCountedCons(keys: seq<Deck>, s: seq<Battle>)
    requires keys != []
    ensures Sum(Counted(keys, s)) == Occurrences(s, keys[0]) + Sum(Counted(keys[1..], s))
  {
    assert Counted(keys, s)[1..] == Counted(keys[1..], s);
  }

  lemma SumAppend(items: seq<DeckCount>, x: DeckCount)
    ensures Sum(items + [x]) == Sum(items) + x.count
  {
    if items != [] {
      assert (items + [x])[1..] == items[1..] + [x];
      SumAppend(items[1..], x);
    }
  }

  lemma {:induction false} CountedUnchanged(keys: seq<Deck>, s: seq<Battle>, b: Battle)
    requires !HasCards(b) || DeckOf(b) !in keys
    ensures Counted(keys, s + [b]) == Counted(keys, s)
  {
    assert (s + [b])[..|s|] == s;
  }

  /** Every battle with a readable deck is counted exactly once. */
  lemma {:induction false} TallySum(s: seq<Battle>)
    ensures Sum(Tally(s)) == WithDeck(s) <= |s|
  {
    if s != [] {
      var init, b := s[..|s| - 1], s[|s| - 1];
      assert s == init + [b];
      TallySum(init);
      var keys := FirstSeen(init);
      SumCountedStep(keys, init, b);
      if HasCards(b) && DeckOf(b) !in keys {
        CountedUnchanged(keys, init, b);
        assert Counted(keys + [DeckOf(b)], s) == Counted(keys, s) + [DeckCount(DeckOf(b), Occurrences(s, DeckOf(b)))];
        SumAppend(Counted(keys, s), DeckCount(DeckOf(b), Occurrences(s, DeckOf(b))));
      }
    }
  }

  /** No readable deck leaves nothing to rank. */
  lemma TallyEmpty(s: seq<Battle>)
    ensures Tally(s) == [] <==> WithDeck(s) == 0
  {
    TallySum(s);
    if Tally(s) != [] {
      assert Tally(s)[0].count > 0;
      assert Sum(Tally(s)) >= Tally(s)[0].count;
    }
  }

  // ---------------------------------------------------------------- stable descending sort

  predicate NonIncreasing(s: seq<DeckCount>) {
    forall i, j :: 0 <= i < j < |s| ==> s[i].count >= s[j].count
  }

  /** The entries of s with count c, in their order in s. */
  function WithCount(s: seq<DeckCount>, c: nat): seq<DeckCount> {
    if s == [] then [] else (if s[0].count == c then [s[0]] else []) + WithCount(s[1..], c)
  }

  /** Places x before the first entry whose count does not exceed it, after every larger one. */
  function InsertByCount(x: DeckCount, s: seq<DeckCount>): (r: seq<DeckCount>)
    requires NonIncreasing(s)
    ensures NonIncreasing(r)
    ensures multiset(r) == multiset(s) + multiset{x}
  {
    if s == [] then [x]
    else if s[0].count <= x.count then ConsNonIncreasing(x, s); [x] + s
    else
      var t := InsertByCount(x, s[1..]);
      assert s == [s[0]] + s[1..];
      AllAtMost(t, s[1..], x, s[0].count);
      ConsNonIncreasing(s[0], t);
      assert multiset(s) == multiset{s[0]} + multiset(s[1..]);
      assert multiset([s[0]] + t) == multiset{s[0]} + multiset(t);
      [s[0]] + t
  }

  lemma ConsNonIncreasing(h: DeckCount, t: seq<DeckCount>)
    requires NonIncreasing(t) && (t == [] || t[0].count <= h.count)
    ensures NonIncreasing([h] + t)
  {
    forall i, j | 0 <= i < j < |[h] + t| ensures ([h] + t)[i].count >= ([h] + t)[j].count {
      if i == 0 {
        assert ([h] + t)[j] == t[j - 1];
      } else {
        assert ([h] + t)[i] == t[i - 1] && ([h] + t)[j] == t[j - 1];
      }
    }
  }

  /** A bound on every entry of u and on x bounds every entry of a sequence with their elements. */
  lemma AllAtMost(t: seq<DeckCount>, u: seq<DeckCount>, x: DeckCount, bound: nat)
    requires multiset(t) == multiset(u) + multiset{x}
    requires x.count <= bound && forall k :: 0 <= k < |u| ==> u[k].count <= bound
    ensures forall k :: 0 <= k < |t| ==> t[k].count <= bound
  {
    forall k | 0 <= k < |t| ensures t[k].count <= bound {
      assert t[k] in multiset(t);
      if t[k] != x {
        assert t[k] in multiset(u);
        assert t[k] in u;
      }
    }
  }

  /** sorted(items, key=count, reverse=True): descending. */
  function SortByCount(s: seq<DeckCount>): (r: seq<DeckCount>)
    ensures NonIncreasing(r)
    ensures multiset(r) == multiset(s) && |r| == |s|
  {
    if s == [] then []
    else
      assert s == [s[0]] + s[1..];
      InsertByCount(s[0], SortByCount(s[1..]))
  }

  lemma WithCountCons(x: DeckCount, s: seq<DeckCount>, c: nat)
    ensures WithCount([x] + s, c) == (if x.count == c then [x] else []) + WithCount(s, c)
  {
    assert ([x] + s)[1..] == s;
  }

  /** Inserting x keeps, for every count, the entries of that count in the order of [x] + s. */
  lemma {:induction false} InsertByCountStable(x: DeckCount, s: seq<DeckCount>, c: nat)
    requires NonIncreasing(s)
    ensures WithCount(InsertByCount(x, s), c) == WithCount([x] + s, c)
  {
    if s == [] {
      assert InsertByCount(x, s) == [x] + s;
    } else if s[0].count <= x.count {
      assert InsertByCount(x, s) == [x] + s;
    } else {
      // s[0] outranks x, so at most one of them has count c and their order does not matter.
      var tail := s[1..];
      var t := InsertByCount(x, tail);
      var wx := if x.count == c then [x] else [];
      var w0 := if s[0].count == c then [s[0]] else [];
      var rest := WithCount(tail, c);
      calc {
        WithCount(InsertByCount(x, s), c);
        WithCount([s[0]] + t, c);
        { WithCountCons(s[0], t, c); }
        w0 + WithCount(t, c);
        { InsertByCountStable(x, tail, c); WithCountCons(x, tail, c); }
        w0 + (wx + rest);
        { if wx == [] { assert w0 + ([] + rest) == [] + (w0 + rest); } else { assert w0 == []; } }
        wx + (w0 + rest);
        { WithCountCons(s[0], tail, c); assert s == [s[0]] + tail; }
        wx + WithCount(s, c);
        { WithCountCons(x, s, c); }
        WithCount([x] + s, c);
      }
    }
  }

  /** The sort is stable: for every count, its entries keep their order of first sighting. */
  lemma {:induction false} SortByCountStable(s: seq<DeckCount>, c: nat)
    ensures WithCount(SortByCount(s), c) == WithCount(s, c)
  {
    if s != [] {
      SortByCountStable(s[1..], c);
      InsertByCountStable(s[0], SortByCount(s[1..]), c);
      WithCountCons(s[0], SortByCount(s[1..]), c);
      WithCountCons(s[0], s[1..], c);
      assert s == [s[0]] + s[1..];
    }
  }

  lemma {:induction false} WithCountPrefix(s: seq<DeckCount>, k: nat, c: nat)
    requires k <= |s|
    ensures WithCount(s[..k], c) <= WithCount(s, c)
  {
    if k > 0 {
      WithCountPrefix(s[1..], k - 1, c);
      assert s[..k][1..] == s[1..][..k - 1];
    }
  }

  function Min(a: int, b: int): int { if a < b then a else b }

  /** The three most played decks, ties in the order first seen. */
  function Top3(items: seq<DeckCount>): (top: seq<DeckCount>)
    ensures |top| == Min(3, |items|) <= 3
  {
    SortByCount(items)[..Min(3, |items|)]
  }

  /** The top entries are among the items, in descending order, and equal counts keep their
      order of first sighting. */
  lemma Top3Ranked(items: seq<DeckCount>)
    ensures var top := Top3(items);
      |top| == Min(3, |items|) &&
      NonIncreasing(top) &&
      multiset(top) <= multiset(items) &&
      (forall c :: WithCount(top, c) <= WithCount(items, c))
  {
    var sorted := SortByCount(items);
    var k := Min(3, |items|);
    assert sorted == sorted[..k] + sorted[k..];
    assert multiset(sorted) == multiset(sorted[..k]) + multiset(sorted[k..]);
    forall c ensures WithCount(sorted[..k], c) <= WithCount(items, c) {
      WithCountPrefix(sorted, k, c);
      SortByCountStable(items, c);
    }
  }

  /** An entry is ranked only by its count: each top entry is at least every entry left out. */
  lemma Top3Outranks(items: seq<DeckCount>)
    ensures var sorted := SortByCount(items); var top := Top3(items);
      forall i, j :: 0 <= i < |top| <= j < |sorted| ==> top[i].count >= sorted[j].count
  {
    var sorted := SortByCount(items);
    var top := Top3(items);
    forall i, j | 0 <= i < |top| <= j < |sorted| ensures top[i].count >= sorted[j].count {
      assert top[i] == sorted[i];
    }
  }

  /** A deck with its share of the counted battles: round(n / total, 2), kept exact. */
  datatype RankedDeck = RankedDeck(deck: Deck, confidence: Ratio)

  function Report(top: seq<DeckCount>, total: nat): (r: seq<RankedDeck>)
    requires total > 0
    ensures |r| == |top|
    ensures forall i :: 0 <= i < |top| ==> r[i] == RankedDeck(top[i].deck, Ratio(top[i].count, total))
  {
    seq(|top|, i requires 0 <= i < |top| => RankedDeck(top[i].deck, Ratio(top[i].count, total)))
  }

  /** The reported top decks of a count: `total = sum(counts.values()) or 1`. */
  function RankDecks(items: seq<DeckCount>): (r: seq<RankedDeck>)
    ensures |r| == Min(3, |items|)
    ensures forall i :: 0 <= i < |r| ==> r[i].confidence.den > 0 && r[i].confidence.num >= 0
  {
    Report(Top3(items), if Sum(items) == 0 then 1 else Sum(items))
  }

  lemma SortByCountElements(items: seq<DeckCount>, i: nat)
    requires i < |SortByCount(items)|
    ensures SortByCount(items)[i] in items
  {
    assert SortByCount(items)[i] in multiset(SortByCount(items));
  }

  /** Counting then ranking the battles of s: at most three decks, each canonical (sorted),
      each with a share n / total where total counts every battle with a readable deck. */
  lemma RankedTally(s: seq<Battle>)
    ensures var r := RankDecks(Tally(s));
      |r| <= 3 && |r| == Min(3, |FirstSeen(s)|) &&
      forall i :: 0 <= i < |r| ==>
        CardOrder.Sorted(r[i].deck) &&
        r[i].confidence == Ratio(Occurrences(s, r[i].deck), WithDeck(s)) &&
        0 < r[i].confidence.num <= r[i].confidence.den
  {
    var items := Tally(s);
    TallySum(s);
    forall i | 0 <= i < Min(3, |items|)
      ensures var t := Top3(items)[i];
        t in items && t.count == Occurrences(s, t.deck) && t.deck in FirstSeen(s)
    {
      SortByCountElements(items, i);
    }
    forall i | 0 <= i < Min(3, |items|)
      ensures Top3(items)[i].count <= Sum(items)
    {
      SortByCountElements(items, i);
      var j :| 0 <= j < |items| && items[j] == Top3(items)[i];
      SumAtLeastEach(items, j);
    }
  }

  lemma {:induction false} SumAtLeastEach(items: seq<DeckCount>, j: nat)
    requires j < |items|
    ensures items[j].count <= Sum(items)
  {
    if j > 0 { SumAtLeastEach(items[1..], j - 1); }
  }
}
