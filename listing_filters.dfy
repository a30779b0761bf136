/**
 * The listing pages' filters: five toggles of which at most one is on, each
 * keeping the cards it selects from the full list.
 */
module ListingFilters {

  /** What a listing page knows of a recipe or workout card: the fields its filters read. */
  datatype Card = Card(id: int, name: string, timeToFinish: int, isMine: bool, isAdmin: bool)

  datatype Filter = Admin | Mine | Quick | Medium | Slow

  /** The predicate each filter button keeps: flags, or a preparation-time bucket in minutes. */
  predicate Keeps(f: Filter, c: Card) {
    match f
    case Admin => c.isAdmin
    case Mine => c.isMine
    case Quick => c.timeToFinish < 15
    case Medium => c.timeToFinish >= 15 && c.timeToFinish < 45
    case Slow => c.timeToFinish >= 45
  }

  /** Array.filter with the filter's predicate. */
  function Matching(cards: seq<Card>, f: Filter): (r: seq<Card>)
    ensures |r| <= |cards|
    ensures forall c :: c in r <==> c in cards && Keeps(f, c)
  {
    if cards == [] then []
    else
      var init := cards[..|cards| - 1];
      var last := cards[|cards| - 1];
      assert cards == init + [last];
      var rest := Matching(init, f);
      if Keeps(f, last) then rest + [last] else rest
  }

  /** `a` is `b` with some elements left out, the rest in their order. */
  predicate Subsequence(a: seq<Card>, b: seq<Card>)
    decreases |b|
  {
    if a == [] then true
    else if b == [] then false
    else if a[|a| - 1] == b[|b| - 1] then Subsequence(a[..|a| - 1], b[..|b| - 1])
    else Subsequence(a, b[..|b| - 1])
  }

  lemma {:induction false} SubsequenceReflexive(b: seq<Card>)
    ensures Subsequence(b, b)
    decreases |b|
  {
    if b != [] {
      SubsequenceReflexive(b[..|b| - 1]);
    }
  }

  /** A filtered list keeps the cards of the full list in their order. */
  lemma {:induction false} MatchingIsSubsequence(cards: seq<Card>, f: Filter)
    ensures Subsequence(Matching(cards, f), cards)
    decreases |cards|
  {
    if cards != [] {
      var init := cards[..|cards| - 1];
      MatchingIsSubsequence(init, f);
      if Keeps(f, cards[|cards| - 1]) {
        var r := Matching(cards, f);
        assert r[..|r| - 1] == Matching(init, f);
      } else {
        SubsequenceWithoutLast(Matching(init, f), cards);
      }
    }
  }

  lemma SubsequenceWithoutLast(a: seq<Card>, b: seq<Card>)
    requires b != [] && Subsequence(a, b[..|b| - 1])
    ensures Subsequence(a, b)
    decreases 2 * |b|
  {
    if a != [] && a[|a| - 1] == b[|b| - 1] {
      var b' := b[..|b| - 1];
      if b' != [] {
        SubsequenceDropLast(a, b');
        if a[..|a| - 1] != [] {
          assert Subsequence(a[..|a| - 1], b');
        }
      }
    }
  }

  /** Leaving out the last element of `a` keeps it a subsequence. */
  lemma {:induction false} SubsequenceDropLast(a: seq<Card>, b: seq<Card>)
    requires a != [] && Subsequence(a, b)
    ensures Subsequence(a[..|a| - 1], b)
    decreases 2 * |b| + 1
  {
    var a' := a[..|a| - 1];
    if b != [] {
      var b' := b[..|b| - 1];
      if a[|a| - 1] == b[|b| - 1] {
        SubsequenceWithoutLast(a', b);
      } else {
        SubsequenceDropLast(a, b');
        SubsequenceWithoutLast(a', b);
      }
    }
  }

  /** Each card takes exactly one of the three time buckets. */
  lemma TimeBucketsDisjoint(c: Card)
    ensures Keeps(Quick, c) || Keeps(Medium, c) || Keeps(Slow, c)
    ensures !(Keeps(Quick, c) && Keeps(Medium, c)) && !(Keeps(Quick, c) && Keeps(Slow, c))
    ensures !(Keeps(Medium, c) && Keeps(Slow, c))
  {
  }

  /** The quick, medium and slow lists together hold every card of the full list exactly once. */
  lemma TimeBucketsPartition(cards: seq<Card>)
    ensures multiset(Matching(cards, Quick)) + multiset(Matching(cards, Medium)) + multiset(Matching(cards, Slow)) ==
            multiset(cards)
    ensures |Matching(cards, Quick)| + |Matching(cards, Medium)| + |Matching(cards, Slow)| == |cards|
  {
    TimeBucketsMultiset(cards);
    var q, m, s := Matching(cards, Quick), Matching(cards, Medium), Matching(cards, Slow);
    assert |multiset(q) + multiset(m) + multiset(s)| == |multiset(cards)|;
  }

  lemma {:induction false} TimeBucketsMultiset(cards: seq<Card>)
    ensures multiset(Matching(cards, Quick)) + multiset(Matching(cards, Medium)) + multiset(Matching(cards, Slow)) ==
            multiset(cards)
    decreases |cards|
  {
    if cards != [] {
      var init := cards[..|cards| - 1];
      var last := cards[|cards| - 1];
      var q0, m0, s0 := multiset(Matching(init, Quick)), multiset(Matching(init, Medium)), multiset(Matching(init, Slow));
      assert q0 + m0 + s0 == multiset(init) by {
        TimeBucketsMultiset(init);
      }
      var inQ, inM, inS := Keeps(Quick, last), Keeps(Medium, last), Keeps(Slow, last);
      var one := multiset{last};
      assert multiset(Matching(cards, Quick)) == q0 + (if inQ then one else multiset{}) by {
        MatchingSnoc(cards, Quick);
      }
      assert multiset(Matching(cards, Medium)) == m0 + (if inM then one else multiset{}) by {
        MatchingSnoc(cards, Medium);
      }
      assert multiset(Matching(cards, Slow)) == s0 + (if inS then one else multiset{}) by {
        MatchingSnoc(cards, Slow);
      }
      assert multiset(cards) == multiset(init) + one by {
        assert cards == init + [last];
      }
      TimeBucketsDisjoint(last);
      AddToOneOfThree(q0, m0, s0, multiset(init), last, inQ, inM, inS);
    }
  }

  /** Filtering a non-empty list: the cards kept from all but the last one, and the last one if it is kept. */
  lemma MatchingSnoc(cards: seq<Card>, f: Filter)
    requires cards != []
    ensures multiset(Matching(cards, f)) ==
            multiset(Matching(cards[..|cards| - 1], f)) +
            (if Keeps(f, cards[|cards| - 1]) then multiset{cards[|cards| - 1]} else multiset{})
  {
    var rest := Matching(cards[..|cards| - 1], f);
    if Keeps(f, cards[|cards| - 1]) {
      assert Matching(cards, f) == rest + [cards[|cards| - 1]];
    } else {
      assert Matching(cards, f) == rest;
    }
  }

  /** Three multisets summing to `d`, one of which takes `x`, sum to `d` plus `x`. */
  lemma AddToOneOfThree(a: multiset<Card>, b: multiset<Card>, c: multiset<Card>, d: multiset<Card>, x: Card,
                        inA: bool, inB: bool, inC: bool)
    requires a + b + c == d
    requires (inA && !inB && !inC) || (!inA && inB && !inC) || (!inA && !inB && inC)
    ensures (a + (if inA then multiset{x} else multiset{})) + (b + (if inB then multiset{x} else multiset{})) +
            (c + (if inC then multiset{x} else multiset{})) == d + multiset{x}
  {
  }

  /** The five flags of a listing page. */
  datatype Flags = Flags(admin: bool, mine: bool, quick: bool, medium: bool, slow: bool)

  const AllOff := Flags(false, false, false, false, false)

  function Flag(fl: Flags, f: Filter): bool {
    match f
    case Admin => fl.admin
    case Mine => fl.mine
    case Quick => fl.quick
    case Medium => fl.medium
    case Slow => fl.slow
  }

  /** A show* button: its own flag flips, every other flag goes off. */
  function Toggled(fl: Flags, f: Filter): (r: Flags)
    ensures Flag(r, f) == !Flag(fl, f)
    ensures forall g :: g != f ==> !Flag(r, g)
  {
    match f
    case Admin => Flags(!fl.admin, false, false, false, false)
    case Mine => Flags(false, !fl.mine, false, false, false)
    case Quick => Flags(false, false, !fl.quick, false, false)
    case Medium => Flags(false, false, false, !fl.medium, false)
    case Slow => Flags(false, false, false, false, !fl.slow)
  }

  predicate AtMostOneOn(fl: Flags) {
    forall f, g :: Flag(fl, f) && Flag(fl, g) ==> f == g
  }

  /** After any button the flags have at most one filter on. */
  lemma ToggledHasAtMostOneOn(fl: Flags, f: Filter)
    ensures AtMostOneOn(Toggled(fl, f))
  {
  }

  /** Pressing the same button twice from the start turns everything off again. */
  lemma ToggleTwiceFromAllOff(f: Filter)
    ensures Toggled(Toggled(AllOff, f), f) == AllOff
  {
  }

  /** Pressing a button while another filter is on replaces that filter by this one. */
  lemma ToggleSwitchesFilter(fl: Flags, f: Filter, g: Filter)
    requires AtMostOneOn(fl) && f != g && Flag(fl, g)
    ensures Flag(Toggled(fl, f), f) && !Flag(Toggled(fl, f), g)
  {
  }

  /** The list a show* button leaves on screen: the filter's cards while its flag is on, else all of them. */
  function ShownAfter(all: seq<Card>, fl: Flags, f: Filter): (shown: seq<Card>)
    ensures Flag(fl, f) ==> shown == Matching(all, f)
    ensures !Flag(fl, f) ==> shown == all
  {
    if Flag(fl, f) then Matching(all, f) else all
  }
}
