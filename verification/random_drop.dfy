/** A day's random drops added up (src/engine/random-drop.ts). */
module RandomDropRewards {
  import opened Types
  import opened Constants
  import opened DailyScoring

  /** The drops' rewards, each appended in input order. */
  ghost function AllDropsReward(drops: seq<RandomDrop>): Reward
  {
    if drops == [] then NO_REWARD
    else CalcRandomDropReward(drops[0]).Append(AllDropsReward(drops[1..]))
  }

  /** Adding up a list split in two is adding up each part. */
  lemma {:induction false} AllDropsRewardAppend(a: seq<RandomDrop>, b: seq<RandomDrop>)
    ensures AllDropsReward(a + b) == AllDropsReward(a).Append(AllDropsReward(b))
  {
    if a == [] {
      assert a + b == b;
      assert AllDropsReward(a).Append(AllDropsReward(b)).breakdown == AllDropsReward(b).breakdown;
    } else {
      assert (a + b)[0] == a[0] && (a + b)[1..] == a[1..] + b;
      AllDropsRewardAppend(a[1..], b);
      AppendAssociative(CalcRandomDropReward(a[0]), AllDropsReward(a[1..]), AllDropsReward(b));
    }
  }

  /** One more drop at the end appends its reward. */
  lemma AllDropsRewardSnoc(s: seq<RandomDrop>, d: RandomDrop)
    ensures AllDropsReward(s + [d]) == AllDropsReward(s).Append(CalcRandomDropReward(d))
  {
    AllDropsRewardAppend(s, [d]);
    assert [d][1..] == [];
    AppendNothing(CalcRandomDropReward(d));
  }

  /** `calcAllRandomDrops`: the totals and breakdown of every drop, in order. */
  method CalcAllRandomDrops(drops: seq<RandomDrop>) returns (r: Reward)
    ensures r == AllDropsReward(drops)
  {
    var gold, xp, stars, breakdown := 0, 0, 0, [];
    for i := 0 to |drops|
      invariant Reward(gold, xp, stars, breakdown) == AllDropsReward(drops[..i])
    {
      var reward := CalcRandomDropReward(drops[i]);
      AllDropsRewardSnoc(drops[..i], drops[i]);
      assert drops[..i + 1] == drops[..i] + [drops[i]];
      var next := Reward(gold, xp, stars, breakdown).Append(reward);
      gold, xp, stars, breakdown := next.gold, next.xp, next.stars, next.breakdown;
    }
    assert drops[..|drops|] == drops;
    r := Reward(gold, xp, stars, breakdown);
  }

  /** The totals are the sums of the breakdown lines, and never negative. */
  lemma {:induction false} AllDropsBalanced(drops: seq<RandomDrop>)
    ensures AllDropsReward(drops).Balanced()
    ensures AllDropsReward(drops).NonNegative()
  {
    if drops != [] {
      AllDropsBalanced(drops[1..]);
      AppendBalanced(CalcRandomDropReward(drops[0]), AllDropsReward(drops[1..]));
    }
  }

  /** No drops, nothing paid. */
  lemma NoDropsNoReward()
    ensures AllDropsReward([]) == NO_REWARD
  {
  }

  /** An incomplete drop, wherever it sits, changes nothing. */
  lemma IncompleteDropIgnored(a: seq<RandomDrop>, d: RandomDrop, b: seq<RandomDrop>)
    requires !d.completed
    ensures AllDropsReward(a + [d] + b) == AllDropsReward(a + b)
  {
    AllDropsRewardAppend(a + [d], b);
    AllDropsRewardSnoc(a, d);
    AllDropsRewardAppend(a, b);
    AppendNothing(AllDropsReward(a));
  }

  /** What one drop is worth, read straight off the drop table. */
  function DropValue(d: RandomDrop): Currency
  {
    if d.completed then Currency(RandomDropGold(d.kind), RandomDropXp(d.kind), RandomDropStars(d.kind))
    else NO_CURRENCY
  }

  /** The drops' worth, summed without building any breakdown. */
  function DropsValue(drops: seq<RandomDrop>): Currency
  {
    if drops == [] then NO_CURRENCY else DropValue(drops[0]).Plus(DropsValue(drops[1..]))
  }

  lemma {:induction false} AllDropsValue(drops: seq<RandomDrop>)
    ensures AllDropsReward(drops).Value() == DropsValue(drops)
  {
    if drops != [] {
      AllDropsValue(drops[1..]);
      var c := CalcRandomDropReward(drops[0]);
      var a := AllDropsReward(drops[1..]);
      assert AllDropsReward(drops) == c.Append(a);
      assert c.Append(a).Value() == c.Value().Plus(a.Value());
      assert DropsValue(drops) == DropValue(drops[0]).Plus(DropsValue(drops[1..]));
    }
  }

  lemma {:induction false} DropsValueAppend(a: seq<RandomDrop>, b: seq<RandomDrop>)
    ensures DropsValue(a + b) == DropsValue(a).Plus(DropsValue(b))
  {
    if a == [] {
      assert a + b == b;
    } else {
      assert (a + b)[0] == a[0] && (a + b)[1..] == a[1..] + b;
      DropsValueAppend(a[1..], b);
    }
  }

  /** Where the first drop of `s` sits in a permutation `t` of it, and what
      is left of both once it is taken out. */
  lemma MatchFirst(s: seq<RandomDrop>, t: seq<RandomDrop>) returns (i: int)
    requires s != [] && multiset(s) == multiset(t)
    ensures 0 <= i < |t| && t[i] == s[0]
    ensures multiset(s[1..]) == multiset(t[..i] + t[i + 1..])
  {
    assert s[0] in multiset(s);
    i :| 0 <= i < |t| && t[i] == s[0];
    assert t == t[..i] + [t[i]] + t[i + 1..];
    assert multiset(t) == multiset(t[..i]) + multiset{t[i]} + multiset(t[i + 1..]);
    assert s == [s[0]] + s[1..];
    assert multiset(s) == multiset{s[0]} + multiset(s[1..]);
    assert multiset(t[..i] + t[i + 1..]) == multiset(t[..i]) + multiset(t[i + 1..]);
    assert multiset(s[1..]) == multiset(s) - multiset{s[0]};
  }

  /** Cutting a list around position `i`. */
  lemma CutAt(t: seq<RandomDrop>, i: int) returns (pre: seq<RandomDrop>, post: seq<RandomDrop>)
    requires 0 <= i < |t|
    ensures t == pre + ([t[i]] + post) && pre + post == t[..i] + t[i + 1..]
  {
    pre, post := t[..i], t[i + 1..];
  }

  /** A drop in front adds its worth. */
  lemma DropsValueCons(x: RandomDrop, post: seq<RandomDrop>)
    ensures DropsValue([x] + post) == DropValue(x).Plus(DropsValue(post))
  {
    assert ([x] + post)[0] == x && ([x] + post)[1..] == post;
  }

  /** A drop between two parts adds its worth to theirs. */
  lemma DropsValueMiddle(pre: seq<RandomDrop>, x: RandomDrop, post: seq<RandomDrop>)
    ensures DropsValue(pre + ([x] + post)) == DropValue(x).Plus(DropsValue(pre + post))
  {
    DropsValueAppend(pre, [x] + post);
    DropsValueCons(x, post);
    DropsValueAppend(pre, post);
  }

  lemma {:induction false} DropsValueIgnoresOrder(s: seq<RandomDrop>, t: seq<RandomDrop>)
    requires multiset(s) == multiset(t)
    ensures DropsValue(s) == DropsValue(t)
    decreases |s|
  {
    if s == [] {
      assert |t| == |multiset(t)| == 0;
    } else {
      var i := MatchFirst(s, t);
      var pre, post := CutAt(t, i);
      DropsValueIgnoresOrder(s[1..], pre + post);
      DropsValueMiddle(pre, s[0], post);
    }
  }

  /** The totals do not depend on the order of the drops. */
  lemma DropTotalsIgnoreOrder(s: seq<RandomDrop>, t: seq<RandomDrop>)
    requires multiset(s) == multiset(t)
    ensures AllDropsReward(s).Value() == AllDropsReward(t).Value()
  {
    AllDropsValue(s);
    AllDropsValue(t);
    DropsValueIgnoresOrder(s, t);
  }
}
