/** The single-pass greedy fill of `growList`
    (src/context-brief/service.ts), for an arbitrary fitting test, and the
    exact sense in which what it keeps is the best choice. */
module GreedyFill {
  /** The items a mask marks, in their order. */
  function Select<T>(items: seq<T>, mask: seq<bool>): seq<T>
    requires |mask| == |items|
  {
    if items == [] then []
    else
      var n := |items| - 1;
      Select(items[..n], mask[..n]) + (if mask[n] then [items[n]] else [])
  }

  /** Each item in turn is kept whenever the list still fits with it. */
  function Greedy<T>(items: seq<T>, fits: seq<T> -> bool): (mask: seq<bool>)
    ensures |mask| == |items|
  {
    if items == [] then []
    else
      var n := |items| - 1;
      var before := Greedy(items[..n], fits);
      before + [fits(Select(items[..n], before) + [items[n]])]
  }

  function Kept<T>(items: seq<T>, fits: seq<T> -> bool): seq<T> {
    Select(items, Greedy(items, fits))
  }

  function Complement(mask: seq<bool>): (r: seq<bool>)
    ensures |r| == |mask|
    ensures forall i :: 0 <= i < |mask| ==> r[i] == !mask[i]
  {
    seq(|mask|, i requires 0 <= i < |mask| => !mask[i])
  }

  function Dropped<T>(items: seq<T>, fits: seq<T> -> bool): seq<T> {
    Select(items, Complement(Greedy(items, fits)))
  }

  /** Kept and dropped items are taken in order, by opposite masks. */
  lemma TakenByOppositeMasks<T>(items: seq<T>, fits: seq<T> -> bool)
    ensures Kept(items, fits) == Select(items, Greedy(items, fits))
    ensures Dropped(items, fits) == Select(items, Complement(Greedy(items, fits)))
  {}

  lemma SelectSnoc<T>(items: seq<T>, x: T, mask: seq<bool>, b: bool)
    requires |mask| == |items|
    ensures Select(items + [x], mask + [b]) == Select(items, mask) + (if b then [x] else [])
  {
    assert (items + [x])[..|items|] == items && (mask + [b])[..|items|] == mask;
  }

  /** One more step of the loop. */
  lemma GreedySnoc<T>(items: seq<T>, x: T, fits: seq<T> -> bool)
    ensures Greedy(items + [x], fits)
         == Greedy(items, fits) + [fits(Kept(items, fits) + [x])]
    ensures Kept(items + [x], fits)
         == if fits(Kept(items, fits) + [x]) then Kept(items, fits) + [x] else Kept(items, fits)
    ensures Dropped(items + [x], fits)
         == if fits(Kept(items, fits) + [x]) then Dropped(items, fits) else Dropped(items, fits) + [x]
  {
    var g := Greedy(items, fits);
    var b := fits(Kept(items, fits) + [x]);
    assert (items + [x])[..|items|] == items;
    SelectSnoc(items, x, g, b);
    assert Complement(g + [b]) == Complement(g) + [!b];
    SelectSnoc(items, x, Complement(g), !b);
  }

  /** The decisions on a prefix of the items are a prefix of the decisions. */
  lemma {:induction false} GreedyPrefix<T>(items: seq<T>, fits: seq<T> -> bool, k: nat)
    requires k <= |items|
    ensures Greedy(items, fits)[..k] == Greedy(items[..k], fits)
  {
    if k == |items| {
      assert items[..k] == items;
    } else {
      var n := |items| - 1;
      GreedyPrefix(items[..n], fits, k);
      assert items[..n][..k] == items[..k];
      assert Greedy(items, fits)[..k] == Greedy(items[..n], fits)[..k];
    }
  }

  lemma GreedyAt<T>(items: seq<T>, fits: seq<T> -> bool, k: nat)
    requires k < |items|
    ensures Greedy(items, fits)[k] == fits(Kept(items[..k], fits) + [items[k]])
  {
    hide Greedy, Select;
    GreedyPrefix(items, fits, k + 1);
    GreedySnoc(items[..k], items[k], fits);
    assert items[..k + 1] == items[..k] + [items[k]];
    assert Greedy(items, fits)[k] == Greedy(items, fits)[..k + 1][k];
  }

  lemma {:induction false} SelectPrefix<T>(items: seq<T>, mask: seq<bool>, k: nat)
    requires |mask| == |items| && k <= |items|
    ensures Select(items[..k], mask[..k]) <= Select(items, mask)
  {
    if k == |items| {
      assert items[..k] == items && mask[..k] == mask;
    } else {
      var n := |items| - 1;
      SelectPrefix(items[..n], mask[..n], k);
      assert items[..n][..k] == items[..k] && mask[..n][..k] == mask[..k];
    }
  }

  /** If a list fits, so does every list it extends. */
  ghost predicate Shrinkable<T(!new)>(fits: seq<T> -> bool) {
    forall a, b :: a <= b && fits(b) ==> fits(a)
  }

  /** Masks in lexicographic order: the first difference decides, in favour
      of keeping the earlier item. */
  ghost predicate AtMost(m: seq<bool>, g: seq<bool>)
    requires |m| == |g|
  {
    m == g || exists k :: 0 <= k < |m| && m[..k] == g[..k] && !m[k] && g[k]
  }

  lemma {:induction false} FirstDifference(a: seq<bool>, b: seq<bool>) returns (k: nat)
    requires |a| == |b| && a != b
    ensures k < |a| && a[..k] == b[..k] && a[k] != b[k]
  {
    if a[0] != b[0] {
      k := 0;
    } else {
      assert a == [a[0]] + a[1..] && b == [b[0]] + b[1..];
      k := FirstDifference(a[1..], b[1..]);
      assert a[..k + 1] == [a[0]] + a[1..][..k] && b[..k + 1] == [b[0]] + b[1..][..k];
      k := k + 1;
    }
  }

  /** A mask that keeps an item the greedy pass dropped, and agrees before it,
      does not fit. */
  lemma DroppedDoesNotFit<T(!new)>(items: seq<T>, fits: seq<T> -> bool, m: seq<bool>, k: nat)
    requires Shrinkable(fits)
    requires |m| == |items| && k < |items|
    requires m[..k] == Greedy(items, fits)[..k] && m[k] && !Greedy(items, fits)[k]
    ensures !fits(Select(items, m))
    ensures Kept(items[..k], fits) + [items[k]] <= Select(items, m)
  {
    hide Greedy, Select;
    GreedyAt(items, fits, k);
    GreedyPrefix(items, fits, k);
    SelectPrefix(items, m, k + 1);
    SelectSnoc(items[..k], items[k], m[..k], true);
    assert items[..k + 1] == items[..k] + [items[k]] && m[..k + 1] == m[..k] + [true];
  }

  /** The greedy pass keeps the lexicographically greatest fitting sublist. */
  lemma GreedyIsGreatest<T(!new)>(items: seq<T>, fits: seq<T> -> bool, m: seq<bool>)
    requires Shrinkable(fits)
    requires |m| == |items| && fits(Select(items, m))
    ensures AtMost(m, Greedy(items, fits))
  {
    var g := Greedy(items, fits);
    if m != g {
      var k := FirstDifference(m, g);
      if m[k] { DroppedDoesNotFit(items, fits, m, k); }
    }
  }

  /** If the empty list fits, so does what is kept. */
  lemma {:induction false} KeptFits<T>(items: seq<T>, fits: seq<T> -> bool)
    requires fits([])
    ensures fits(Kept(items, fits))
  {
    if items != [] {
      var n := |items| - 1;
      KeptFits(items[..n], fits);
      GreedySnoc(items[..n], items[n], fits);
      assert items == items[..n] + [items[n]];
    }
  }

  lemma PartitionSnoc<T>(items: seq<T>, x: T, fits: seq<T> -> bool)
    requires multiset(Kept(items, fits)) + multiset(Dropped(items, fits)) == multiset(items)
    ensures multiset(Kept(items + [x], fits)) + multiset(Dropped(items + [x], fits))
         == multiset(items + [x])
  {
    hide Greedy, Select, Kept, Dropped;
    GreedySnoc(items, x, fits);
  }

  lemma NothingChosen<T>(fits: seq<T> -> bool)
    ensures Kept([], fits) == [] && Dropped([], fits) == []
  {}

  /** Kept and dropped items partition the offered ones. */
  lemma {:induction false} Partition<T>(items: seq<T>, fits: seq<T> -> bool)
    ensures multiset(Kept(items, fits)) + multiset(Dropped(items, fits)) == multiset(items)
  {
    if items == [] {
      NothingChosen(fits);
    } else {
      hide *;
      var n := |items| - 1;
      Partition(items[..n], fits);
      PartitionSnoc(items[..n], items[n], fits);
      assert items == items[..n] + [items[n]];
    }
  }
}
