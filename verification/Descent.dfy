/** A bag of ranks in which every step gives up one rank, lowers others below it, and adds boundedly many
    that are lower still: it is exhausted after a number of steps that can be computed beforehand.
    The bound is counted from the highest rank down: each thing of a rank that is given up pays for all
    the steps that are possible below it, in a bag that has grown meanwhile. */
module Descent {
  function Count(ranks: seq<nat>, r: nat): nat {
    if ranks == [] then 0 else (if ranks[0] == r then 1 else 0) + Count(ranks[1..], r)
  }

  /** A step that gives up rank `r` and makes the bag larger by `b` at most. */
  ghost predicate Trades(b: nat, before: seq<nat>, after: seq<nat>, r: nat) {
    && Count(after, r) < Count(before, r)
    && (forall j: nat | j > r :: Count(after, j) <= Count(before, j))
    && |after| <= |before| + b
  }

  /** The size of a bag after `steps` steps. */
  function Grown(b: nat, size: nat, steps: nat): nat {
    if steps == 0 then size else Grown(b, size, steps - 1) + b
  }

  /** Steps that are possible with ranks below `height` in a bag of `size`. */
  function Most(b: nat, height: nat, size: nat): nat
    decreases height, 0, 0
  {
    if height == 0 then 0 else Most(b, height - 1, size) + Top(b, height - 1, size, Grown(b, size, Most(b, height - 1, size)))
  }

  /** Steps from the moment when one of `top` ranks of `height` is given up, in a bag of `size`. */
  function Top(b: nat, height: nat, top: nat, size: nat): nat
    decreases height, 1, top
  {
    if top == 0 then 0
    else 1 + Most(b, height, size + b) + Top(b, height, top - 1, Grown(b, size + b, Most(b, height, size + b)))
  }

  /** Steps that are possible with the ranks of a bag, those below `height`. */
  function Left(b: nat, height: nat, ranks: seq<nat>, size: nat): nat {
    if height == 0 then 0
    else Left(b, height - 1, ranks, size)
         + Top(b, height - 1, Count(ranks, height - 1), Grown(b, size, Left(b, height - 1, ranks, size)))
  }

  lemma {:induction false} GrownMonotone(b: nat, x: nat, y: nat, m: nat, n: nat)
    requires x <= y && m <= n
    ensures x <= Grown(b, x, m) <= Grown(b, y, n)
    decreases n
  {
    if n > 0 {
      if m == n {
        GrownMonotone(b, x, y, m - 1, n - 1);
      } else {
        GrownMonotone(b, x, y, m, n - 1);
      }
    }
  }

  lemma {:induction false} GrownLater(b: nat, size: nat, steps: nat)
    ensures Grown(b, size + b, steps) == Grown(b, size, steps + 1)
  {
    if steps > 0 {
      GrownLater(b, size, steps - 1);
    }
  }

  lemma {:induction false} MostMonotone(b: nat, height: nat, s: nat, t: nat)
    requires s <= t
    ensures Most(b, height, s) <= Most(b, height, t)
    decreases height, 0, 0
  {
    if height > 0 {
      MostMonotone(b, height - 1, s, t);
      var m, n := Most(b, height - 1, s), Most(b, height - 1, t);
      GrownMonotone(b, s, t, m, n);
      TopMonotone(b, height - 1, s, t, Grown(b, s, m), Grown(b, t, n));
    }
  }

  lemma {:induction false} TopMonotone(b: nat, height: nat, c: nat, d: nat, s: nat, t: nat)
    requires c <= d && s <= t
    ensures Top(b, height, c, s) <= Top(b, height, d, t)
    decreases height, 1, c
  {
    if c > 0 {
      MostMonotone(b, height, s + b, t + b);
      var m, n := Most(b, height, s + b), Most(b, height, t + b);
      GrownMonotone(b, s + b, t + b, m, n);
      TopMonotone(b, height, c - 1, d - 1, Grown(b, s + b, m), Grown(b, t + b, n));
    }
  }

  lemma {:induction false} CountBound(ranks: seq<nat>, r: nat)
    ensures Count(ranks, r) <= |ranks|
  {
    if ranks != [] {
      CountBound(ranks[1..], r);
    }
  }

  /** No bag has more steps left than `Most` of its size. */
  lemma {:induction false} LeftIsAtMost(b: nat, height: nat, ranks: seq<nat>, size: nat)
    requires |ranks| <= size
    ensures Left(b, height, ranks, size) <= Most(b, height, size)
    decreases height
  {
    if height > 0 {
      LeftIsAtMost(b, height - 1, ranks, size);
      CountBound(ranks, height - 1);
      var low, most := Left(b, height - 1, ranks, size), Most(b, height - 1, size);
      GrownMonotone(b, size, size, low, most);
      TopMonotone(b, height - 1, Count(ranks, height - 1), size, Grown(b, size, low), Grown(b, size, most));
    }
  }

  /** A rank of the greatest height is given up. */
  lemma TopTraded(b: nat, height: nat, before: seq<nat>, after: seq<nat>, s: nat, t: nat)
    requires Count(after, height) < Count(before, height) && |after| <= t <= s + b
    ensures Left(b, height + 1, after, t) < Left(b, height + 1, before, s)
  {
    var low, lower := Left(b, height, after, t), Left(b, height, before, s);
    var c, most := Count(before, height), Most(b, height, s + b);
    LeftIsAtMost(b, height, after, t);
    MostMonotone(b, height, t, s + b);
    GrownMonotone(b, t, s + b, low, most);
    TopMonotone(b, height, Count(after, height), c - 1, Grown(b, t, low), Grown(b, s + b, most));
    GrownMonotone(b, s, s, 0, lower);
    TopMonotone(b, height, c, c, s, Grown(b, s, lower));
    TopStep(b, height, c, s);
  }

  lemma TopStep(b: nat, height: nat, c: nat, s: nat)
    requires c > 0
    ensures Top(b, height, c, s) ==
            1 + Most(b, height, s + b) + Top(b, height, c - 1, Grown(b, s + b, Most(b, height, s + b)))
  {
  }

  /** Every step leaves fewer. */
  lemma {:induction false} LeftFalls(b: nat, height: nat, before: seq<nat>, after: seq<nat>, r: nat, s: nat, t: nat)
    requires r < height && Trades(b, before, after, r) && |after| <= t <= s + b
    ensures Left(b, height, after, t) < Left(b, height, before, s)
    decreases height
  {
    if r == height - 1 {
      TopTraded(b, r, before, after, s, t);
    } else {
      LeftFalls(b, height - 1, before, after, r, s, t);
      var low, lower := Left(b, height - 1, after, t), Left(b, height - 1, before, s);
      GrownLater(b, s, low);
      GrownMonotone(b, t, s + b, low, low);
      GrownMonotone(b, s, s, low + 1, lower);
      TopMonotone(b, height - 1, Count(after, height - 1), Count(before, height - 1), Grown(b, t, low), Grown(b, s, lower));
    }
  }

  // ---- Counting ----

  lemma {:induction false} CountConcat(x: seq<nat>, y: seq<nat>, r: nat)
    ensures Count(x + y, r) == Count(x, r) + Count(y, r)
  {
    if x == [] {
      assert x + y == y;
    } else {
      assert (x + y)[1..] == x[1..] + y;
      CountConcat(x[1..], y, r);
    }
  }

  lemma CountWithout(x: seq<nat>, i: nat, r: nat)
    requires i < |x|
    ensures Count(x, r) == Count(x[..i] + x[i + 1..], r) + if x[i] == r then 1 else 0
  {
    assert x == x[..i] + ([x[i]] + x[i + 1..]);
    CountConcat(x[..i], [x[i]] + x[i + 1..], r);
    CountConcat([x[i]], x[i + 1..], r);
    CountConcat(x[..i], x[i + 1..], r);
    assert [x[i]][1..] == [];
  }

  /** Ranks that are lower count for nothing higher up. */
  lemma {:induction false} CountLower(x: seq<nat>, r: nat, j: nat)
    requires j >= r && forall i | 0 <= i < |x| :: x[i] < r
    ensures Count(x, j) == 0
  {
    if x != [] {
      CountLower(x[1..], r, j);
    }
  }

  /** Ranks that stay or are lowered below `r` do not count for more from `r` on. */
  lemma {:induction false} CountLowered(x: seq<nat>, y: seq<nat>, r: nat, j: nat)
    requires j >= r && |x| == |y| && forall i | 0 <= i < |x| :: y[i] == x[i] || y[i] < r
    ensures Count(y, j) <= Count(x, j)
  {
    if x != [] {
      CountLowered(x[1..], y[1..], r, j);
    }
  }
}
