/** Sums as the kernels take them: every thread adds up a strided share, then the partial
    sums are folded in halves (crates/llmpager-cuda/kernels/q4g64.cu:51-80,
    mla.cu:84-106, 131-141). */
module Reduce {
  import opened Sums

  /** The share of `f` below `n` of thread `c` out of `w`: the terms `c`, `c + w`, ... */
  function Share(f: nat -> real, n: nat, c: nat, w: nat): real
    requires 0 < w
    decreases if c < n then n - c else 0
  {
    if c >= n then 0.0 else f(c) + Share(f, n, c + w, w)
  }

  /** Whether `n` is `c` plus a number of strides. */
  predicate Reaches(c: nat, n: nat, w: nat)
    requires 0 < w
    decreases if c < n then n - c else 0
  {
    c == n || (c < n && Reaches(c + w, n, w))
  }

  lemma {:induction false} ShareGrows(f: nat -> real, n: nat, c: nat, w: nat)
    requires 0 < w
    ensures Share(f, n + 1, c, w) == Share(f, n, c, w) + if Reaches(c, n, w) then f(n) else 0.0
    decreases if c < n then n - c else 0
  {
    if c < n {
      ShareGrows(f, n, c + w, w);
    }
  }

  /** The thread that takes term `n`. */
  function Taker(n: nat, w: nat): (c: nat)
    requires 0 < w
    ensures c < w
  {
    if n < w then n else Taker(n - w, w)
  }

  lemma {:induction false} ReachShifts(c: nat, n: nat, w: nat)
    requires 0 < w
    ensures Reaches(c + w, n + w, w) == Reaches(c, n, w)
    decreases if c < n then n - c else 0
  {
    if c < n {
      ReachShifts(c + w, n, w);
    }
  }

  lemma {:induction false} OneTaker(c: nat, n: nat, w: nat)
    requires c < w
    ensures Reaches(c, n, w) <==> c == Taker(n, w)
    decreases n
  {
    if n < w {
      assert c != n ==> !Reaches(c + w, n, w);
    } else {
      OneTaker(c, n - w, w);
      ReachShifts(c, n - w, w);
    }
  }

  function Shares(f: nat -> real, n: nat, w: nat): nat -> real
    requires 0 < w
  {
    (c: nat) => Share(f, n, c, w)
  }

  function Only(k: nat, v: real): nat -> real {
    (c: nat) => if c == k then v else 0.0
  }

  lemma {:induction false} SumOfOnly(k: nat, v: real, w: nat)
    ensures Sum(Only(k, v), w) == if k < w then v else 0.0
  {
    if w > 0 {
      SumOfOnly(k, v, w - 1);
    }
  }

  /** Together the threads take every term exactly once. */
  lemma {:induction false} SharesAddUp(f: nat -> real, n: nat, w: nat)
    requires 0 < w
    ensures Sum(Shares(f, n, w), w) == Sum(f, n)
    decreases n
  {
    if n == 0 {
      SumZero(Shares(f, 0, w), w);
    } else {
      SharesAddUp(f, n - 1, w);
      var k := Taker(n - 1, w);
      SumOfOnly(k, f(n - 1), w);
      forall c | 0 <= c < w
        ensures Shares(f, n, w)(c) == Shares(f, n - 1, w)(c) + Only(k, f(n - 1))(c)
      {
        ShareGrows(f, n - 1, c, w);
        OneTaker(c, n - 1, w);
      }
      SumAdds(Shares(f, n - 1, w), Only(k, f(n - 1)), Shares(f, n, w), w);
    }
  }

  function Values(s: seq<real>): nat -> real {
    (i: nat) => if i < |s| then s[i] else 0.0
  }

  /** The partial sums of all threads add up to the whole sum. */
  lemma LanesAddUp(lanes: seq<real>, f: nat -> real, n: nat, w: nat)
    requires 0 < w == |lanes| && forall c :: 0 <= c < w ==> lanes[c] == Share(f, n, c, w)
    ensures Sum(Values(lanes), w) == Sum(f, n)
  {
    hide Share;
    SumSame(Values(lanes), Shares(f, n, w), w);
    SharesAddUp(f, n, w);
    hide *;
  }

  /** A width that halves evenly down to one. */
  predicate Halves(s: nat) {
    s <= 1 || (s % 2 == 0 && Halves(s / 2))
  }

  /** One fold: the first half takes up the second. */
  lemma {:induction false} FoldHalf(a: seq<real>, b: seq<real>, o: nat, i: nat)
    requires i <= o && 2 * o <= |a| && o <= |b|
    requires forall j :: 0 <= j < o ==> b[j] == a[j] + a[j + o]
    ensures Sum(Values(b), i) + Sum(Values(a), o) == Sum(Values(a), i) + Sum(Values(a), o + i)
  {
    if i > 0 {
      FoldHalf(a, b, o, i - 1);
    }
  }

  /** A fold keeps the total, and halves the range it is spread over. */
  lemma FoldKeeps(a: seq<real>, b: seq<real>, o: nat)
    requires 0 < o && Halves(o) && 2 * o <= |a| && o <= |b|
    requires forall j :: 0 <= j < o ==> b[j] == a[j] + a[j + o]
    ensures Halves(o / 2) && Sum(Values(b), if o / 2 == 0 then 1 else 2 * (o / 2)) == Sum(Values(a), 2 * o)
  {
    hide *;
    HalvesNext(o);
    FoldHalf(a, b, o, o);
    assert o + o == 2 * o;
  }

  lemma HalvesNext(o: nat)
    requires 0 < o && Halves(o)
    ensures Halves(o / 2) && o == if o / 2 == 0 then 1 else 2 * (o / 2)
  {
  }

  lemma FirstIsSum(v: seq<real>)
    requires v != []
    ensures Sum(Values(v), 1) == v[0]
  {
    assert Sum(Values(v), 1) == Sum(Values(v), 0) + v[0];
  }

  /** One shuffle: every lane adds the value of the lane `o` above it, or its own past the
      end. */
  method Shuffle(acc: seq<real>, o: nat) returns (next: seq<real>)
    requires |acc| == 32 && 2 * o <= 32
    ensures |next| == 32
    ensures forall j :: 0 <= j < o ==> next[j] == acc[j] + acc[j + o]
  {
    next := seq(32, i requires 0 <= i < 32 && |acc| == 32 => acc[i] + if i + o < 32 then acc[i + o] else acc[i]);
  }

  /** The lanes of a warp, folded by shuffles. Lane 0 ends up with the whole sum. */
  method ShuffleDown(lanes: seq<real>) returns (r: real)
    requires |lanes| == 32
    ensures r == Sum(Values(lanes), 32)
  {
    var acc := lanes;
    var o: nat := 16;
    assert Halves(16);
    hide *;
    while o > 0
      invariant |acc| == 32 && Halves(o) && 2 * o <= 32
      invariant Sum(Values(acc), if o == 0 then 1 else 2 * o) == Sum(Values(lanes), 32)
      decreases o
    {
      ghost var was := acc;
      acc := Shuffle(acc, o);
      FoldKeeps(was, acc, o);
      o := o / 2;
    }
    FirstIsSum(acc);
    r := acc[0];
  }

  /** The partial sums of a block, folded in shared memory by the lower half of the threads. */
  method FoldBlock(red: array<real>)
    requires red.Length == 256
    modifies red
    ensures red[0] == Sum(Values(old(red[..])), 256)
  {
    ghost var all := red[..];
    var s: nat := 128;
    assert Halves(128);
    hide *;
    while s > 0
      invariant Halves(s) && 2 * s <= 256
      invariant Sum(Values(red[..]), if s == 0 then 1 else 2 * s) == Sum(Values(all), 256)
      decreases s
    {
      ghost var was := red[..];
      FoldOnce(red, s);
      FoldKeeps(was, red[..], s);
      s := s / 2;
    }
    FirstIsSum(red[..]);
  }

  method FoldOnce(red: array<real>, s: nat)
    requires 2 * s <= red.Length
    modifies red
    ensures forall j :: 0 <= j < s ==> red[j] == old(red[j]) + old(red[j + s])
  {
    for t := 0 to s
      invariant forall j :: 0 <= j < t ==> red[j] == old(red[j]) + old(red[j + s])
      invariant forall j :: t <= j < red.Length ==> red[j] == old(red[j])
    {
      red[t] := red[t] + red[t + s];
    }
  }
}
