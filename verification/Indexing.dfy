/** Flattened indices: row-major positions, with the multiplication kept out of sight. */
module Indexing {

  /** Where piece `c` of a run of pieces of length `k` starts. */
  function At(c: nat, k: nat): nat {
    c * k
  }

  lemma AtNext(c: nat, k: nat)
    ensures At(c + 1, k) == At(c, k) + k && At(0, k) == 0
  {
  }

  lemma AtOrder(c: nat, m: nat, k: nat)
    requires c < m
    ensures At(c, k) + k <= At(m, k)
  {
    assert (m - c - 1) * k >= 0;
  }

  lemma DivMod(a: nat, n: nat, q: nat, r: nat)
    requires a == q * n + r && r < n
    ensures a / n == q && a % n == r
  {
    if a / n < q {
      AtOrder(a / n, q, n);
    } else if q < a / n {
      AtOrder(q, a / n, n);
    }
  }

  /** Position of element `b` of row `a`, in rows of length `n`. */
  function Flat(a: nat, b: nat, n: nat): nat {
    At(a, n) + b
  }

  lemma FlatFits(a: nat, b: nat, m: nat, n: nat)
    requires a < m && b < n
    ensures Flat(a, b, n) < At(m, n)
  {
    hide At;
    AtOrder(a, m, n);
  }

  lemma FlatIsUnique(a: nat, b: nat, c: nat, d: nat, n: nat)
    requires b < n && d < n
    ensures Flat(a, b, n) == Flat(c, d, n) <==> a == c && b == d
  {
    hide At;
    if a < c {
      AtOrder(a, c, n);
    } else if c < a {
      AtOrder(c, a, n);
    }
  }

  function Flat3(a: nat, b: nat, c: nat, m: nat, n: nat): nat {
    Flat(Flat(a, b, m), c, n)
  }

  lemma Flat3IsUnique(a: nat, b: nat, c: nat, x: nat, y: nat, z: nat, m: nat, n: nat)
    requires b < m && y < m && c < n && z < n
    ensures Flat3(a, b, c, m, n) == Flat3(x, y, z, m, n) <==> a == x && b == y && c == z
  {
    hide Flat;
    FlatIsUnique(Flat(a, b, m), c, Flat(x, y, m), z, n);
    FlatIsUnique(a, b, x, y, m);
  }

  lemma Flat3Fits(a: nat, b: nat, c: nat, k: nat, m: nat, n: nat)
    requires a < k && b < m && c < n
    ensures Flat3(a, b, c, m, n) < At(At(k, m), n)
  {
    hide Flat;
    hide At;
    FlatFits(a, b, k, m);
    FlatFits(Flat(a, b, m), c, At(k, m), n);
  }

  /** The same index, as an offset into a batch of `m` by `n` matrices. */
  lemma BatchIndex(a: nat, b: nat, c: nat, m: nat, n: nat)
    ensures At(a, At(m, n)) + At(b, n) + c == Flat3(a, b, c, m, n)
  {
    assert (a * m + b) * n == a * (m * n) + b * n;
  }

  /** Element `i` of a buffer; reads past the end, which no kernel makes, are zero. */
  function Get(s: seq<real>, i: nat): real {
    if i < |s| then s[i] else 0.0
  }
}
