// Division of polynomials over the two-element field, written as lists of
// coefficients with the highest power first.
module Division {
  function Repeat(b: bool, n: nat): (s: seq<bool>)
    ensures |s| == n && forall i :: 0 <= i < n ==> s[i] == b
  {
    seq(n, _ => b)
  }

  // Adds `g`, multiplied by the power of x that lines up the two first terms.
  function AddFront(p: seq<bool>, g: seq<bool>): (s: seq<bool>)
    requires |g| <= |p|
    ensures |s| == |p| && forall i :: 0 <= i < |s| ==> s[i] == (if i < |g| then p[i] != g[i] else p[i])
  {
    seq(|p|, i requires 0 <= i < |p| => if i < |g| then p[i] != g[i] else p[i])
  }

  // A polynomial of degree 32.
  type Divisor = g: seq<bool> | |g| == 33 && g[0] witness seq(33, _ => true)

  // The multiple of g by `q`.
  function Product(q: seq<bool>, g: Divisor): (p: seq<bool>)
    ensures |p| == |q| + 32
  {
    if q == [] then Repeat(false, 32)
    else
      var shifted := [false] + Product(q[1..], g);
      if q[0] then AddFront(shifted, g) else shifted
  }

  // p == q * g + r, and r is of a lower degree than g.
  ghost predicate Divides(p: seq<bool>, g: Divisor, q: seq<bool>, r: seq<bool>) {
    && |p| == |q| + 32 && |r| == 32
    && p == AddFront(Repeat(false, |q|) + r, Product(q, g))
  }

  // ---- Long division ----

  // One line of the division: g is taken off if the first coefficient is one.
  function Reduce(p: seq<bool>, g: Divisor): (s: seq<bool>)
    requires |p| > 32
    ensures |s| == |p| - 1
  {
    if p[0] then AddFront(p, g)[1..] else p[1..]
  }

  function Remainder(p: seq<bool>, g: Divisor): (r: seq<bool>)
    requires |p| >= 32
    ensures |r| == 32
    decreases |p|
  {
    if |p| == 32 then p else Remainder(Reduce(p, g), g)
  }

  function Quotient(p: seq<bool>, g: Divisor): (q: seq<bool>)
    requires |p| >= 32
    ensures |q| == |p| - 32
    decreases |p|
  {
    if |p| == 32 then [] else [p[0]] + Quotient(Reduce(p, g), g)
  }

  // ---- It is one division, and there is no other ----

  lemma ProductAt(q: seq<bool>, g: Divisor, i: nat)
    requires q != [] && i < |q| + 32
    ensures Product(q, g)[i] == if i == 0 then q[0] else Product(q[1..], g)[i - 1] != (q[0] && i < 33 && g[i])
  {
    var shifted := [false] + Product(q[1..], g);
    if i > 0 { assert shifted[i] == Product(q[1..], g)[i - 1]; }
  }

  lemma ReduceAt(p: seq<bool>, g: Divisor, i: nat)
    requires |p| > 32 && i < |p| - 1
    ensures Reduce(p, g)[i] == (p[i + 1] != (p[0] && i + 1 < 33 && g[i + 1]))
  {
  }

  lemma SumAt(q: seq<bool>, g: Divisor, r: seq<bool>, i: nat)
    requires |r| == 32 && i < |q| + 32
    ensures AddFront(Repeat(false, |q|) + r, Product(q, g))[i]
         == (Product(q, g)[i] != (i >= |q| && r[i - |q|]))
  {
  }

  // One line of the division takes the first coefficient off the quotient.
  lemma OneLine(p: seq<bool>, g: Divisor, q: seq<bool>, r: seq<bool>)
    requires |p| == |q| + 32 && q != [] && |r| == 32
    ensures Divides(p, g, q, r) <==> p[0] == q[0] && Divides(Reduce(p, g), g, q[1..], r)
  {
    var rest := q[1..];
    var sum := AddFront(Repeat(false, |q|) + r, Product(q, g));
    var less := AddFront(Repeat(false, |rest|) + r, Product(rest, g));
    SumAt(q, g, r, 0);
    ProductAt(q, g, 0);
    forall i: nat | i < |rest| + 32 ensures sum[i + 1] == (less[i] != (q[0] && i + 1 < 33 && g[i + 1])) {
      SumAt(q, g, r, i + 1);
      SumAt(rest, g, r, i);
      ProductAt(q, g, i + 1);
    }
    forall i: nat | i < |rest| + 32 ensures Reduce(p, g)[i] == (p[i + 1] != (p[0] && i + 1 < 33 && g[i + 1])) {
      ReduceAt(p, g, i);
    }
    SameLine(p, sum, g, q[0], Reduce(p, g), less);
  }

  lemma SameLine(p: seq<bool>, sum: seq<bool>, g: Divisor, first: bool, reduced: seq<bool>, less: seq<bool>)
    requires |p| == |sum| > 32 && |reduced| == |less| == |p| - 1 && sum[0] == first
    requires forall i: nat :: i < |less| ==> sum[i + 1] == (less[i] != (first && i + 1 < 33 && g[i + 1]))
    requires forall i: nat :: i < |less| ==> reduced[i] == (p[i + 1] != (p[0] && i + 1 < 33 && g[i + 1]))
    ensures p == sum <==> p[0] == first && reduced == less
  {
    if p[0] == first && reduced == less {
      forall i | 0 <= i < |p| ensures p[i] == sum[i] {
        if i > 0 { assert reduced[i - 1] == less[i - 1]; }
      }
    }
    if p == sum {
      forall i | 0 <= i < |less| ensures reduced[i] == less[i] {
        assert p[i + 1] == sum[i + 1];
      }
    }
  }

  lemma {:induction false} LongDivision(p: seq<bool>, g: Divisor)
    requires |p| >= 32
    ensures Divides(p, g, Quotient(p, g), Remainder(p, g))
    decreases |p|
  {
    if |p| == 32 {
      assert Repeat(false, 0) + p == p;
    } else {
      LongDivision(Reduce(p, g), g);
      assert Quotient(p, g)[1..] == Quotient(Reduce(p, g), g);
      OneLine(p, g, Quotient(p, g), Remainder(p, g));
    }
  }

  lemma {:induction false} DivisionIsUnique(p: seq<bool>, g: Divisor, q: seq<bool>, r: seq<bool>)
    requires Divides(p, g, q, r)
    ensures q == Quotient(p, g) && r == Remainder(p, g)
    decreases |q|
  {
    if q == [] {
      assert p == r;
    } else {
      OneLine(p, g, q, r);
      DivisionIsUnique(Reduce(p, g), g, q[1..], r);
      assert q == [q[0]] + q[1..];
    }
  }
}
