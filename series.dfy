/**
 * Krüger's correction series as the forward projection evaluates it: a
 * running value, starting from the conformal coordinate, to which one term
 * per coefficient is added in index order, the i-th term (0-based) using the
 * multiplier s = 2(i + 1).
 */
module Series {
  import opened Numerics

  /**
   * Which series a term belongs to: coefficient·sin(sξ')·cosh(sη') for x,
   * coefficient·cos(sξ')·sinh(sη') for y.
   */
  datatype Harmonic = SinCosh | CosSinh {

    function Term(lib: Library, d: real, s: real, xi: real, eta: real): real {
      match this
      case SinCosh => d * lib.sin(s * xi) * lib.cosh(s * eta)
      case CosSinh => d * lib.cos(s * xi) * lib.sinh(s * eta)
    }
  }

  /** The multiplier of the term with 0-based index i. */
  function Multiplier(i: nat): real {
    2.0 * (i as real + 1.0)
  }

  /**
   * The running value after the terms of `coeffs` were added to `start`
   * one by one, first coefficient first.
   */
  function Accumulate(lib: Library, start: real, coeffs: seq<real>, h: Harmonic, xi: real, eta: real): real
    decreases |coeffs|
  {
    if coeffs == [] then start
    else
      var i := |coeffs| - 1;
      Accumulate(lib, start, coeffs[..i], h, xi, eta) + h.Term(lib, coeffs[i], Multiplier(i), xi, eta)
  }

  /** One more step of the running value adds the term of coefficient i. */
  lemma AccumulateStep(lib: Library, start: real, coeffs: seq<real>, h: Harmonic, xi: real, eta: real, i: nat)
    requires i < |coeffs|
    ensures Accumulate(lib, start, coeffs[..i + 1], h, xi, eta)
         == Accumulate(lib, start, coeffs[..i], h, xi, eta) + h.Term(lib, coeffs[i], Multiplier(i), xi, eta)
  {
    assert coeffs[..i + 1][..i] == coeffs[..i];
  }

  /**
   * The series itself, Σ coeffs[j]·h(2(k + j + 1)), summed from its first
   * coefficient; `k` is the index of that coefficient in the whole table.
   */
  function Sigma(lib: Library, coeffs: seq<real>, h: Harmonic, xi: real, eta: real, k: nat): real
    decreases |coeffs|
  {
    if coeffs == [] then 0.0
    else h.Term(lib, coeffs[0], Multiplier(k), xi, eta) + Sigma(lib, coeffs[1..], h, xi, eta, k + 1)
  }

  /** Appending a coefficient adds exactly its own term to the series. */
  lemma {:induction false} SigmaSnoc(lib: Library, coeffs: seq<real>, d: real, h: Harmonic, xi: real, eta: real, k: nat)
    ensures Sigma(lib, coeffs + [d], h, xi, eta, k) == Sigma(lib, coeffs, h, xi, eta, k) + h.Term(lib, d, Multiplier(k + |coeffs|), xi, eta)
    decreases |coeffs|
  {
    if coeffs == [] {
      assert [d][1..] == [];
    } else {
      assert (coeffs + [d])[1..] == coeffs[1..] + [d];
      SigmaSnoc(lib, coeffs[1..], d, h, xi, eta, k + 1);
    }
  }

  /**
   * Adding the terms one at a time, in index order, ends at the starting
   * value plus the whole series.
   */
  lemma {:induction false} AccumulateIsSigma(lib: Library, start: real, coeffs: seq<real>, h: Harmonic, xi: real, eta: real)
    ensures Accumulate(lib, start, coeffs, h, xi, eta) == start + Sigma(lib, coeffs, h, xi, eta, 0)
    decreases |coeffs|
  {
    if coeffs != [] {
      var i := |coeffs| - 1;
      AccumulateIsSigma(lib, start, coeffs[..i], h, xi, eta);
      SigmaSnoc(lib, coeffs[..i], coeffs[i], h, xi, eta, 0);
      assert coeffs[..i] + [coeffs[i]] == coeffs;
    }
  }
}
