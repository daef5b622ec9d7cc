/**
  The energy engine (main/core/energy.py): the keyword arguments of a call name energy
  sources with their kWh; each contributes kWh times its ENERGY_FACTORS entry, and a source
  the table does not know contributes nothing.
*/
module Energy {
  import opened Factors
  import opened Reals

  /** One keyword argument: the source name and its kWh. */
  datatype Source = Source(name: string, kwh: real)

  /** The contribution of one source: kWh times the factor, 0 when the source is unknown. */
  function Term(factors: map<string, real>, src: Source): real {
    src.kwh * RateOrZero(factors, src.name)
  }

  /** The sum of the terms of `sources`, accumulated from the first to the last. */
  function EnergySum(factors: map<string, real>, sources: seq<Source>): real
    decreases |sources|
  {
    if sources == [] then 0.0
    else EnergySum(factors, sources[..|sources| - 1]) + Term(factors, sources[|sources| - 1])
  }

  /** `energy_emissions(**kwargs)`: the accumulation loop over the arguments in the order given. */
  method EnergyEmissions(factors: map<string, real>, sources: seq<Source>) returns (total: real)
    ensures total == EnergySum(factors, sources)
  {
    total := 0.0;
    for i := 0 to |sources|
      invariant total == EnergySum(factors, sources[..i])
    {
      var Source(source, kwh) := sources[i];
      var factor := if source in factors then factors[source] else 0.0;
      total := total + kwh * factor;
      assert sources[..i + 1][..i] == sources[..i];
    }
    assert sources[..|sources|] == sources;
  }

  /** A call without arguments gives 0. */
  lemma NoSourcesGiveZero(factors: map<string, real>)
    ensures EnergySum(factors, []) == 0.0
  {
  }

  /** The sum over a concatenation is the sum of the sums. */
  lemma {:induction false} SumAppend(factors: map<string, real>, a: seq<Source>, b: seq<Source>)
    ensures EnergySum(factors, a + b) == EnergySum(factors, a) + EnergySum(factors, b)
    decreases |b|
  {
    if b == [] {
      assert a + b == a;
    } else {
      var n := |b| - 1;
      assert (a + b)[..|a + b| - 1] == a + b[..n];
      SumAppend(factors, a, b[..n]);
    }
  }

  /** Taking the source at position `j` out of the arguments takes exactly its term out of the total. */
  lemma SumWithout(factors: map<string, real>, s: seq<Source>, j: nat)
    requires j < |s|
    ensures EnergySum(factors, s) == EnergySum(factors, s[..j] + s[j + 1..]) + Term(factors, s[j])
  {
    assert s == s[..j] + ([s[j]] + s[j + 1..]);
    SumAppend(factors, s[..j], [s[j]] + s[j + 1..]);
    SumAppend(factors, [s[j]], s[j + 1..]);
    SumAppend(factors, s[..j], s[j + 1..]);
    assert EnergySum(factors, [s[j]]) == Term(factors, s[j]) by {
      assert [s[j]][..0] == [];
    }
  }

  /** The total does not depend on the order in which the sources are supplied. */
  lemma {:induction false} OrderIndependent(factors: map<string, real>, s: seq<Source>, t: seq<Source>)
    requires multiset(s) == multiset(t)
    ensures EnergySum(factors, s) == EnergySum(factors, t)
    decreases |s|
  {
    if s != [] {
      var n := |s| - 1;
      var x := s[n];
      assert s == s[..n] + [x];
      assert x in multiset(t);
      var j :| 0 <= j < |t| && t[j] == x;
      assert t == t[..j] + [x] + t[j + 1..];
      assert multiset(s[..n]) == multiset(s) - multiset{x};
      assert multiset(t[..j] + t[j + 1..]) == multiset(t) - multiset{x};
      OrderIndependent(factors, s[..n], t[..j] + t[j + 1..]);
      SumWithout(factors, t, j);
    } else {
      assert |t| == |multiset(t)| == 0;
    }
  }

  /** A source missing from the table, inserted anywhere, leaves the total unchanged. */
  lemma UnknownSourceContributesNothing(factors: map<string, real>, a: seq<Source>, b: seq<Source>, src: Source)
    requires src.name !in factors
    ensures EnergySum(factors, a + [src] + b) == EnergySum(factors, a + b)
  {
    SumWithout(factors, a + [src] + b, |a|);
    assert (a + [src] + b)[..|a|] + (a + [src] + b)[|a| + 1..] == a + b;
  }

  /** A source supplied with 0 kWh, inserted anywhere, leaves the total unchanged. */
  lemma ZeroKwhContributesNothing(factors: map<string, real>, a: seq<Source>, b: seq<Source>, name: string)
    ensures EnergySum(factors, a + [Source(name, 0.0)] + b) == EnergySum(factors, a + b)
  {
    SumWithout(factors, a + [Source(name, 0.0)] + b, |a|);
    assert (a + [Source(name, 0.0)] + b)[..|a|] + (a + [Source(name, 0.0)] + b)[|a| + 1..] == a + b;
  }

  /** Every kWh value multiplied by `c`. */
  function Scaled(sources: seq<Source>, c: real): (r: seq<Source>)
    ensures |r| == |sources|
  {
    seq(|sources|, i requires 0 <= i < |sources| => Source(sources[i].name, c * sources[i].kwh))
  }

  /** The terms of the sources, one per argument. */
  function Terms(factors: map<string, real>, sources: seq<Source>): (r: seq<real>)
    ensures |r| == |sources|
  {
    seq(|sources|, i requires 0 <= i < |sources| => Term(factors, sources[i]))
  }

  /** The total is the plain sum of the terms. */
  lemma {:induction false} SumOfTerms(factors: map<string, real>, sources: seq<Source>)
    ensures EnergySum(factors, sources) == Sum(Terms(factors, sources))
    decreases |sources|
  {
    if sources != [] {
      var n := |sources| - 1;
      SumOfTerms(factors, sources[..n]);
      assert Terms(factors, sources)[..n] == Terms(factors, sources[..n]);
    }
  }

  /** A sum of reals each multiplied by `c` is `c` times the sum. */
  lemma {:induction false} SumScales(xs: seq<real>, ys: seq<real>, c: real)
    requires |ys| == |xs| && forall i :: 0 <= i < |xs| ==> ys[i] == c * xs[i]
    ensures Sum(ys) == c * Sum(xs)
    decreases |xs|
  {
    if xs == [] {
      assert c * 0.0 == 0.0;
    } else {
      var n := |xs| - 1;
      SumScales(xs[..n], ys[..n], c);
    }
  }

  /** Scaling the kWh of the source at `i` by `c` scales its term by `c`. */
  lemma TermScales(factors: map<string, real>, sources: seq<Source>, c: real, i: int)
    requires 0 <= i < |sources|
    ensures Terms(factors, Scaled(sources, c))[i] == c * Terms(factors, sources)[i]
  {
    var kwh, f := sources[i].kwh, RateOrZero(factors, sources[i].name);
    assert Terms(factors, sources)[i] == kwh * f;
    assert Terms(factors, Scaled(sources, c))[i] == (c * kwh) * f;
    assert (c * kwh) * f == c * (kwh * f);
  }

  /** Scaling every kWh value by `c` scales the total by `c`. */
  lemma ScalingIsLinear(factors: map<string, real>, sources: seq<Source>, c: real)
    ensures EnergySum(factors, Scaled(sources, c)) == c * EnergySum(factors, sources)
  {
    AllTermsScale(factors, sources, c);
    SumScales(Terms(factors, sources), Terms(factors, Scaled(sources, c)), c);
    SumOfTerms(factors, Scaled(sources, c));
    ScaledSumOfTerms(factors, sources, c);
  }

  /** Every term of the scaled arguments is `c` times the corresponding term. */
  lemma AllTermsScale(factors: map<string, real>, sources: seq<Source>, c: real)
    ensures forall i :: 0 <= i < |sources| ==> Terms(factors, Scaled(sources, c))[i] == c * Terms(factors, sources)[i]
  {
    forall i | 0 <= i < |sources|
      ensures Terms(factors, Scaled(sources, c))[i] == c * Terms(factors, sources)[i]
    {
      TermScales(factors, sources, c, i);
    }
  }

  /** `c` times the total is `c` times the sum of the terms. */
  lemma ScaledSumOfTerms(factors: map<string, real>, sources: seq<Source>, c: real)
    ensures c * EnergySum(factors, sources) == c * Sum(Terms(factors, sources))
  {
    SumOfTerms(factors, sources);
  }

  /** With non-negative factors and kWh values the total is non-negative. */
  lemma {:induction false} SumNonNegative(factors: map<string, real>, sources: seq<Source>)
    requires NonNegativeRates(factors)
    requires forall i :: 0 <= i < |sources| ==> sources[i].kwh >= 0.0
    ensures EnergySum(factors, sources) >= 0.0
    decreases |sources|
  {
    if sources != [] {
      var n := |sources| - 1;
      SumNonNegative(factors, sources[..n]);
      var f := RateOrZero(factors, sources[n].name);
      assert sources[n].kwh * f >= 0.0;
    }
  }
}
