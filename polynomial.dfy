/**
 * Polynomials with real coefficients stored highest degree first, evaluated by
 * Horner's scheme.
 */
module Polynomials {
  import opened Wrappers

  /** x to the power k. */
  function Pow(x: real, k: nat): real {
    if k == 0 then 1.0 else x * Pow(x, k - 1)
  }

  /**
   * The value Horner's scheme computes on coefficients `cs` (highest degree first):
   * each step multiplies the running value by `x` and adds the next coefficient.
   */
  function Horner(cs: seq<real>, x: real): real {
    if |cs| == 0 then 0.0 else Horner(cs[..|cs| - 1], x) * x + cs[|cs| - 1]
  }

  /** The textbook sum: coefficient `cs[i]` multiplies x^(n-1-i), with n = |cs|. */
  function MonomialSum(cs: seq<real>, x: real): real {
    if |cs| == 0 then 0.0 else cs[0] * Pow(x, |cs| - 1) + MonomialSum(cs[1..], x)
  }

  /** Appending a lowest-degree coefficient multiplies the sum by x and adds it. */
  lemma {:induction false} MonomialSumSnoc(cs: seq<real>, c: real, x: real)
    ensures MonomialSum(cs + [c], x) == MonomialSum(cs, x) * x + c
    decreases |cs|
  {
    if |cs| == 0 {
      assert (cs + [c])[1..] == [];
      assert Pow(x, 0) == 1.0;
      assert MonomialSum(cs + [c], x) == c;
    } else {
      var n := |cs|;
      assert (cs + [c])[1..] == cs[1..] + [c];
      MonomialSumSnoc(cs[1..], c, x);
      var a, p, m := cs[0], Pow(x, n - 1), MonomialSum(cs[1..], x);
      assert MonomialSum(cs + [c], x) == a * (x * p) + MonomialSum(cs[1..] + [c], x);
      FactorStep(MonomialSum(cs + [c], x), MonomialSum(cs, x), a, p, m, x, c);
    }
  }

  lemma FactorStep(sum: real, front: real, a: real, p: real, m: real, x: real, c: real)
    requires sum == a * (x * p) + (m * x + c) && front == a * p + m
    ensures sum == front * x + c
  {
  }

  /** Horner's scheme computes the sum of the monomials. */
  lemma {:induction false} HornerIsMonomialSum(cs: seq<real>, x: real)
    ensures Horner(cs, x) == MonomialSum(cs, x)
    decreases |cs|
  {
    if |cs| > 0 {
      var init := cs[..|cs| - 1];
      HornerIsMonomialSum(init, x);
      MonomialSumSnoc(init, cs[|cs| - 1], x);
      assert init + [cs[|cs| - 1]] == cs;
    }
  }

  /** A one-coefficient polynomial is that constant everywhere. */
  lemma ConstantPolynomial(c: real, x: real)
    ensures Horner([c], x) == c
  {
    assert [c][..0] == [];
  }

  /** At zero only the constant (last) coefficient is left. */
  lemma {:induction false} HornerAtZero(cs: seq<real>)
    requires |cs| > 0
    ensures Horner(cs, 0.0) == cs[|cs| - 1]
  {
  }

  /** An immutable polynomial; `coeffList[0]` is the non-zero leading coefficient. */
  class Polynomial {
    const coeffList: array<real>

    predicate Valid()
      reads coeffList
    {
      coeffList.Length >= 1 && coeffList[0] != 0.0
    }

    /** The polynomial's coefficients, highest degree first. */
    function Coefficients(): seq<real>
      reads coeffList
    {
      coeffList[..]
    }

    constructor (inputCoefficientsList: array<real>)
      ensures coeffList == inputCoefficientsList
    {
      coeffList := inputCoefficientsList;
    }

    /**
     * `Polynomial.of`: the leading coefficient followed by the others, copied into a
     * fresh array. Fails when the leading coefficient is 0.
     */
    static method Of(coefficientN: real, coefficients: array<real>) returns (r: Result<Polynomial>)
      ensures r.Success? <==> coefficientN != 0.0
      ensures r.Failure? ==> r.error == IllegalArgument
      ensures r.Success? ==> fresh(r.value) && fresh(r.value.coeffList) && r.value.Valid()
      ensures r.Success? ==> r.value.Coefficients() == [coefficientN] + coefficients[..]
    {
      if coefficientN == 0.0 {
        return Failure(IllegalArgument);
      }
      var allCoefficients := new real[coefficients.Length + 1];
      allCoefficients[0] := coefficientN;
      var i := 0;
      while i < coefficients.Length
        invariant 0 <= i <= coefficients.Length
        invariant allCoefficients[0] == coefficientN
        invariant allCoefficients[1..i + 1] == coefficients[..i]
      {
        allCoefficients[i + 1] := coefficients[i];
        i := i + 1;
      }
      assert allCoefficients[..] == [coefficientN] + allCoefficients[1..];
      var p := new Polynomial(allCoefficients);
      return Success(p);
    }

    /** `at`: the Horner loop, which computes the sum of the monomials at `x`. */
    method At(x: real) returns (totalAddition: real)
      requires Valid()
      ensures totalAddition == MonomialSum(Coefficients(), x)
      ensures Coefficients() == [coeffList[0]] ==> totalAddition == coeffList[0]
      ensures x == 0.0 ==> totalAddition == coeffList[coeffList.Length - 1]
    {
      totalAddition := coeffList[0];
      assert coeffList[..1][..0] == [];
      var i := 1;
      while i < coeffList.Length
        invariant 1 <= i <= coeffList.Length
        invariant totalAddition == Horner(coeffList[..i], x)
      {
        assert coeffList[..i + 1][..i] == coeffList[..i];
        totalAddition := totalAddition * x;
        totalAddition := totalAddition + coeffList[i];
        i := i + 1;
      }
      assert coeffList[..i] == Coefficients();
      HornerIsMonomialSum(Coefficients(), x);
      if x == 0.0 {
        HornerAtZero(Coefficients());
      }
    }

    /** Value equality is refused. */
    function EqualsOther<T>(o: T): (r: Result<bool>)
      ensures r.Failure? && r.error == UnsupportedOperation
    {
      Failure(UnsupportedOperation)
    }

    function HashCode(): (r: Result<int>)
      ensures r.Failure? && r.error == UnsupportedOperation
    {
      Failure(UnsupportedOperation)
    }
  }
}
