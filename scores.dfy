/** Sums and averages of rating scores. The pages show an average with one
    decimal; here it is kept as a sum/count pair and shown in tenths. */
module Scores {
  import opened Records

  /** `avaliacoes.reduce((sum, a) => sum + a.nota, 0)`: a left fold. */
  function SumNotas(avs: seq<Avaliacao>): int
  {
    if avs == [] then 0 else SumNotas(avs[..|avs| - 1]) + avs[|avs| - 1].nota
  }

  /** Every score lies on the five-star scale. */
  ghost predicate NotasInRange(avs: seq<Avaliacao>)
  {
    forall a :: a in avs ==> 1 <= a.nota <= 5
  }

  /** With scores on the five-star scale the sum lies between one and five
      points per rating. */
  lemma {:induction false} SumNotasBounds(avs: seq<Avaliacao>)
    requires NotasInRange(avs)
    ensures |avs| <= SumNotas(avs) <= 5 * |avs|
  {
    if avs != [] {
      var init := avs[..|avs| - 1];
      assert forall a :: a in init ==> a in avs;
      assert avs[|avs| - 1] in avs;
      SumNotasBounds(init);
    }
  }

  /** A running `{ soma, count }` accumulator. */
  datatype Score = Score(soma: int, count: nat)

  /** The sum and the number of a list of ratings. */
  function Placar(avs: seq<Avaliacao>): Score
  {
    Score(SumNotas(avs), |avs|)
  }

  /** `(num / den).toFixed(1)` read as a whole number of tenths, with halves
      rounded up: the tenths value nearest to 10 * num / den. */
  function RoundTenths(num: int, den: int): (r: int)
    requires den > 0
    ensures 2 * den * r <= 20 * num + den < 2 * den * (r + 1)
  {
    (20 * num + den) / (2 * den)
  }

  /** The mean of a score in tenths; 0 when nothing was counted. */
  function MeanTenths(sc: Score): int
  {
    if sc.count == 0 then 0 else RoundTenths(sc.soma, sc.count)
  }

  /** Cancelling a positive factor from a strict inequality. */
  lemma CancelFactor(c: int, a: int, b: int)
    requires c > 0 && c * a < c * b
    ensures a < b
  {
  }

  /** A mean of five-star scores shows between 1.0 and 5.0. */
  lemma MeanTenthsBounds(sc: Score)
    requires 0 < sc.count <= sc.soma <= 5 * sc.count
    ensures 10 <= MeanTenths(sc) <= 50
  {
    var r, c := MeanTenths(sc), sc.count;
    assert 2 * c * r <= 20 * sc.soma + c < 2 * c * (r + 1);
    CancelFactor(2 * c, r, 51);
    CancelFactor(2 * c, 10, r + 1);
  }
}
