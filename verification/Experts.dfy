/** One expert on one token: two affine maps around a gated activation. */
module Experts {

  type Vec = seq<real>

  /** Row k of a matrix holds the weights of input k. */
  type Matrix = seq<Vec>

  predicate IsMatrix(w: Matrix, rows: nat, cols: nat) {
    |w| == rows && forall k :: 0 <= k < rows ==> |w[k]| == cols
  }

  /** Entry j of `x @ w`. */
  function Dot(x: Vec, w: Matrix, j: nat): real
    requires |x| == |w| && forall k :: 0 <= k < |w| ==> j < |w[k]|
  {
    if x == [] then 0.0
    else Dot(x[..|x| - 1], w[..|w| - 1], j) + x[|x| - 1] * w[|w| - 1][j]
  }

  function RowMul(x: Vec, w: Matrix, cols: nat): (r: Vec)
    requires IsMatrix(w, |x|, cols)
    ensures |r| == cols
  {
    seq(cols, j requires 0 <= j < cols => Dot(x, w, j))
  }

  function Zeros(n: nat): (r: Vec)
    ensures |r| == n && forall i :: 0 <= i < n ==> r[i] == 0.0
  {
    seq(n, _ => 0.0)
  }

  function Add(x: Vec, y: Vec): (r: Vec)
    requires |x| == |y|
    ensures |r| == |x| && forall i :: 0 <= i < |r| ==> r[i] == x[i] + y[i]
  {
    seq(|x|, i requires 0 <= i < |x| => x[i] + y[i])
  }

  function Scale(x: Vec, c: real): (r: Vec)
    ensures |r| == |x| && forall i :: 0 <= i < |r| ==> r[i] == x[i] * c
  {
    seq(|x|, i requires 0 <= i < |x| => x[i] * c)
  }

  lemma ScaleByMask(x: Vec)
    ensures Scale(x, 1.0) == x && Scale(x, 0.0) == Zeros(|x|)
  {}

  lemma AddZeros(x: Vec)
    ensures Add(Zeros(|x|), x) == x
  {}

  datatype Activation = GptOss(alpha: real, limit: real) | DeepSeek

  /** Gate and up columns are interleaved: [g0, u0, g1, u1, ...]. */
  datatype Bank = Bank(
    hidden: nat,
    inter: nat,
    gateUp: seq<Matrix>,
    gateUpBias: seq<Vec>,
    down: seq<Matrix>,
    downBias: seq<Vec>,
    activation: Activation,
    sigmoid: real -> real)
  {
    predicate Valid() {
      && |gateUp| == |gateUpBias| == |down| == |downBias|
      && forall e :: 0 <= e < |gateUp| ==>
           && IsMatrix(gateUp[e], hidden, 2 * inter)
           && |gateUpBias[e]| == 2 * inter
           && IsMatrix(down[e], inter, hidden)
           && |downBias[e]| == hidden
    }
  }

  function ClampMax(x: real, hi: real): real {
    if x > hi then hi else x
  }

  function ClampMin(x: real, lo: real): real {
    if x < lo then lo else x
  }

  /** `clamp(lo, hi)`: the upper bound wins when the bounds cross. */
  function Clamp(x: real, lo: real, hi: real): real {
    ClampMax(ClampMin(x, lo), hi)
  }

  function Glu(sigmoid: real -> real, alpha: real, gate: real, up: real): real {
    (up + 1.0) * (gate * sigmoid(gate * alpha))
  }

  function Gated(a: Activation, sigmoid: real -> real, gate: real, up: real): real {
    match a
    case GptOss(alpha, limit) =>
      Glu(sigmoid, alpha, ClampMax(gate, limit), Clamp(up, -limit, limit))
    case DeepSeek =>
      gate * sigmoid(gate) * up
  }

  /** Split the interleaved row into gate and up columns and combine them. */
  function Activate(bank: Bank, row: Vec): (r: Vec)
    requires |row| == 2 * bank.inter
    ensures |r| == bank.inter
  {
    seq(bank.inter, i requires 0 <= i < bank.inter =>
      Gated(bank.activation, bank.sigmoid, row[2 * i], row[2 * i + 1]))
  }

  /** What expert e computes for the token row x. */
  function Expert(bank: Bank, e: nat, x: Vec): (r: Vec)
    requires bank.Valid() && e < |bank.gateUp| && |x| == bank.hidden
    ensures |r| == bank.hidden
  {
    var gateUp := Add(RowMul(x, bank.gateUp[e], 2 * bank.inter), bank.gateUpBias[e]);
    Add(RowMul(Activate(bank, gateUp), bank.down[e], bank.hidden), bank.downBias[e])
  }
}
