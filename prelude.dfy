/** Small building blocks shared by both versions of the battle engine. */
module Prelude {

  /** Swift's `T?` and TypeScript's optional properties. */
  datatype Option<+T> = None | Some(value: T)

  /** The ceiling on energy both engines apply with `min(…, 10)`. */
  const EnergyCap: int := 10

  /** The number of cards dealt into a starting hand (`prefix(3)`, `slice(0, 3)`). */
  const HandSize: nat := 3

  function Min(a: int, b: int): (r: int)
    ensures r <= a && r <= b
    ensures r == a || r == b
  {
    if a <= b then a else b
  }

  function Max(a: int, b: int): (r: int)
    ensures r >= a && r >= b
    ensures r == a || r == b
  {
    if a >= b then a else b
  }

  /** `a % 2` as Swift and JavaScript compute it: the remainder truncates
      toward zero, so it takes the sign of the dividend (Dafny's own `%` never
      goes negative). */
  function Rem2(a: int): (r: int)
    ensures -1 <= r <= 1
    ensures a >= 0 ==> 0 <= r
    ensures a <= 0 ==> r <= 0
    ensures (a - r) % 2 == 0
  {
    if a >= 0 then a % 2 else -((-a) % 2)
  }

  /** `turn % 2 == 1` as both engines write it: the turn is player 1's. */
  predicate OddTurn(turn: int)
  {
    Rem2(turn) == 1
  }

  /** A non-positive turn counter is never player 1's turn, and from turn 0 on
      the turn owner alternates with every increment. */
  lemma OddTurnAlternates(turn: int)
    ensures OddTurn(turn) <==> turn > 0 && turn % 2 == 1
    ensures turn >= 0 ==> (OddTurn(turn + 1) <==> !OddTurn(turn))
  {
    if turn < 0 {
      assert Rem2(turn) <= 0;
    }
  }

  /** `Array(s.prefix(n))` and `s.slice(0, n)`: at most the first `n` elements. */
  function Prefix<T>(s: seq<T>, n: nat): (r: seq<T>)
    ensures r <= s
    ensures |r| == Min(n, |s|)
    ensures |s| <= n ==> r == s
  {
    s[..Min(n, |s|)]
  }
}
