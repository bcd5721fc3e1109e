// Vocabulary shared by every module: optional values and the two time scales.

module Basics {
  datatype Option<+T> = None | Some(value: T)

  type Id = string
  type Key = string
  type Worker = string

  // Clock readings are microseconds; every timestamp the engine stores is a whole second.
  type Micros = int
  type Seconds = int

  const SECOND: int := 1_000_000

  // `.replace(microsecond=0)`: the whole second a clock reading falls in.
  function Floor(t: Micros): Seconds {
    t / SECOND
  }

  function Max(a: int, b: int): (m: int)
    ensures a <= m && b <= m && (m == a || m == b)
  {
    if a < b then b else a
  }

  function Pow2(n: nat): int {
    if n == 0 then 1 else 2 * Pow2(n - 1)
  }

  // The elements that pass, in the listed order.
  function Select<T>(s: seq<T>, passes: T -> bool): seq<T> {
    if s == [] then []
    else if passes(s[0]) then [s[0]] + Select(s[1..], passes)
    else Select(s[1..], passes)
  }

  lemma {:induction false} Selected<T>(s: seq<T>, passes: T -> bool, x: T)
    ensures x in Select(s, passes) <==> x in s && passes(x)
  {
    if s != [] {
      Selected(s[1..], passes, x);
    }
  }

  lemma {:induction false} SelectSame<T>(s: seq<T>, passes: T -> bool, passes': T -> bool)
    requires forall x :: x in s ==> passes(x) == passes'(x)
    ensures Select(s, passes) == Select(s, passes')
  {
    if s != [] {
      SelectSame(s[1..], passes, passes');
    }
  }
}
