/** Small shared vocabulary: optional values, decimal numerals, and index selection. */
module Wrappers {

  datatype Option<+T> = None | Some(value: T) {
    function GetOr<U>(default: U, f: T -> U): U {
      if Some? then f(value) else default
    }
  }

  function Max(a: int, b: int): int {
    if a < b then b else a
  }

  /** The decimal numeral of `n`, as string formatting of an integer writes it. */
  function Decimal(n: nat): (s: string)
    ensures |s| > 0
    ensures forall i :: 0 <= i < |s| ==> '0' <= s[i] <= '9'
  {
    var digit := ['0' + (n % 10) as char];
    if n < 10 then digit else Decimal(n / 10) + digit
  }

  lemma {:induction false} DecimalInjective(m: nat, n: nat)
    requires Decimal(m) == Decimal(n)
    ensures m == n
  {
    var s := Decimal(m);
    var last := |s| - 1;
    assert s[last] == '0' + (m % 10) as char == '0' + (n % 10) as char;
    assert m % 10 == n % 10;
    assert m >= 10 ==> s[..last] == Decimal(m / 10);
    assert n >= 10 ==> s[..last] == Decimal(n / 10);
    if m >= 10 && n >= 10 {
      DecimalInjective(m / 10, n / 10);
    }
  }

  lemma Regroup<T>(a: seq<T>, b: seq<T>, c: seq<T>)
    ensures a + (b + c) == a + b + c
  {
  }

  /** The indices below `n` that satisfy `p`, in increasing order. */
  function Select(p: nat -> bool, n: nat): (s: seq<nat>)
    ensures forall i: nat :: i in s <==> i < n && p(i)
    ensures forall k :: 0 <= k < |s| ==> s[k] < n && p(s[k])
  {
    if n == 0 then []
    else if p(n - 1) then Select(p, n - 1) + [n - 1]
    else Select(p, n - 1)
  }

  /** The members of `s` that satisfy `p`, in order. */
  function Keep<T(!new)>(s: seq<T>, p: T -> bool): (r: seq<T>)
    ensures forall x :: x in r <==> x in s && p(x)
    ensures forall k :: 0 <= k < |r| ==> r[k] in s && p(r[k])
  {
    if s == [] then []
    else
      var rest := Keep(s[..|s| - 1], p);
      var x := s[|s| - 1];
      if p(x) then rest + [x] else rest
  }
}
