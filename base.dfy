/** Small shared vocabulary: optional values, bytes, and the pad-or-truncate
    operation that both the Go and the Python audio preparation perform. */
module Base {

  datatype Option<+T> = None | Some(value: T)

  /** One octet of a raw PCM stream. */
  type byte = b: int | 0 <= b < 256

  function Min(a: int, b: int): int { if a < b then a else b }

  function Max(a: int, b: int): int { if a < b then b else a }

  /** Brings `s` to exactly `n` elements: a shorter input is extended with
      `fill`, a longer one keeps its first `n` elements. */
  function FitLength<T>(s: seq<T>, n: nat, fill: T): (r: seq<T>)
    ensures |r| == n
    ensures |s| <= n ==> r[..|s|] == s && forall i :: |s| <= i < n ==> r[i] == fill
    ensures n <= |s| ==> r == s[..n]
  {
    if |s| < n then s + seq(n - |s|, _ => fill)
    else if |s| > n then s[..n]
    else s
  }

  /** Bringing an input to its length twice changes nothing the second time. */
  lemma FitLengthIdempotent<T>(s: seq<T>, n: nat, fill: T)
    ensures FitLength(FitLength(s, n, fill), n, fill) == FitLength(s, n, fill)
  {
  }

  /** An input that already has the length is returned unchanged. */
  lemma FitLengthExact<T>(s: seq<T>, fill: T)
    ensures FitLength(s, |s|, fill) == s
  {
  }
}
