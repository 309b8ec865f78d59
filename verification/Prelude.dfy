/** Small shared vocabulary: optional values, results, and two facts about sequences. */
module Prelude {

  datatype Option<+T> = None | Some(value: T)

  datatype Result<+T, +E> = Ok(value: T) | Err(error: E)

  /** Identifiers are compared for equality only; most of them are ULIDs. */
  type Id = string

  /** Instants, in nanoseconds. */
  type Time = int

  /** The instant a timestamp string denotes, or None when it does not parse. */
  type Stamp = Option<Time>

  const MAX_U64: nat := 0xFFFF_FFFF_FFFF_FFFF

  predicate Distinct<T(==)>(s: seq<T>) {
    forall i, j :: 0 <= i < j < |s| ==> s[i] != s[j]
  }

  /** Index of the first occurrence of `x`. */
  function Position<T(==)>(s: seq<T>, x: T): (p: Option<nat>)
    ensures p.Some? <==> x in s
    ensures p.Some? ==> p.value < |s| && s[p.value] == x && x !in s[..p.value]
  {
    if s == [] then None
    else if s[0] == x then Some(0)
    else
      match Position(s[1..], x)
      case None => None
      case Some(p) =>
        assert s[..p + 1] == [s[0]] + s[1..][..p];
        Some(p + 1)
  }

  /** The part of `s` up to and including the first occurrence of `x`. */
  function UpTo<T(==)>(s: seq<T>, x: T): seq<T> {
    match Position(s, x)
    case None => []
    case Some(p) => s[..p + 1]
  }

  lemma PositionInDistinct<T>(s: seq<T>, k: nat)
    requires Distinct(s) && k < |s|
    ensures Position(s, s[k]) == Some(k)
  {
    var p := Position(s, s[k]).value;
    assert s[p] == s[k];
  }

  /** How many entries of `log` a cursor covers: those up to its own, or none. */
  function Covered<T(==)>(log: seq<T>, cursor: T): (n: nat)
    ensures n <= |log|
    ensures cursor in log ==> n > 0 && log[n - 1] == cursor
    ensures cursor !in log ==> n == 0
  {
    match Position(log, cursor)
    case Some(p) => p + 1
    case None => 0
  }

  lemma CoveredAt<T>(log: seq<T>, k: nat)
    requires Distinct(log) && k < |log|
    ensures Covered(log, log[k]) == k + 1
  {
    PositionInDistinct(log, k);
  }
}
