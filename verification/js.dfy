/** The few pieces of JavaScript runtime behaviour that the modelled code leans on:
    `undefined`, truthiness, thrown errors, `String.prototype.toLowerCase` and
    `Promise.all`. */
module Js {

  /** A value that may be `undefined`. The modelled fields are typed without
      `null`, so `undefined` is the only absent value they take. */
  datatype Option<+T> = None | Some(value: T)

  /** The result of a call that either returns a value or throws. */
  datatype Result<+T, +E> = Success(value: T) | Failure(error: E)

  /** The result of a call that returns nothing or throws. */
  datatype Outcome<+E> = Pass | Fail(error: E)

  /** Truthiness of a `string | undefined`: only `undefined` and `""` are falsy. */
  predicate TruthyString(s: Option<string>)
  {
    s.Some? && s.value != ""
  }

  /** Truthiness of a `number | undefined` that is never NaN: only `undefined`
      and `0` are falsy. */
  predicate TruthyNumber(n: Option<int>)
  {
    n.Some? && n.value != 0
  }

  /** `map[key]` on a plain object used as a dictionary. */
  function Lookup<K, V>(m: map<K, V>, key: K): Option<V>
  {
    if key in m then Some(m[key]) else None
  }

  /** `toLowerCase` on one character, restricted to the ASCII alphabet that
      hexadecimal addresses use. */
  function LowerChar(c: char): char
  {
    if 'A' <= c <= 'Z' then (c as int + 32) as char else c
  }

  /** `s.toLowerCase()` */
  function Lower(s: string): (r: string)
    ensures |r| == |s|
    ensures forall i :: 0 <= i < |s| ==> r[i] == LowerChar(s[i])
    ensures forall i :: 0 <= i < |r| ==> !('A' <= r[i] <= 'Z')
  {
    seq(|s|, i requires 0 <= i < |s| => LowerChar(s[i]))
  }

  /** Lower-casing twice is lower-casing once. */
  lemma LowerIdempotent(s: string)
    ensures Lower(Lower(s)) == Lower(s)
  {
  }

  /** `await Promise.all(rs)`: the values in order when every promise fulfils,
      otherwise a rejection. Which rejection wins depends on timing; the model
      picks the first failing element in sequence order. */
  function All<T, E>(rs: seq<Result<T, E>>): (r: Result<seq<T>, E>)
    ensures r.Success? <==> forall i :: 0 <= i < |rs| ==> rs[i].Success?
    ensures r.Success? ==> |r.value| == |rs|
    ensures r.Success? ==> forall i :: 0 <= i < |rs| ==> r.value[i] == rs[i].value
    ensures r.Failure? ==>
      exists i :: 0 <= i < |rs| && rs[i] == Failure(r.error)
                  && forall j :: 0 <= j < i ==> rs[j].Success?
    decreases |rs|
  {
    if |rs| == 0 then Success([])
    else
      match rs[0]
      case Failure(e) => Failure(e)
      case Success(v) =>
        var rest := All(rs[1..]);
        match rest
        case Failure(e) =>
          ghost var k :| 0 <= k < |rs[1..]| && rs[1..][k] == Failure(e)
                         && forall j :: 0 <= j < k ==> rs[1..][j].Success?;
          assert rs[k + 1] == Failure(e);
          Failure(e)
        case Success(vs) => Success([v] + vs)
  }
}
