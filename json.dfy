/**
 * The JavaScript notions the route handlers apply to request bodies: a field is a value or
 * absent (`undefined`/`null`), and `!x` and `x || d` test truthiness.
 */
module Json {
  import opened Wrappers

  /** A string field is truthy when present and non-empty. */
  predicate Truthy(v: Option<string>) {
    v.Some? && v.value != ""
  }

  /** A number field is truthy when present and non-zero (NaN is not modelled). */
  predicate TruthyNumber(v: Option<real>) {
    v.Some? && v.value != 0.0
  }

  /** `v || d` for a string field. */
  function StringOr(v: Option<string>, d: string): (r: string)
    ensures Truthy(v) ==> r == v.value
    ensures !Truthy(v) ==> r == d
  {
    if Truthy(v) then v.value else d
  }

  /** `v || d` for a number field. */
  function NumberOr(v: Option<real>, d: real): (r: real)
    ensures TruthyNumber(v) ==> r == v.value
    ensures !TruthyNumber(v) ==> r == d
  {
    if TruthyNumber(v) then v.value else d
  }
}
