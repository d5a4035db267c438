/** The few JavaScript string operations the webhook code relies on, with their ECMAScript meaning. */
module JsText {
  import opened Wrappers

  /** The exceptions the webhook code can end with: `req.json()` on malformed input (SyntaxError),
      a member read on undefined or null (TypeError), and a `fetch` whose promise rejects. */
  datatype JsError = SyntaxError | TypeError | FetchRejected

  /** The primitive values the comparisons involve. `===` on them is value equality, so
      `null === undefined` is false. */
  datatype JsValue = Undefined | Null | Str(s: string)

  /** A value that is a string or null, such as `URLSearchParams.get`'s result. */
  function OfNullable(x: Option<string>): JsValue
  {
    match x
    case Some(s) => Str(s)
    case None => Null
  }

  /** A value that is a string or undefined, such as `process.env.X`. */
  function OfUndefinable(x: Option<string>): JsValue
  {
    match x
    case Some(s) => Str(s)
    case None => Undefined
  }

  /** `s.startsWith(p)`. */
  predicate StartsWith(s: string, p: string)
  {
    |p| <= |s| && s[..|p|] == p
  }

  /** Does `p` occur in `s` at position `i`? */
  predicate OccursAt(s: string, p: string, i: nat)
  {
    i + |p| <= |s| && s[i..i + |p|] == p
  }

  /** The first position at or after `k` where `p` occurs in `s` (the search `indexOf` and `replace` perform). */
  function FirstOccurrenceFrom(s: string, p: string, k: nat): (r: Option<nat>)
    requires k <= |s|
    decreases |s| - k
    ensures r.Some? ==> k <= r.value && OccursAt(s, p, r.value)
    ensures r.Some? ==> forall j :: k <= j < r.value ==> !OccursAt(s, p, j)
    ensures r.None? ==> forall j :: k <= j <= |s| ==> !OccursAt(s, p, j)
  {
    if k + |p| > |s| then None
    else if s[k..k + |p|] == p then Some(k)
    else FirstOccurrenceFrom(s, p, k + 1)
  }

  /** `s.indexOf(p)`, with -1 written as `None`. */
  function FirstOccurrence(s: string, p: string): (r: Option<nat>)
    ensures r.Some? <==> exists i :: 0 <= i <= |s| && OccursAt(s, p, i)
    ensures r.Some? ==> OccursAt(s, p, r.value) && forall j :: 0 <= j < r.value ==> !OccursAt(s, p, j)
  {
    FirstOccurrenceFrom(s, p, 0)
  }

  /** `s.replace(p, rep)` for a string pattern `p`: only the first occurrence is replaced.
      The replacement is taken literally; the `$` substitution patterns of ECMAScript's
      GetSubstitution are not modelled (the replacement the source uses, "52", has none). */
  function ReplaceFirst(s: string, p: string, rep: string): (r: string)
    ensures (forall i :: 0 <= i <= |s| ==> !OccursAt(s, p, i)) ==> r == s
    ensures forall i :: 0 <= i <= |s| && OccursAt(s, p, i) && (forall j :: 0 <= j < i ==> !OccursAt(s, p, j)) ==>
              r == s[..i] + rep + s[i + |p|..]
  {
    match FirstOccurrence(s, p)
    case None => s
    case Some(i) => s[..i] + rep + s[i + |p|..]
  }

  lemma ReplaceFirstAtStart(s: string, p: string, rep: string)
    requires StartsWith(s, p)
    ensures ReplaceFirst(s, p, rep) == rep + s[|p|..]
  {
    assert OccursAt(s, p, 0);
  }

  /** The text a template literal `${x}` or `"..." + x` produces for a value that is a string or undefined. */
  function Interpolate(x: Option<string>): string
  {
    match x
    case Some(s) => s
    case None => "undefined"
  }

  /** `x || fallback` for an environment variable: both undefined and the empty string are falsy. */
  function OrElse(x: Option<string>, fallback: string): string
  {
    if x.Some? && x.value != "" then x.value else fallback
  }
}
