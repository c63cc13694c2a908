/** Small value-level building blocks shared by every part of the model:
    an optional value, JavaScript truthiness of an optional string, and the
    "first document that matches" search that a MongoDB collection scan performs. */
module Values {

  /** An optional value: a request field or a lookup that may be absent. */
  datatype Option<+T> = None | Some(value: T)

  /** JavaScript truthiness of a string field that may be absent:
      both `undefined` and the empty string are falsy. */
  predicate Present(s: Option<string>)
  {
    s.Some? && s.value != ""
  }

  /** The number of UTF-16 code units in `s`, which is what a JavaScript
      string's `length` counts: a character outside the Basic Multilingual
      Plane is a surrogate pair and counts twice. */
  function Utf16Length(s: string): (n: nat)
    ensures |s| <= n <= 2 * |s|
    ensures (forall i :: 0 <= i < |s| ==> (s[i] as int) < 0x1_0000) <==> n == |s|
  {
    if |s| == 0 then 0
    else (if (s[0] as int) < 0x1_0000 then 1 else 2) + Utf16Length(s[1..])
  }

  /** The index of the first element of `s` satisfying `p`, if any.
      A collection scan in natural (insertion) order returns this element. */
  function FirstIndex<T>(s: seq<T>, p: T -> bool): (r: Option<nat>)
    ensures r.Some? ==> r.value < |s| && p(s[r.value])
    ensures r.Some? ==> forall j :: 0 <= j < r.value ==> !p(s[j])
    ensures r.None? <==> forall j :: 0 <= j < |s| ==> !p(s[j])
  {
    if |s| == 0 then None
    else if p(s[0]) then Some(0)
    else match FirstIndex(s[1..], p)
      case Some(i) => Some(i + 1)
      case None => None
  }
}
