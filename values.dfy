/** JavaScript values as the weather widget sees them: optional values
    (`undefined`), the loosely typed coordinate fields and JS truthiness. */
module Values {

  /** A value that may be `undefined` (or `null`) in the widget. */
  datatype Option<+T> = None | Some(value: T)

  /** A coordinate as the widget holds it: absent (`undefined`), the text of a
      number input (always a string, `""` when empty), or a number delivered
      by the geocoding service or the device. */
  datatype Coord = Absent | Text(s: string) | Num(x: real)

  /** JS truthiness of a coordinate: `undefined`, `""` and `0` are falsy.
      The text `"0"` typed into an input is a non-empty string, hence truthy. */
  predicate Truthy(c: Coord)
  {
    match c
    case Absent => false
    case Text(s) => s != ""
    case Num(x) => x != 0.0
  }

  /** JS `a || b` on coordinates: the first operand when truthy, else the second. */
  function Or(a: Coord, b: Coord): (r: Coord)
    ensures Truthy(r) <==> Truthy(a) || Truthy(b)
    ensures Truthy(a) ==> r == a
    ensures !Truthy(a) ==> r == b
  {
    if Truthy(a) then a else b
  }

  /** JS `s[i]`: the element at `i`, or `undefined` past the end. */
  function ElementAt<T>(s: seq<T>, i: nat): (r: Option<T>)
    ensures r.Some? <==> i < |s|
    ensures i < |s| ==> r.value == s[i]
  {
    if i < |s| then Some(s[i]) else None
  }
}
