/** `dynamicSort(property)`: a comparator for `Array.prototype.sort` that orders objects by one
    named property, descending when the name starts with '-'. A property value is read through
    `get`, which answers None where JavaScript reads `undefined` (an absent property); `<` and `>`
    against `undefined` are both false, so such a pair compares as equal. */
module DynamicSort {
  import opened Js

  /** The property name starts with the '-' that asks for descending order. */
  predicate Descending(property: string) {
    |property| > 0 && property[0] == '-'
  }

  /** JavaScript `<` on two property values. */
  predicate Less(x: Option<real>, y: Option<real>) {
    x.Some? && y.Some? && x.value < y.value
  }

  /** `dynamicSort(property)(a, b)`. A null property compares everything as equal; otherwise the
      answer is -1, 0 or 1 by `<` and `>` on the named property, and one leading '-' is dropped
      from the name and reverses the answer. */
  function Compare<T>(property: Option<string>, get: (T, string) -> Option<real>, a: T, b: T): (r: int)
    ensures property.None? ==> r == 0
    ensures r == -1 || r == 0 || r == 1
    ensures property.Some? && !Descending(property.value) ==>
              (r == -1 <==> Less(get(a, property.value), get(b, property.value))) &&
              (r == 1 <==> Less(get(b, property.value), get(a, property.value)))
    ensures property.Some? && Descending(property.value) ==>
              (r == 1 <==> Less(get(a, property.value[1..]), get(b, property.value[1..]))) &&
              (r == -1 <==> Less(get(b, property.value[1..]), get(a, property.value[1..])))
  {
    match property
    case None => 0
    case Some(p) =>
      var sortOrder := if Descending(p) then -1 else 1;
      var name := if Descending(p) then p[1..] else p;
      var result := if Less(get(a, name), get(b, name)) then -1
                    else if Less(get(b, name), get(a, name)) then 1
                    else 0;
      result * sortOrder
  }

  /** The comparator for "-p" is the negation of the comparator for "p". */
  lemma DescendingNegates<T>(p: string, get: (T, string) -> Option<real>, a: T, b: T)
    requires !Descending(p)
    ensures Compare(Some("-" + p), get, a, b) == -Compare(Some(p), get, a, b)
  {
    assert ("-" + p)[1..] == p;
  }

  /** Only one '-' is dropped: "--p" sorts by the property named "-p", descending. */
  lemma OneDashStripped<T>(p: string, get: (T, string) -> Option<real>, a: T, b: T)
    ensures Compare(Some("--" + p), get, a, b) == 1 <==> Less(get(a, "-" + p), get(b, "-" + p))
    ensures Compare(Some("--" + p), get, a, b) == -1 <==> Less(get(b, "-" + p), get(a, "-" + p))
  {
    assert ("--" + p)[1..] == "-" + p;
  }

  /** Swapping the operands negates the answer, so the comparator is consistent in both directions. */
  lemma Antisymmetric<T>(property: Option<string>, get: (T, string) -> Option<real>, a: T, b: T)
    ensures Compare(property, get, b, a) == -Compare(property, get, a, b)
  {
  }
}
