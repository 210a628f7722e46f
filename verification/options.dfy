/** Optional values for the record fields that Python stores as `None` or leaves absent. */
module Options {

  datatype Option<+T> = None | Some(value: T)

  /** Python truthiness of a string that may be `None`: present and non-empty. */
  predicate Truthy(o: Option<string>) {
    o.Some? && o.value != ""
  }

  /** Python's `a or b` where `a` may be `None` and `b` is a string. */
  function Or(a: Option<string>, b: string): string {
    if Truthy(a) then a.value else b
  }
}
