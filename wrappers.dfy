/** Optional values: Python's `None` or a value. */
module Wrappers {

  datatype Option<+T> = None | Some(value: T)

  /** Python truthiness of an optional flag: `None` and `False` are both false. */
  predicate Truthy(b: Option<bool>)
  {
    b == Some(true)
  }

  /** Python truthiness of an optional int: `None` and `0` are both false. */
  predicate TruthyInt(n: Option<int>)
  {
    n.Some? && n.value != 0
  }

  /** Python truthiness of an optional string: `None` and `""` are both false. */
  predicate TruthyString(s: Option<string>)
  {
    s.Some? && s.value != ""
  }
}
