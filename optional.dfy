/** Optional values and the JavaScript truthiness tests the dashboard relies on. */
module Optional {

  /** A value that may be absent (`undefined` or `null` in the source). */
  datatype Option<T> = None | Some(value: T) {
    function GetOr(default: T): T {
      match this
      case Some(v) => v
      case None => default
    }
  }

  /** `if (s)` on an optional string: present and not the empty string. */
  predicate TruthyStr(s: Option<string>) {
    s.Some? && s.value != ""
  }

  /** `if (x)` on an optional number: present and not zero. */
  predicate TruthyNum(x: Option<real>) {
    x.Some? && x.value != 0.0
  }

  /** `a || b` on optional strings. */
  function OrStr(a: Option<string>, b: Option<string>): (r: Option<string>)
    ensures TruthyStr(a) ==> r == a
    ensures !TruthyStr(a) ==> r == b
  {
    if TruthyStr(a) then a else b
  }

  /** `a || b` on optional numbers. */
  function OrNum(a: Option<real>, b: Option<real>): (r: Option<real>)
    ensures TruthyNum(a) ==> r == a
    ensures !TruthyNum(a) ==> r == b
  {
    if TruthyNum(a) then a else b
  }
}
