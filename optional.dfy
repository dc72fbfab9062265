/** Optional values, and the JavaScript `x || 0` reading of an optional number. */
module Optional {

  datatype Option<+T> = None | Some(value: T)

  /** True when an optional number is truthy in JavaScript: present and not zero. */
  predicate IsNonZero(o: Option<int>) {
    o.Some? && o.value != 0
  }

  /** `x || 0`: a missing number and zero both read as 0. */
  function OrZero(o: Option<int>): int {
    if IsNonZero(o) then o.value else 0
  }
}
