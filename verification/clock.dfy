/** Abstract time. Instants are integers; the integer 0 stands for Go's zero
    `time.Time`, the "not set" value that Go's `IsZero` detects. */
module Clock {

  type Time = int

  const Zero: Time := 0

  predicate IsZero(t: Time) {
    t == Zero
  }

  /** `a.After(b)`: strictly later. */
  predicate After(a: Time, b: Time) {
    a > b
  }
}
