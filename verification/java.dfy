/**
 Java reference values as the request builder sees them: a `String` field or
 argument may be `null`, and Guava's `Strings.isNullOrEmpty` decides whether a
 scalar option counts as supplied.
 */
module Java {

  /** A Java reference: either `null` or a value. */
  datatype Nullable<+T> = Null | Val(value: T)

  /** A `java.lang.String` reference, as a sequence of Unicode characters. */
  type JString = Nullable<string>

  /** Guava's `isNullOrEmpty`: the reference is null or the string has length zero. */
  predicate IsNullOrEmpty(s: JString) {
    s.Null? || |s.value| == 0
  }
}
