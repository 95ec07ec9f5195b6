/**
 * Values shared by every part of the connector model: optional (nullable)
 * values, results, the string tests of Apache Commons Lang, and the integer
 * widths of the Java platform.
 */
module Common {

  /** A Java reference that may be null: `None` is null. */
  datatype Option<+T> = None | Some(value: T)

  /** A computation that either yields a value or fails with an error. */
  datatype Result<+T, +E> = Success(value: T) | Failure(error: E) {
    predicate IsFailure() { Failure? }

    function PropagateFailure<U>(): Result<U, E>
      requires Failure?
    {
      Failure(error)
    }

    function Extract(): T
      requires Success?
    {
      value
    }
  }

  /** A step that either passes or fails with an error, and yields nothing. */
  datatype Outcome<+E> = Pass | Fail(error: E)

  // ---------------------------------------------------------------------------
  // Strings as the connector tests them
  // ---------------------------------------------------------------------------

  /** `StringUtils.isEmpty`: null or of length zero. */
  predicate IsEmpty(s: Option<string>) {
    s.None? || s.value == ""
  }

  /** `StringUtils.isNotEmpty`: the negation of `IsEmpty`; whitespace counts as content. */
  predicate IsNotEmpty(s: Option<string>) {
    s.Some? && s.value != ""
  }

  /**
   * `Character.isWhitespace` on one character: the Unicode space, line and
   * paragraph separators except the three non-breaking spaces, plus the
   * control characters U+0009..U+000D and U+001C..U+001F.
   */
  predicate IsWhitespace(c: char) {
    var n := c as int;
    || (0x09 <= n <= 0x0D) || (0x1C <= n <= 0x20)
    || n == 0x1680 || (0x2000 <= n <= 0x2006) || (0x2008 <= n <= 0x200A)
    || n == 0x2028 || n == 0x2029 || n == 0x205F || n == 0x3000
  }

  /** `StringUtils.isNotBlank`: not null, and at least one character that is not whitespace. */
  predicate IsNotBlank(s: Option<string>): (r: bool)
    ensures r ==> IsNotEmpty(s)
    ensures s.Some? && (forall i :: 0 <= i < |s.value| ==> IsWhitespace(s.value[i])) ==> !r
    ensures s.Some? && |s.value| > 0 && !IsWhitespace(s.value[0]) ==> r
  {
    s.Some? && exists i :: 0 <= i < |s.value| && !IsWhitespace(s.value[i])
  }

  /** The text Java's `+` appends for a possibly null String: null becomes "null". */
  function JavaText(s: Option<string>): (r: string)
    ensures s.Some? ==> r == s.value
    ensures s.None? ==> r == "null"
  {
    match s
    case None => "null"
    case Some(t) => t
  }

  /**
   * `String.length()`: the number of UTF-16 code units. A character outside
   * the Basic Multilingual Plane takes two units.
   */
  function Utf16Length(s: string): (r: nat)
    ensures |s| <= r <= 2 * |s|
    ensures r == |s| <==> forall i :: 0 <= i < |s| ==> s[i] as int <= 0xFFFF
  {
    if s == [] then 0
    else (if s[0] as int > 0xFFFF then 2 else 1) + Utf16Length(s[1..])
  }

  // ---------------------------------------------------------------------------
  // Java integer widths
  // ---------------------------------------------------------------------------

  const INT_MIN: int := -0x8000_0000
  const INT_MAX: int := 0x7FFF_FFFF
  const LONG_MIN: int := -0x8000_0000_0000_0000
  const LONG_MAX: int := 0x7FFF_FFFF_FFFF_FFFF

  /** One byte of file content. */
  newtype byte = b: int | 0 <= b < 256

  /** A value of Java's `int`. */
  predicate IsInt(n: int) { INT_MIN <= n <= INT_MAX }

  /** A value of Java's `long`. */
  predicate IsLong(n: int) { LONG_MIN <= n <= LONG_MAX }

  /** Two's-complement wrap-around of an exact result into Java's `long`. */
  function WrapLong(n: int): (r: int)
    ensures IsLong(r)
    ensures IsLong(n) ==> r == n
    ensures (r - n) % 0x1_0000_0000_0000_0000 == 0
  {
    (n - LONG_MIN) % 0x1_0000_0000_0000_0000 + LONG_MIN
  }
}
