/**
 Shared vocabulary of the finance domain model: nullable references, the three
 exception kinds the domain throws, the state-plus-exception shape of a mutating
 call, Guid identifiers, and the two .NET string predicates the entities rely on
 (`string.IsNullOrWhiteSpace` and upper-casing).
 */
module Common {

  /** A nullable reference: `None` is C#'s `null`. */
  datatype Option<+T> = None | Some(value: T) {
    /** `x ?? default` */
    function GetOr(default: T): T {
      match this
      case Some(v) => v
      case None => default
    }
  }

  /** The exceptions the domain layer throws. */
  datatype Error =
    | ArgumentError(message: string)        // System.ArgumentException
    | ArgumentNullError(paramName: string)  // System.ArgumentNullException
    | InvalidOperation(message: string)     // System.InvalidOperationException

  /** The result of a constructor: the new object, or the exception it threw. */
  datatype Result<+T> = Ok(value: T) | Err(error: Error)

  /** The result of a mutating method: the object as it stands after the call,
      together with the exception the call threw, if any.  Keeping the object on
      failure is what lets a non-atomic method expose the fields it had already
      changed before it threw. */
  datatype Outcome<+T> = Outcome(after: T, thrown: Option<Error>) {
    predicate Succeeded() { thrown.None? }
  }

  function Done<T>(x: T): Outcome<T> { Outcome(x, None) }

  function Throw<T>(x: T, e: Error): Outcome<T> { Outcome(x, Some(e)) }

  /** System.Guid as its 128-bit value; 0 is `Guid.Empty`. */
  type Guid = n: nat | n < 0x1_0000_0000_0000_0000_0000_0000_0000_0000

  const EmptyGuid: Guid := 0

  /** System.DateTime as its tick count; `DateTime.MinValue` has 0 ticks and
      DateTime comparison compares ticks. */
  type Ticks = int

  const MinDateTime: Ticks := 0

  /** Char.IsWhiteSpace: the Unicode space, line and paragraph separators plus
      the control characters U+0009..U+000D and U+0085. */
  predicate IsWhiteSpace(c: char) {
    || ('\U{0009}' <= c <= '\U{000D}')
    || c == ' '
    || c == '\U{0085}'
    || c == '\U{00A0}'
    || c == '\U{1680}'
    || ('\U{2000}' <= c <= '\U{200A}')
    || c == '\U{2028}'
    || c == '\U{2029}'
    || c == '\U{202F}'
    || c == '\U{205F}'
    || c == '\U{3000}'
  }

  /** string.IsNullOrWhiteSpace: null, empty, or white space only. */
  predicate IsNullOrWhiteSpace(s: Option<string>) {
    s.None? || forall i :: 0 <= i < |s.value| ==> IsWhiteSpace(s.value[i])
  }

  /** string.IsNullOrEmpty */
  predicate IsNullOrEmpty(s: Option<string>) {
    s.None? || s.value == ""
  }

  /** Upper-casing of one character, restricted to the ASCII letters. */
  function ToUpperChar(c: char): char {
    if 'a' <= c <= 'z' then (c as int - 32) as char else c
  }

  /** string.ToUpper, character by character. */
  function ToUpper(s: string): (r: string)
    ensures |r| == |s|
    ensures forall i :: 0 <= i < |s| ==> r[i] == ToUpperChar(s[i])
  {
    seq(|s|, i requires 0 <= i < |s| => ToUpperChar(s[i]))
  }

  /** A string that upper-casing leaves as it is. */
  predicate IsUpper(s: string) {
    ToUpper(s) == s
  }

  lemma ToUpperIsUpper(s: string)
    ensures IsUpper(ToUpper(s))
  {
    var u := ToUpper(s);
    assert forall i :: 0 <= i < |u| ==> ToUpper(u)[i] == u[i];
  }

  /** String comparison with StringComparison.OrdinalIgnoreCase. */
  predicate EqualsIgnoreCase(s: string, t: string) {
    ToUpper(s) == ToUpper(t)
  }
}
