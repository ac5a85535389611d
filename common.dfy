/** Shared vocabulary of the view-state controllers: optional values, the
    outcome of one repository call, Kotlin's `isBlank` and the elvis fallback
    applied to an exception's message. */
module Common {

  /** Kotlin's nullable `T?`. */
  datatype Option<+T> = None | Some(value: T) {
    /** `this ?: default` */
    function GetOr(default: T): T {
      match this
      case Some(v) => v
      case None => default
    }
  }

  /** The outcome of one suspending repository call: the value it returned,
      or the exception it threw, seen through its (nullable) `localizedMessage`. */
  datatype Outcome<+T> = Ok(value: T) | Fail(message: Option<string>)

  /** Kotlin/JVM `Char.isWhitespace()`: `Character.isWhitespace` or
      `Character.isSpaceChar`, i.e. the Unicode space, line and paragraph
      separators plus the ASCII controls TAB, LF, VT, FF, CR and FS..US. */
  predicate IsWhitespace(c: char): (ws: bool)
    ensures c == ' ' ==> ws
    ensures ws ==> !('!' <= c <= '~')
  {
    || c == '\t' || c == '\n' || c == '\U{000B}' || c == '\U{000C}' || c == '\r'
    || ('\U{001C}' <= c <= '\U{001F}')
    || c == ' ' || c == '\U{00A0}' || c == '\U{1680}'
    || ('\U{2000}' <= c <= '\U{200A}')
    || c == '\U{2028}' || c == '\U{2029}' || c == '\U{202F}' || c == '\U{205F}' || c == '\U{3000}'
  }

  /** Kotlin `CharSequence.isBlank()`: empty, or whitespace only. */
  predicate IsBlank(s: string): (blank: bool)
    ensures s == [] ==> blank
    ensures blank ==> forall i :: 0 <= i < |s| ==> !('!' <= s[i] <= '~')
  {
    forall i :: 0 <= i < |s| ==> IsWhitespace(s[i])
  }

  /** `e.localizedMessage ?: fallback`: the message when there is one (even
      an empty one), the fixed fallback otherwise. */
  function MessageOr(message: Option<string>, fallback: string): (text: string)
    ensures message.Some? ==> text == message.value
    ensures message.None? ==> text == fallback
  {
    message.GetOr(fallback)
  }
}
