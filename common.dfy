/** Option and Result, and the JavaScript truthiness rules the portal leans on
    for optional text: `!x` is true for an absent value and for "", and `x || d`
    falls back to `d` in exactly those cases. */
module Common {

  datatype Option<+T> = None | Some(value: T) {
    function GetOr(default: T): T {
      match this
      case Some(v) => v
      case None => default
    }
  }

  datatype Result<+R, +E> = Success(value: R) | Failure(error: E)

  /** A text field that JavaScript treats as truthy: present and not "". */
  predicate Given(f: Option<string>) {
    f.Some? && f.value != ""
  }

  /** `f || d` on an optional text field. */
  function Or(f: Option<string>, d: string): string {
    if Given(f) then f.value else d
  }

  /** `s || d` on a stored text field, where "" stands for an absent value. */
  function OrText(s: string, d: string): string {
    if s != "" then s else d
  }
}
