/**
 * Form fields as the dialogs read them. A numeric input holds either nothing or
 * the decimal integer the user typed; `Number("")` is 0. The signed-in user is
 * `None` when there is no session, otherwise the user's id.
 */
module Forms {
  datatype NumField = Empty | Entered(value: int)

  /** `Number(field)`. */
  function NumberOf(f: NumField): int {
    if f.Empty? then 0 else f.value
  }

  /** The field showing `String(n)`: never empty, and read back as `n`. */
  function Shown(n: int): NumField {
    Entered(n)
  }
}
