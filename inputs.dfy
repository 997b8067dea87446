/** The form pieces the cards share. A numeric text field is modelled as
    the app reads it with `Number(text)`; the parser itself is not modelled:
    a field is blank (only white space), holds a finite number, or holds
    something `Number` turns into NaN or an infinity. An `Alert` is the
    title and message of `Alert.alert`. */
module Inputs {
  import opened Wrappers

  datatype ParsedInput = Blank | Finite(value: real) | NotFinite

  /** The text field the app shows for a stored value: `String(v)` for a
      value, the empty string for `null`. `Number(String(v)) == v` for every
      finite number, so the field reads back as the value. */
  function FieldFor(v: Option<real>): (p: ParsedInput)
    ensures p.Blank? <==> v.None?
    ensures v.Some? ==> p == Finite(v.value)
  {
    match v
    case None => Blank
    case Some(x) => Finite(x)
  }

  datatype Alert = Alert(title: string, message: string)
}
