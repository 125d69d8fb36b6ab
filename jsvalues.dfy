/** The few JavaScript values the dashboard passes around. */
module JsValues {

  /** A value that is either text or a number: the argument of
      `updateSensorUI` and a cell of the export table. Numbers are reals;
      IEEE rounding is not modelled. */
  datatype Value = Str(text: string) | Num(number: real)

  /** A value that may be absent (`null` / `undefined`). */
  datatype Option<T> = None | Some(value: T)
}
