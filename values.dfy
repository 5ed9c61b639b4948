/** The values that flow through the prediction block of the Streamlit page:
    the cells of the single-row feature frame, the errors the block can raise,
    and the (crime type, score) pairs it ranks. */
module Values {

  /** One cell of the single-row frame: a string label as chosen in the UI,
      an integer (the target year, or an encoder code once encoded), or a
      real-valued default taken from the defaults artifact. */
  datatype Value = Str(s: string) | Int(i: int) | Num(x: real)

  /** The failures the block can raise. Either one ends the whole prediction
      run: no partial ranking is produced. */
  datatype Error =
    | UnknownLabel(field: string, value: Value)  // LabelEncoder.transform meets a label outside classes_
    | MissingColumns(names: seq<string>)         // pandas KeyError: the selected column(s) are absent

  datatype Option<T> = None | Some(value: T)

  /** A computation that either produces a `T` or raises an `Error`. */
  datatype Result<T> = Ok(value: T) | Err(error: Error) {
    predicate IsFailure() { Err? }

    function PropagateFailure<U>(): Result<U>
      requires Err?
    {
      Err(error)
    }

    function Extract(): T
      requires Ok?
    {
      value
    }
  }

  /** One entry of the page's `results` list: a crime type and its predicted score. */
  datatype Prediction = Prediction(crimeType: string, score: real)
}
