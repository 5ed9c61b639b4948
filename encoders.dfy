/** The fitted scikit-learn label encoders, reduced to what the prediction
    block relies on: `classes_` is an ordered vocabulary and `transform`
    maps a label to its position in it, failing on a label it has not seen. */
module Encoders {
  import opened Values

  /** A fitted LabelEncoder; label `classes[i]` has code `i`. */
  datatype Encoder = Encoder(classes: seq<string>)

  /** A fitted encoder never repeats a label in its vocabulary. */
  ghost predicate Valid(e: Encoder)
  {
    forall i, j :: 0 <= i < j < |e.classes| ==> e.classes[i] != e.classes[j]
  }

  /** The encoders loaded with the model, one per categorical column. */
  datatype EncoderBank = EncoderBank(state: Encoder, category: Encoder, crimeType: Encoder)

  /** The position of the first occurrence of `entry` in `classes`, if any. */
  function IndexOf(classes: seq<string>, entry: string): (r: Option<nat>)
    ensures r.Some? <==> entry in classes
    ensures r.Some? ==> r.value < |classes| && classes[r.value] == entry && entry !in classes[..r.value]
  {
    if |classes| == 0 then None
    else if classes[0] == entry then Some(0)
    else
      match IndexOf(classes[1..], entry)
      case None => None
      case Some(k) =>
        assert classes[..k + 1] == [classes[0]] + classes[1..][..k];
        Some(k + 1)
  }

  /** `e.transform` applied to the single cell `v` of column `field`. */
  function Transform(e: Encoder, field: string, v: Value): (r: Result<int>)
    ensures r.Ok? <==> v.Str? && v.s in e.classes
    ensures r.Ok? ==> 0 <= r.value < |e.classes| && e.classes[r.value] == v.s
    ensures r.Err? ==> r.error == UnknownLabel(field, v)
  {
    if !v.Str? then Err(UnknownLabel(field, v))
    else
      match IndexOf(e.classes, v.s)
      case None => Err(UnknownLabel(field, v))
      case Some(code) => Ok(code)
  }

  /** Encoding a vocabulary entry of a fitted encoder gives back its position,
      so decoding the code (`classes_[code]`) returns the label and distinct
      labels get distinct codes. */
  lemma TransformRoundTrip(e: Encoder, field: string, i: int)
    requires Valid(e) && 0 <= i < |e.classes|
    ensures Transform(e, field, Str(e.classes[i])) == Ok(i)
  {
    var r := Transform(e, field, Str(e.classes[i]));
    assert e.classes[r.value] == e.classes[i];
  }
}
