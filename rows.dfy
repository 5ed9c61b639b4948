/** The single-row feature frame built for one candidate crime type: the four
    UI-controlled columns, the default columns assigned onto it, the in-place
    encoding of the three categorical columns, and the projection onto the
    model's ordered feature list. The frame is a map from column name to cell. */
module Rows {
  import opened Values
  import opened Encoders

  type Row = map<string, Value>

  /** The columns the page fills from its inputs. */
  const UiColumns: set<string> := {"state", "category", "type", "year"}

  /** The columns the encoders overwrite. */
  const CategoricalColumns: set<string> := {"state", "category", "type"}

  /** The frame as first constructed from the UI selections and the candidate type. */
  function BaseRow(state: string, category: string, crimeType: string, year: int): Row
  {
    map["state" := Str(state), "category" := Str(category), "type" := Str(crimeType), "year" := Int(year)]
  }

  /** The defaults loop of app.py:144-145: each entry of the defaults mapping
      is written onto the frame as a column, replacing a column of the same name.
      Keys of a dict are distinct, so the order of the writes does not matter:
      the loop takes them in any order. */
  method AssignDefaults(row: Row, defaults: map<string, Value>) returns (r: Row)
    ensures r.Keys == row.Keys + defaults.Keys
    ensures forall k :: k in defaults ==> r[k] == defaults[k]
    ensures forall k :: k in row && k !in defaults ==> r[k] == row[k]
    ensures r == row + defaults
  {
    r := row;
    var pending := defaults.Keys;
    while pending != {}
      invariant pending <= defaults.Keys
      invariant r.Keys == row.Keys + (defaults.Keys - pending)
      invariant forall k :: k in defaults && k !in pending ==> r[k] == defaults[k]
      invariant forall k :: k in row && (k !in defaults || k in pending) ==> r[k] == row[k]
      decreases pending
    {
      var k :| k in pending;
      r := r[k := defaults[k]];
      pending := pending - {k};
    }
  }

  /** Column `field` of `row` holds a label that encoder `e` knows. */
  predicate Encodable(row: Row, field: string, e: Encoder)
  {
    field in row && row[field].Str? && row[field].s in e.classes
  }

  /** `coded` is the code encoder `e` gives to the label `original`. */
  predicate Encodes(e: Encoder, original: Value, coded: Value)
  {
    original.Str? && coded.Int? && 0 <= coded.i < |e.classes| && e.classes[coded.i] == original.s
  }

  /** One encoding statement of app.py:147-149: column `field` is read,
      encoded by `e` and written back in place. Reading an absent column is a
      KeyError; an unknown label is the encoder's error. */
  function EncodeColumn(row: Row, field: string, e: Encoder): (r: Result<Row>)
    ensures r.Ok? <==> Encodable(row, field, e)
    ensures r.Ok? ==> r.value.Keys == row.Keys && Encodes(e, row[field], r.value[field])
    ensures r.Ok? ==> forall k :: k in row && k != field ==> r.value[k] == row[k]
    ensures r.Err? ==> r.error == if field in row then UnknownLabel(field, row[field]) else MissingColumns([field])
  {
    if field !in row then Err(MissingColumns([field]))
    else
      var code :- Transform(e, field, row[field]);
      Ok(row[field := Int(code)])
  }

  /** The three encoding statements, in the page's order: state, category, type. */
  function Encoded(row: Row, bank: EncoderBank): Result<Row>
  {
    var s :- EncodeColumn(row, "state", bank.state);
    var c :- EncodeColumn(s, "category", bank.category);
    EncodeColumn(c, "type", bank.crimeType)
  }

  /** Encoding succeeds exactly when the three categorical columns hold known
      labels; it then replaces just those three cells by their codes, and every
      other column, the year and all defaults included, is left as it was. */
  lemma EncodedFields(row: Row, bank: EncoderBank)
    ensures Encoded(row, bank).Ok? <==>
      Encodable(row, "state", bank.state) && Encodable(row, "category", bank.category)
      && Encodable(row, "type", bank.crimeType)
    ensures Encoded(row, bank).Ok? ==>
      var r := Encoded(row, bank).value;
      && r.Keys == row.Keys
      && Encodes(bank.state, row["state"], r["state"])
      && Encodes(bank.category, row["category"], r["category"])
      && Encodes(bank.crimeType, row["type"], r["type"])
      && forall k :: k in row && k !in CategoricalColumns ==> r[k] == row[k]
  {
    var s := EncodeColumn(row, "state", bank.state);
    if s.Ok? {
      var c := EncodeColumn(s.value, "category", bank.category);
      assert Encodable(s.value, "category", bank.category) <==> Encodable(row, "category", bank.category);
      if c.Ok? {
        assert Encodable(c.value, "type", bank.crimeType) <==> Encodable(row, "type", bank.crimeType);
      }
    }
  }

  /** The names in `features` that are not columns of `row`, in feature order. */
  function Missing(row: Row, features: seq<string>): (m: seq<string>)
    ensures forall x :: x in m <==> x in features && x !in row
    ensures |m| <= |features|
  {
    if features == [] then []
    else (if features[0] in row then [] else [features[0]]) + Missing(row, features[1..])
  }

  /** The column selection of app.py:151: the cells named by the model's
      feature list, in the model's order. Columns the model does not name are dropped; a name the
      frame lacks is a KeyError naming the absent columns, never a zero. */
  function Aligned(row: Row, features: seq<string>): (r: Result<seq<Value>>)
    ensures r.Ok? <==> forall i :: 0 <= i < |features| ==> features[i] in row
    ensures r.Ok? ==> |r.value| == |features| && forall i :: 0 <= i < |features| ==> r.value[i] == row[features[i]]
    ensures r.Err? ==> r.error == MissingColumns(Missing(row, features)) && Missing(row, features) != []
  {
    var missing := Missing(row, features);
    if missing != [] then
      assert missing[0] in missing;
      Err(MissingColumns(missing))
    else
      assert forall i :: 0 <= i < |features| ==> features[i] in row by {
        forall i | 0 <= i < |features| ensures features[i] in row {
          assert features[i] in features;
        }
      }
      Ok(seq(|features|, i requires 0 <= i < |features| => row[features[i]]))
  }

  /** Alignment only looks at the named columns: two frames that agree on
      every name in `features` (presence and contents) align identically,
      whatever else either of them holds. */
  lemma {:induction false} AlignedIgnoresOtherColumns(row1: Row, row2: Row, features: seq<string>)
    requires forall f :: f in features ==> (f in row1 <==> f in row2)
    requires forall f :: f in features && f in row1 ==> row1[f] == row2[f]
    ensures Aligned(row1, features) == Aligned(row2, features)
  {
    MissingAgrees(row1, row2, features);
    if Aligned(row1, features).Ok? {
      forall i | 0 <= i < |features| ensures row1[features[i]] == row2[features[i]] {
        assert features[i] in features;
      }
      assert Aligned(row1, features).value == Aligned(row2, features).value;
    }
  }

  lemma {:induction false} MissingAgrees(row1: Row, row2: Row, features: seq<string>)
    requires forall f :: f in features ==> (f in row1 <==> f in row2)
    ensures Missing(row1, features) == Missing(row2, features)
  {
    if features != [] {
      assert features[0] in features;
      MissingAgrees(row1, row2, features[1..]);
    }
  }
}
