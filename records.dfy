/** The ordered field records that parsers return: a Python `OrderedDict`
    from field name to field value, kept as a sequence of pairs in insertion
    order. */
module Records {
  import opened Values
  import opened Text

  /** A field value as the parsers store it: a string, an `int` (`len`), or a
      `bool` (`isbuiltin`). Any other Python object is held by its `str`. */
  datatype FieldValue = Text(s: string) | Count(n: nat) | Flag(b: bool)

  datatype Field = Field(key: string, val: FieldValue)

  type Record = seq<Field>

  /** The field names, in record order. */
  function Keys(rec: Record): (ks: seq<string>)
    ensures |ks| == |rec|
    ensures forall i :: 0 <= i < |rec| ==> ks[i] == rec[i].key
  {
    seq(|rec|, i requires 0 <= i < |rec| => rec[i].key)
  }

  /** A record whose fields carry the names `ks`, in order, has those keys. */
  lemma KeysAre(rec: Record, ks: seq<string>)
    requires |rec| == |ks|
    requires forall i :: 0 <= i < |rec| ==> rec[i].key == ks[i]
    ensures Keys(rec) == ks
  {
  }

  /** `rec.get(key)`. */
  function Lookup(rec: Record, key: string): (r: Option<FieldValue>)
    ensures r.Some? <==> key in Keys(rec)
  {
    if |rec| == 0 then None
    else if rec[0].key == key then Some(rec[0].val)
    else Lookup(rec[1..], key)
  }

  /** Lookup finds the first field with the key. */
  lemma {:induction false} LookupFirst(rec: Record, i: nat)
    requires i < |rec|
    requires forall j :: 0 <= j < i ==> rec[j].key != rec[i].key
    ensures Lookup(rec, rec[i].key) == Some(rec[i].val)
  {
    if i > 0 {
      LookupFirst(rec[1..], i - 1);
    }
  }

  /** How `'{}'.format(val)` renders a field value. */
  function Render(v: FieldValue): string
  {
    match v
    case Text(s) => s
    case Count(n) => NatToString(n)
    case Flag(b) => if b then "True" else "False"
  }

  /** Every rendering can be read back: a string is written as itself, a
      count as its decimal digits with no leading zero, a flag as the word
      `True` exactly when it is set. */
  lemma RenderReadsBack(v: FieldValue)
    ensures v.Text? ==> Render(v) == v.s
    ensures v.Count? ==> AllDigits(Render(v)) && DecimalValue(Render(v)) == v.n
                         && (Render(v)[0] == '0' <==> v.n == 0)
    ensures v.Flag? ==> (Render(v) == "True" <==> v.b) && (Render(v) == "False" <==> !v.b)
  {
    if v.Count? {
      NatToStringRoundTrip(v.n);
    }
  }
}
