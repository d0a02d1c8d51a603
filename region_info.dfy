/**
 * `RegionInfo`, the record the reconciler accumulates for each region id,
 * and the map from region id to record that it fills in.
 *
 * The record is a class whose setters update one field in place. Its
 * contents as a value are an `Info`. Every change the reconciler makes is an
 * "entry, or insert a new record, then set one field" on the map; such a
 * change is described by a `Write`, and a run of them by `ApplyAll`, which
 * is the specification the imperative reconciler is proved against.
 */
module RegionRecords {
  import opened RustStd

  /** An `f32`, as its IEEE 754 bit pattern; NaN is one of these patterns like any other value. */
  type F32 = bv32

  /** The contents of a `RegionInfo` */
  datatype Info = Info(
    textLabel: Option<string>,
    imageLocation: Option<string>,
    numPositive: Option<F32>,
    numTotal: Option<F32>,
    positivity: Option<F32>)

  /** The contents of `RegionInfo::new()`: every field absent */
  const Unset := Info(None, None, None, None, None)

  /** Information collected about one region */
  class RegionInfo {
    var textLabel: Option<string>
    var imageLocation: Option<string>
    var numPositive: Option<F32>
    var numTotal: Option<F32>
    var positivity: Option<F32>

    /** The record's current contents as a value */
    function Value(): Info
      reads this
    {
      Info(textLabel, imageLocation, numPositive, numTotal, positivity)
    }

    /** `RegionInfo::new`: a record with every field absent */
    constructor ()
      ensures Value() == Unset
    {
      textLabel, imageLocation := None, None;
      numPositive, numTotal, positivity := None, None, None;
    }

    function TextLabel(): Option<string>
      reads this
    {
      textLabel
    }

    function Positivity(): Option<F32>
      reads this
    {
      positivity
    }

    function NumPositive(): Option<F32>
      reads this
    {
      numPositive
    }

    function NumTotal(): Option<F32>
      reads this
    {
      numTotal
    }

    function ImageLocation(): Option<string>
      reads this
    {
      imageLocation
    }

    method SetTextLabel(textLabel: Option<string>)
      modifies this
      ensures Value() == old(Value()).(textLabel := textLabel)
    {
      this.textLabel := textLabel;
    }

    method SetNumPositive(numPositive: Option<F32>)
      modifies this
      ensures Value() == old(Value()).(numPositive := numPositive)
    {
      this.numPositive := numPositive;
    }

    method SetNumTotal(numTotal: Option<F32>)
      modifies this
      ensures Value() == old(Value()).(numTotal := numTotal)
    {
      this.numTotal := numTotal;
    }

    method SetPositivity(positivity: Option<F32>)
      modifies this
      ensures Value() == old(Value()).(positivity := positivity)
    {
      this.positivity := positivity;
    }

    method SetImageLocation(imageLocation: Option<string>)
      modifies this
      ensures Value() == old(Value()).(imageLocation := imageLocation)
    {
      this.imageLocation := imageLocation;
    }
  }

  // ---------------------------------------------------------------------------
  // Field-level view of a record
  // ---------------------------------------------------------------------------

  datatype Field = TextLabelField | ImageLocationField | NumPositiveField | NumTotalField | PositivityField

  /** A field's value, text or number */
  datatype Datum = Text(s: string) | Number(x: F32)

  function TextOf(o: Option<string>): Option<Datum> {
    if o.Some? then Some(Text(o.value)) else None
  }

  function NumberOf(o: Option<F32>): Option<Datum> {
    if o.Some? then Some(Number(o.value)) else None
  }

  /** The value of field `f` of a record */
  function Get(info: Info, f: Field): Option<Datum> {
    match f
    case TextLabelField => TextOf(info.textLabel)
    case ImageLocationField => TextOf(info.imageLocation)
    case NumPositiveField => NumberOf(info.numPositive)
    case NumTotalField => NumberOf(info.numTotal)
    case PositivityField => NumberOf(info.positivity)
  }

  /** Two records that agree on every field are the same record. */
  lemma GetDetermines(a: Info, b: Info)
    requires forall f :: Get(a, f) == Get(b, f)
    ensures a == b
  {
    assert Get(a, TextLabelField) == Get(b, TextLabelField);
    assert Get(a, ImageLocationField) == Get(b, ImageLocationField);
    assert Get(a, NumPositiveField) == Get(b, NumPositiveField);
    assert Get(a, NumTotalField) == Get(b, NumTotalField);
    assert Get(a, PositivityField) == Get(b, PositivityField);
  }

  // ---------------------------------------------------------------------------
  // Writes to the map of records
  // ---------------------------------------------------------------------------

  /** `entry(key).or_insert(RegionInfo::new()).set_*(Some(..))` for one of the five setters */
  datatype Write =
    | LabelWrite(key: string, text: string)
    | ImageWrite(key: string, location: string)
    | NumPositiveWrite(key: string, x: F32)
    | NumTotalWrite(key: string, x: F32)
    | PositivityWrite(key: string, x: F32)

  function FieldOf(w: Write): Field {
    match w
    case LabelWrite(_, _) => TextLabelField
    case ImageWrite(_, _) => ImageLocationField
    case NumPositiveWrite(_, _) => NumPositiveField
    case NumTotalWrite(_, _) => NumTotalField
    case PositivityWrite(_, _) => PositivityField
  }

  function DatumOf(w: Write): Datum {
    match w
    case LabelWrite(_, text) => Text(text)
    case ImageWrite(_, location) => Text(location)
    case NumPositiveWrite(_, x) => Number(x)
    case NumTotalWrite(_, x) => Number(x)
    case PositivityWrite(_, x) => Number(x)
  }

  /** The setter a write calls: it sets its own field and leaves the other four as they were. */
  function Apply(info: Info, w: Write): (r: Info)
    ensures forall f :: Get(r, f) == if f == FieldOf(w) then Some(DatumOf(w)) else Get(info, f)
  {
    match w
    case LabelWrite(_, text) => info.(textLabel := Some(text))
    case ImageWrite(_, location) => info.(imageLocation := Some(location))
    case NumPositiveWrite(_, x) => info.(numPositive := Some(x))
    case NumTotalWrite(_, x) => info.(numTotal := Some(x))
    case PositivityWrite(_, x) => info.(positivity := Some(x))
  }

  /** The record `key` has in `m`, or a new one if it has none (`or_insert(RegionInfo::new())`) */
  function Entry(m: map<string, Info>, key: string): Info {
    if key in m then m[key] else Unset
  }

  /** One write: the record for its key, found or created, with the write's field set */
  function Step(m: map<string, Info>, w: Write): map<string, Info> {
    m[w.key := Apply(Entry(m, w.key), w)]
  }

  /**
   * One write adds its key if it is missing, leaves every other record as it
   * was, and in its key's record changes only the field it names.
   */
  lemma StepEffect(m: map<string, Info>, w: Write)
    ensures Step(m, w).Keys == m.Keys + {w.key}
    ensures forall k :: k != w.key ==> Entry(Step(m, w), k) == Entry(m, k)
    ensures forall f :: Get(Entry(Step(m, w), w.key), f) == if f == FieldOf(w) then Some(DatumOf(w)) else Get(Entry(m, w.key), f)
  {
    assert Entry(Step(m, w), w.key) == Apply(Entry(m, w.key), w);
  }

  /** The writes `ws`, in order, applied to `m` */
  function ApplyAll(m: map<string, Info>, ws: seq<Write>): map<string, Info> {
    if ws == [] then m else Step(ApplyAll(m, ws[..|ws| - 1]), ws[|ws| - 1])
  }

  /** Applying one more write is one more step. */
  lemma ApplyAllSnoc(m: map<string, Info>, ws: seq<Write>, w: Write)
    ensures ApplyAll(m, ws + [w]) == Step(ApplyAll(m, ws), w)
  {
    assert (ws + [w])[..|ws|] == ws;
  }

  /** The keys the writes `ws` name */
  function KeysOf(ws: seq<Write>): set<string> {
    set w | w in ws :: w.key
  }

  /** The value of the last write in `ws` to field `f` of key `k`, if there is one */
  function LastDatum(ws: seq<Write>, k: string, f: Field): Option<Datum> {
    if ws == [] then None
    else
      var w := ws[|ws| - 1];
      if w.key == k && FieldOf(w) == f then Some(DatumOf(w)) else LastDatum(ws[..|ws| - 1], k, f)
  }

  lemma KeysOfSnoc(ws: seq<Write>, w: Write)
    ensures KeysOf(ws + [w]) == KeysOf(ws) + {w.key}
  {
    assert forall v :: v in ws + [w] <==> v in ws || v == w;
  }

  lemma KeysOfAppend(a: seq<Write>, b: seq<Write>)
    ensures KeysOf(a + b) == KeysOf(a) + KeysOf(b)
  {
    assert forall v :: v in a + b <==> v in a || v in b;
  }

  /** Entries are never removed; the keys after a run of writes are the old keys and the written ones. */
  lemma {:induction false} ApplyAllKeys(m: map<string, Info>, ws: seq<Write>)
    ensures ApplyAll(m, ws).Keys == m.Keys + KeysOf(ws)
  {
    if ws != [] {
      var init := ws[..|ws| - 1];
      ApplyAllKeys(m, init);
      StepEffect(ApplyAll(m, init), ws[|ws| - 1]);
      KeysOfSnoc(init, ws[|ws| - 1]);
      assert init + [ws[|ws| - 1]] == ws;
    }
  }

  /** A key no write names keeps its record. */
  lemma {:induction false} ApplyAllUntouched(m: map<string, Info>, ws: seq<Write>, k: string)
    requires k !in KeysOf(ws)
    ensures Entry(ApplyAll(m, ws), k) == Entry(m, k)
  {
    if ws != [] {
      var init := ws[..|ws| - 1];
      assert ws == init + [ws[|ws| - 1]];
      KeysOfSnoc(init, ws[|ws| - 1]);
      StepEffect(ApplyAll(m, init), ws[|ws| - 1]);
      ApplyAllUntouched(m, init, k);
    }
  }

  /** Last write wins: each field of each record holds its last write, or its value from before. */
  lemma {:induction false} LastWriteWins(m: map<string, Info>, ws: seq<Write>, k: string, f: Field)
    ensures Get(Entry(ApplyAll(m, ws), k), f) == LastDatum(ws, k, f).Or(Get(Entry(m, k), f))
  {
    if ws != [] {
      LastWriteWins(m, ws[..|ws| - 1], k, f);
      StepEffect(ApplyAll(m, ws[..|ws| - 1]), ws[|ws| - 1]);
    }
  }

  /** Applying `a + b` is applying `a`, then `b`. */
  lemma {:induction false} ApplyAllAppend(m: map<string, Info>, a: seq<Write>, b: seq<Write>)
    ensures ApplyAll(m, a + b) == ApplyAll(ApplyAll(m, a), b)
  {
    if b == [] {
      assert a + b == a;
    } else {
      var init := b[..|b| - 1];
      ApplyAllAppend(m, a, init);
      assert (a + b)[..|a + b| - 1] == a + init;
    }
  }

  /** The last write in `a + b` is the last one in `b`, or else the last one in `a`. */
  lemma {:induction false} LastDatumAppend(a: seq<Write>, b: seq<Write>, k: string, f: Field)
    ensures LastDatum(a + b, k, f) == LastDatum(b, k, f).Or(LastDatum(a, k, f))
  {
    if b == [] {
      assert a + b == a;
    } else {
      var init := b[..|b| - 1];
      LastDatumAppend(a, init, k, f);
      assert (a + b)[..|a + b| - 1] == a + init;
    }
  }

  // ---------------------------------------------------------------------------
  // The map of records, in the heap
  // ---------------------------------------------------------------------------

  /** Every key has a record of its own, as the values of a `HashMap` do. */
  ghost predicate Distinct(m: map<string, RegionInfo>) {
    forall k1, k2 :: k1 in m && k2 in m && k1 != k2 ==> m[k1] != m[k2]
  }

  /** The contents of the records of `m` */
  function View(m: map<string, RegionInfo>): map<string, Info>
    reads m.Values
  {
    map k | k in m :: m[k].Value()
  }

  /** `regions_info.entry(key).or_insert(RegionInfo::new())`: the record for `key`, created if missing */
  method EntryOrInsert(regionsInfo: map<string, RegionInfo>, key: string)
    returns (updated: map<string, RegionInfo>, info: RegionInfo)
    requires Distinct(regionsInfo)
    ensures Distinct(updated)
    ensures updated.Keys == regionsInfo.Keys + {key} && updated[key] == info
    ensures forall k :: k in regionsInfo ==> updated[k] == regionsInfo[k]
    ensures key !in regionsInfo ==> fresh(info)
    ensures View(updated) == View(regionsInfo)[key := Entry(View(regionsInfo), key)]
  {
    if key in regionsInfo {
      info := regionsInfo[key];
      updated := regionsInfo;
    } else {
      info := new RegionInfo();
      updated := regionsInfo[key := info];
    }
  }

  /** The setter the write names, called with `Some(..)` */
  method CallSetter(info: RegionInfo, w: Write)
    modifies info
    ensures info.Value() == Apply(old(info.Value()), w)
  {
    match w
    case LabelWrite(_, text) => info.SetTextLabel(Some(text));
    case ImageWrite(_, location) => info.SetImageLocation(Some(location));
    case NumPositiveWrite(_, x) => info.SetNumPositive(Some(x));
    case NumTotalWrite(_, x) => info.SetNumTotal(Some(x));
    case PositivityWrite(_, x) => info.SetPositivity(Some(x));
  }

  /** `Step` is "find or insert the record", then set its field. */
  lemma StepOfEntry(m: map<string, Info>, w: Write)
    ensures var found := m[w.key := Entry(m, w.key)];
      Step(m, w) == found[w.key := Apply(found[w.key], w)]
  {
  }

  /** The setter the write names, called on the record stored at `key`; no other record changes. */
  method SetRecord(m: map<string, RegionInfo>, key: string, w: Write)
    requires Distinct(m) && key in m
    modifies m[key]
    ensures View(m) == old(View(m))[key := Apply(old(View(m))[key], w)]
  {
    ghost var before := View(m);
    CallSetter(m[key], w);
    forall k | k in m && k != key
      ensures m[k].Value() == before[k]
    {
      assert m[k] != m[key];
    }
  }

  /**
   * `regions_info.entry(key).or_insert(RegionInfo::new())` followed by the
   * setter the write names, called with `Some(..)`.
   */
  method Store(regionsInfo: map<string, RegionInfo>, w: Write) returns (updated: map<string, RegionInfo>)
    requires Distinct(regionsInfo)
    modifies regionsInfo.Values
    ensures Distinct(updated)
    ensures forall k :: k in updated ==> (k in regionsInfo && updated[k] == regionsInfo[k]) || fresh(updated[k])
    ensures View(updated) == Step(old(View(regionsInfo)), w)
  {
    var info: RegionInfo;
    updated, info := EntryOrInsert(regionsInfo, w.key);
    SetRecord(updated, w.key, w);
    StepOfEntry(old(View(regionsInfo)), w);
  }
}
