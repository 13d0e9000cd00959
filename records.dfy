/** The Python values the core keeps in its `meta_data` dictionaries and data
    tables, and Python's insertion-ordered `dict`, as an association list. */
module Records {
  import opened Wrappers
  import opened Strings

  /** A value stored in a `meta_data` dictionary. A float only ever comes from
      the clock (`time.time()`), so it travels with the text `str()` gives for
      it; the other kinds are printed by the model itself. */
  datatype Value =
    | Text(s: string)
    | Int(i: int)
    | Float(x: real, repr: string)
    | Bytes(b: seq<byte>)
    | Names(names: seq<string>)

  /** `str(v)`, as used by f-strings and by `k + ": " + str(v)`. */
  function Str(v: Value): string
  {
    match v
    case Text(s) => s
    case Int(i) => IntToString(i)
    case Float(_, r) => r
    case Bytes(b) => BytesRepr(b)
    case Names(ns) => ListRepr(ns)
  }

  /** One cell of a numeric or textual table handed to numpy. */
  datatype Cell = Num(x: real) | NaN | Txt(s: string) | Whole(i: int)

  type Table = seq<seq<Cell>>

  /** The keys the core stores in its `meta_data` dictionaries. */
  datatype MetaKey =
    | TableKey | IdKey | DeviceKey | UserKey | TaskKey | BlockKey | TreatmentKey
    | TimeIsoKey | TimeKey | HashKey | ColumnsKey | RatingKey | DataKey

  /** The key's text in the Python source. */
  function KeyName(k: MetaKey): string
  {
    match k
    case TableKey => "table"
    case IdKey => "id"
    case DeviceKey => "device"
    case UserKey => "user"
    case TaskKey => "task"
    case BlockKey => "block"
    case TreatmentKey => "treatment"
    case TimeIsoKey => "time_iso"
    case TimeKey => "time"
    case HashKey => "hash"
    case ColumnsKey => "columns"
    case RatingKey => "rating"
    case DataKey => "data"
  }

  /** Distinct keys have distinct texts, so a dict keyed by `MetaKey` is a dict
      keyed by the texts. */
  lemma KeyNameInjective(k: MetaKey, k': MetaKey)
    ensures KeyName(k) == KeyName(k') <==> k == k'
  {
  }

  /** A Python dict: its keys in insertion order, and what each key maps to. */
  datatype Dict = Dict(keys: seq<MetaKey>, entries: map<MetaKey, Value>)

  /** `{}` */
  const EmptyDict: Dict := Dict([], map[])

  /** The keys are listed once each, and exactly the keys with an entry are listed. */
  ghost predicate WellFormed(d: Dict)
  {
    (forall i, j :: 0 <= i < j < |d.keys| ==> d.keys[i] != d.keys[j])
    && (forall k :: k in d.entries <==> k in d.keys)
  }

  /** `k in d` */
  predicate HasKey(d: Dict, k: MetaKey)
  {
    k in d.entries
  }

  /** `d[k]`, with a missing key (Python's KeyError) as None. */
  function Get(d: Dict, k: MetaKey): Option<Value>
  {
    if k in d.entries then Some(d.entries[k]) else None
  }

  /** `d[k]` where the entry is known to exist. */
  function Entry(d: Dict, k: MetaKey): Value
  {
    Get(d, k).GetOr(Text(""))
  }

  /** The key order after `d[k] = v`: an existing key keeps its position, a
      new key goes last. */
  function AddKey(ks: seq<MetaKey>, k: MetaKey): seq<MetaKey>
  {
    if |ks| == 0 then [k]
    else if ks[0] == k then ks
    else [ks[0]] + AddKey(ks[1..], k)
  }

  lemma {:induction false} AddKeyOrder(ks: seq<MetaKey>, k: MetaKey)
    ensures AddKey(ks, k) == if k in ks then ks else ks + [k]
  {
    if |ks| > 0 && ks[0] != k {
      AddKeyOrder(ks[1..], k);
      assert ks == [ks[0]] + ks[1..];
    }
  }

  /** `d[k] = v` */
  function Put(d: Dict, k: MetaKey, v: Value): Dict
  {
    Dict(AddKey(d.keys, k), d.entries[k := v])
  }

  /** After `d[k] = v`, `d[k]` is `v` and every other key reads as before
      (AddKeyOrder gives the order of the keys). */
  lemma PutGets(d: Dict, k: MetaKey, v: Value)
    ensures Get(Put(d, k, v), k) == Some(v)
    ensures forall k' :: k' != k ==> Get(Put(d, k, v), k') == Get(d, k')
  {
  }

  /** `d[k] = v` keeps a dict well formed. */
  lemma PutWellFormed(d: Dict, k: MetaKey, v: Value)
    requires WellFormed(d)
    ensures WellFormed(Put(d, k, v))
  {
    AddKeyOrder(d.keys, k);
    var r := Put(d, k, v);
    if !HasKey(d, k) {
      assert forall i :: 0 <= i < |d.keys| ==> d.keys[i] in d.entries;
      assert forall i :: 0 <= i < |d.keys| ==> r.keys[i] == d.keys[i];
    }
  }

  /** `d[k] = v` for each pair in turn. */
  function PutAll(d: Dict, es: seq<(MetaKey, Value)>): (m: Dict)
    decreases |es|
  {
    if |es| == 0 then d else Put(PutAll(d, es[..|es| - 1]), es[|es| - 1].0, es[|es| - 1].1)
  }

  /** The value the last pair with key `k` assigns, if any. */
  function Assigned(es: seq<(MetaKey, Value)>, k: MetaKey): (v: Option<Value>)
    ensures v.None? <==> forall i :: 0 <= i < |es| ==> es[i].0 != k
    decreases |es|
  {
    if |es| == 0 then None
    else if es[|es| - 1].0 == k then Some(es[|es| - 1].1)
    else Assigned(es[..|es| - 1], k)
  }

  /** After the assignments a key reads as the last value assigned to it, and
      a key never assigned reads as before. */
  lemma {:induction false} PutAllGets(d: Dict, es: seq<(MetaKey, Value)>, k: MetaKey)
    ensures Get(PutAll(d, es), k) == if Assigned(es, k).Some? then Assigned(es, k) else Get(d, k)
    decreases |es|
  {
    if |es| > 0 {
      PutAllGets(d, es[..|es| - 1], k);
      PutGets(PutAll(d, es[..|es| - 1]), es[|es| - 1].0, es[|es| - 1].1);
    }
  }

  /** A pair whose key no later pair assigns again decides that key. */
  lemma {:induction false} AssignedLast(es: seq<(MetaKey, Value)>, i: int)
    requires 0 <= i < |es|
    requires forall j :: i < j < |es| ==> es[j].0 != es[i].0
    ensures Assigned(es, es[i].0) == Some(es[i].1)
    decreases |es|
  {
    if i < |es| - 1 {
      AssignedLast(es[..|es| - 1], i);
    }
  }

  /** The assignments keep a dict well formed. */
  lemma {:induction false} PutAllWellFormed(d: Dict, es: seq<(MetaKey, Value)>)
    requires WellFormed(d)
    ensures WellFormed(PutAll(d, es))
    decreases |es|
  {
    if |es| > 0 {
      PutAllWellFormed(d, es[..|es| - 1]);
      PutWellFormed(PutAll(d, es[..|es| - 1]), es[|es| - 1].0, es[|es| - 1].1);
    }
  }
}
