/** Values shared by the whole model: optional and fallible results, the
    dynamically typed values that flow through the control surface, Python
    exceptions, and the outcome of calling an uninterpreted handler. */
module Values {

  datatype Option<+T> = None | Some(value: T)

  datatype Result<+T, +E> = Success(value: T) | Failure(error: E)

  /** A value as it appears in a control payload. `Null` is Python's None.
      A `Dict` lists its entries in insertion order, as a Python dict
      iterates them; `DotDictValue` is the same contents wrapped in the
      attribute-access dictionary of home_led_matrix/utils.py. */
  datatype Value =
    | Null
    | Bool(b: bool)
    | Int(i: int)
    | Str(s: string)
    | List(items: seq<Value>)
    | Dict(entries: seq<(string, Value)>)
    | DotDictValue(entries: seq<(string, Value)>)

  /** The exception classes the core raises or catches by name. */
  datatype ErrorKind =
    | KeyError
    | TypeError
    | AttributeError
    | ValueError
    | NotImplementedError
    | UnboundLocalError
    | NoHandlerError
    | MissingAppError
    | OtherError(name: string)

  /** A raised exception: its class and `str(e)`. */
  datatype PyError = PyError(kind: ErrorKind, message: string)

  /** What a call of an uninterpreted handler does: return a value or raise. */
  datatype Outcome = Returned(value: Value) | Raised(error: PyError)

  /** The entries of a dict (plain or attribute-access); None for any other value,
      on which `.items()` and `.keys()` raise AttributeError. */
  function DictEntries(v: Value): (r: Option<seq<(string, Value)>>)
    ensures r.Some? <==> (v.Dict? || v.DotDictValue?)
  {
    match v
    case Dict(e) => Some(e)
    case DotDictValue(e) => Some(e)
    case _ => None
  }

  /** The keys of an ordered dict, in iteration order. */
  function Keys<V>(d: seq<(string, V)>): (ks: seq<string>)
    ensures |ks| == |d|
    ensures forall i :: 0 <= i < |d| ==> ks[i] == d[i].0
  {
    if d == [] then [] else [d[0].0] + Keys(d[1..])
  }

  /** `k in d` for an ordered dict. */
  predicate HasKey<V>(d: seq<(string, V)>, k: string) {
    exists i :: 0 <= i < |d| && d[i].0 == k
  }

  /** `d.get(k)`: the value stored under `k`, or None. */
  function Lookup<V>(d: seq<(string, V)>, k: string): Option<V> {
    if d == [] then None
    else if d[0].0 == k then Some(d[0].1)
    else Lookup(d[1..], k)
  }

  /** Python's `d[k] = v`: an existing key keeps its position and takes the
      new value, a new key is appended at the end. */
  function DictSet<V>(d: seq<(string, V)>, k: string, v: V): seq<(string, V)> {
    if d == [] then [(k, v)]
    else if d[0].0 == k then [(k, v)] + d[1..]
    else [d[0]] + DictSet(d[1..], k, v)
  }

  /** No key occurs twice: true of every dict. */
  predicate DistinctKeys<V>(d: seq<(string, V)>) {
    forall i, j :: 0 <= i < j < |d| ==> d[i].0 != d[j].0
  }

  lemma {:induction false} LookupFindsKey<V>(d: seq<(string, V)>, k: string)
    ensures Lookup(d, k).Some? <==> HasKey(d, k)
  {
    if d != [] {
      LookupFindsKey(d[1..], k);
      if d[0].0 != k && HasKey(d, k) {
        var i :| 0 <= i < |d| && d[i].0 == k;
        assert d[1..][i - 1].0 == k;
      }
    }
  }

  /** After `d[k] = v`, `k` reads `v` and every other key reads what it did. */
  lemma {:induction false} DictSetLookup<V>(d: seq<(string, V)>, k: string, v: V, k': string)
    ensures Lookup(DictSet(d, k, v), k') == if k' == k then Some(v) else Lookup(d, k')
  {
    if d != [] && d[0].0 != k {
      DictSetLookup(d[1..], k, v, k');
    }
  }

  lemma HasKeyTail<V>(d: seq<(string, V)>, k: string)
    requires d != []
    ensures HasKey(d, k) <==> d[0].0 == k || HasKey(d[1..], k)
  {
    if HasKey(d[1..], k) {
      var i :| 0 <= i < |d[1..]| && d[1..][i].0 == k;
      assert d[i + 1].0 == k;
    }
    if HasKey(d, k) && d[0].0 != k {
      var i :| 0 <= i < |d| && d[i].0 == k;
      assert d[1..][i - 1].0 == k;
    }
  }

  /** `d[k] = v` keeps the order of the existing keys and appends `k` only when
      it is new. */
  lemma {:induction false} DictSetKeys<V>(d: seq<(string, V)>, k: string, v: V)
    ensures Keys(DictSet(d, k, v)) == if HasKey(d, k) then Keys(d) else Keys(d) + [k]
  {
    if d == [] {
      assert !HasKey(d, k);
    } else {
      HasKeyTail(d, k);
      if d[0].0 == k {
        assert DictSet(d, k, v) == [(k, v)] + d[1..];
        assert Keys([(k, v)] + d[1..]) == [k] + Keys(d[1..]);
      } else {
        DictSetKeys(d[1..], k, v);
        var t := DictSet(d[1..], k, v);
        assert DictSet(d, k, v) == [d[0]] + t;
        assert Keys([d[0]] + t) == [d[0].0] + Keys(t);
        assert Keys(d) == [d[0].0] + Keys(d[1..]);
      }
    }
  }

  /** `d[k] = v` keeps a dict free of repeated keys. */
  lemma {:induction false} DictSetDistinct<V>(d: seq<(string, V)>, k: string, v: V)
    requires DistinctKeys(d)
    ensures DistinctKeys(DictSet(d, k, v))
  {
    DictSetKeys(d, k, v);
    var r := DictSet(d, k, v);
    var kd, kr := Keys(d), Keys(r);
    if HasKey(d, k) {
      assert kr == kd;
    } else {
      assert kr == kd + [k];
      forall i | 0 <= i < |d| ensures d[i].0 != k {
      }
    }
    forall i, j | 0 <= i < j < |r| ensures r[i].0 != r[j].0 {
      assert kr[i] == r[i].0 && kr[j] == r[j].0;
    }
  }
}
