/** The helpers of home_led_matrix/utils.py: a dictionary whose keys can be
    read, written and deleted as attributes, and a metaclass that makes a
    class construct at most one instance. */
module Utils {
  import opened Values

  /** `DotDict(v)` for a dict value `v` (a DotDict is a dict too, and is
      copied): the same entries, now attribute-accessible. Only the value
      itself is wrapped; dicts nested inside it are left as they are. */
  function Wrap(v: Value): (w: Value)
    ensures v.Dict? || v.DotDictValue? ==> w == DotDictValue(v.entries)
    ensures !v.Dict? && !v.DotDictValue? ==> w == v
  {
    match v
    case Dict(e) => DotDictValue(e)
    case DotDictValue(e) => DotDictValue(e)
    case _ => v
  }

  /** The contents after `read_dict(other)`. */
  function ReadInto(items: map<string, Value>, other: map<string, Value>): map<string, Value> {
    items + map k | k in other :: Wrap(other[k])
  }

  /** After `read_dict(other)` every key of `other` holds its value (a dict
      wrapped one level deep), and every other key is as it was. */
  lemma ReadIntoEntries(items: map<string, Value>, other: map<string, Value>, k: string)
    ensures k in other ==> k in ReadInto(items, other) && ReadInto(items, other)[k] == Wrap(other[k])
    ensures k !in other ==> (k in ReadInto(items, other) <==> k in items)
    ensures k !in other && k in items ==> ReadInto(items, other)[k] == items[k]
  {
  }

  class DotDict {
    var items: map<string, Value>

    constructor ()
      ensures items == map[]
    {
      items := map[];
    }

    /** `__getattr__(attr)`, which Python consults only when ordinary attribute
        lookup finds nothing (so not for names the class defines, such as
        `keys` or `read_dict`): the value under key `attr`, or AttributeError. */
    method GetAttr(attr: string) returns (r: Result<Value, PyError>)
      ensures attr in items ==> r == Success(items[attr])
      ensures attr !in items ==> r == Failure(PyError(AttributeError, ""))
    {
      if attr in items {
        r := Success(items[attr]);
      } else {
        r := Failure(PyError(AttributeError, ""));
      }
    }

    /** `d[key] = value`. */
    method SetItem(key: string, value: Value)
      modifies this
      ensures items == old(items)[key := value]
    {
      items := items[key := value];
    }

    /** `d.attr = value` is `d[attr] = value`. */
    method SetAttr(attr: string, value: Value)
      modifies this
      ensures items == old(items)[attr := value]
    {
      SetItem(attr, value);
    }

    /** `del d.attr`: removes the key, or raises AttributeError and changes nothing. */
    method DelAttr(attr: string) returns (r: Result<(), PyError>)
      modifies this
      ensures attr in old(items) ==> r == Success(()) && items == old(items) - {attr}
      ensures attr !in old(items) ==> r == Failure(PyError(AttributeError, "")) && items == old(items)
    {
      if attr in items {
        items := items - {attr};
        r := Success(());
      } else {
        r := Failure(PyError(AttributeError, ""));
      }
    }

    method ReadDict(other: map<string, Value>)
      modifies this
      ensures items == ReadInto(old(items), other)
    {
      var rest := other.Keys;
      while rest != {}
        invariant rest <= other.Keys
        invariant items == old(items) + map k | k in other && k !in rest :: Wrap(other[k])
        decreases rest
      {
        var k :| k in rest;
        var v := other[k];
        if v.Dict? {
          v := DotDictValue(v.entries);
        }
        ghost var done := map k' | k' in other && k' !in rest :: Wrap(other[k']);
        assert (map k' | k' in other && k' !in rest - {k} :: Wrap(other[k'])) == done[k := v];
        items := items[k := v];
        rest := rest - {k};
      }
      assert (map k | k in other && k !in rest :: Wrap(other[k])) == map k | k in other :: Wrap(other[k]);
    }
  }

  /** An object constructed through the metaclass: its class and the
      positional and keyword arguments its constructor received. */
  class Instance {
    const cls: string
    const args: seq<Value>
    const kwargs: map<string, Value>

    constructor (cls: string, args: seq<Value>, kwargs: map<string, Value>)
      ensures this.cls == cls && this.args == args && this.kwargs == kwargs
    {
      this.cls := cls;
      this.args := args;
      this.kwargs := kwargs;
    }
  }

  /** The class-level `_instances` table shared by every class using the metaclass. */
  class SingletonMeta {
    var instances: map<string, Instance>

    constructor ()
      ensures instances == map[]
    {
      instances := map[];
    }

    /** `cls(*args, **kwargs)`: the first call constructs and caches an
        instance; every later call returns the cached one and ignores its
        arguments. */
    method Call(cls: string, args: seq<Value>, kwargs: map<string, Value>) returns (instance: Instance)
      modifies this
      ensures cls in old(instances) ==> instance == old(instances)[cls] && instances == old(instances)
      ensures cls !in old(instances) ==>
        && fresh(instance) && instance.cls == cls && instance.args == args && instance.kwargs == kwargs
        && instances == old(instances)[cls := instance]
    {
      if cls !in instances {
        var created := new Instance(cls, args, kwargs);
        instances := instances[cls := created];
      }
      instance := instances[cls];
    }
  }
}
