/** The legacy unix-socket dispatcher `MsgHandler` of home_led_matrix/socket_conn.py:
    a get/set dispatcher over two attribute-access dicts of handlers, answering
    a decoded JSON payload such as `{"set": {...}, "get": {...}}`.

    `handle_msg` is modelled statement by statement, including the local
    variables its loops share (`key`, `get_key`, `get_value`, `message`,
    `tasks`), because its observable behaviour depends on them: a payload
    without `"get"` gets no reply, a specific-key get keeps only the last key,
    and a local read before it is bound raises UnboundLocalError.

    Handlers are uninterpreted; a setter's outcome is what its task ends with,
    a getter's outcome is its awaited value. */
module SocketConn {
  import opened Values

  /** A setter, called with the value to set. */
  type Setter = Value -> Outcome

  /** A getter may be called with the requested value or with no argument. */
  datatype Getter = Getter(withArg: Value -> Outcome, noArg: () -> Outcome)

  /** A call `default_handler(meth_type, key, value)`. */
  datatype DefaultCall = DefaultCall(methType: string, key: string, value: Value)

  /** A task created for a setter call, with the outcome it ends with. */
  datatype Launch = Launch(key: string, value: Value, outcome: Outcome)

  /** The registries, and whether a `default_handler` is installed. */
  datatype Handlers = Handlers(setters: map<string, Setter>, getters: seq<(string, Getter)>, hasDefault: bool)

  /** The local state of one `handle_msg` call. `replied` is false while
      `message` is still None; an unbound local is None. */
  datatype Locals = Locals(
    keyBound: bool,
    tasks: seq<Launch>,
    defaultCalls: seq<DefaultCall>,
    replied: bool,
    message: seq<(string, Value)>,
    getKey: Option<string>,
    getValue: Option<Value>,
    failure: Option<PyError>)

  const Start := Locals(false, [], [], false, [], None, None, None)

  /** What `handle_msg` did: the setter tasks it created, the default-handler
      calls it made, and what it returned or raised. */
  datatype Handled = Handled(
    tasks: seq<Launch>,
    defaultCalls: seq<DefaultCall>,
    result: Result<Option<seq<(string, Value)>>, PyError>)

  function TypeName(v: Value): string {
    match v
    case Null => "NoneType"
    case Bool(_) => "bool"
    case Int(_) => "int"
    case Str(_) => "str"
    case List(_) => "list"
    case Dict(_) => "dict"
    case DotDictValue(_) => "DotDict"
  }

  /** The error of `v.items()` or `v.keys()` on a value that is not a dict. */
  function NoAttribute(v: Value, attr: string): PyError {
    PyError(AttributeError, "'" + TypeName(v) + "' object has no attribute '" + attr + "'")
  }

  /** The error of reading the local `name` before it is bound. */
  function Unbound(name: string): PyError {
    PyError(UnboundLocalError, "cannot access local variable '" + name + "' where it is not associated with a value")
  }

  // ---------------------------------------------------------------------------
  // The 'set' branch

  /** One iteration of the 'set' loop: bind `key`; launch the setter, or call
      the default handler, or only log. */
  function SetEntry(h: Handlers, entry: (string, Value), st: Locals): Locals {
    var key, value := entry.0, entry.1;
    if key in h.setters then
      st.(keyBound := true, tasks := st.tasks + [Launch(key, value, h.setters[key](value))])
    else if h.hasDefault then
      st.(keyBound := true, defaultCalls := st.defaultCalls + [DefaultCall("set", key, value)])
    else
      st.(keyBound := true)
  }

  /** The 'set' loop over `entries`; it never raises, and it touches neither
      the reply nor the get locals. */
  function SetEntries(h: Handlers, entries: seq<(string, Value)>, st: Locals): (r: Locals)
    ensures r.replied == st.replied && r.message == st.message
    ensures r.getKey == st.getKey && r.getValue == st.getValue && r.failure == st.failure
    decreases |entries|
  {
    if entries == [] then st
    else SetEntry(h, entries[|entries| - 1], SetEntries(h, entries[..|entries| - 1], st))
  }

  /** `asyncio.gather(*tasks)`: the error of the first task that raises, if any. */
  function FirstRaised(tasks: seq<Launch>): (e: Option<PyError>)
    ensures e.None? <==> forall i :: 0 <= i < |tasks| ==> tasks[i].outcome.Returned?
    ensures e.Some? ==>
      exists i :: (0 <= i < |tasks| && tasks[i].outcome == Raised(e.value) &&
        forall j :: 0 <= j < i ==> tasks[j].outcome.Returned?)
  {
    if tasks == [] then None
    else if tasks[0].outcome.Raised? then Some(tasks[0].outcome.error)
    else
      var rest := FirstRaised(tasks[1..]);
      assert forall i :: 1 <= i < |tasks| ==> tasks[i] == tasks[1..][i - 1];
      rest
  }

  function SetBranch(h: Handlers, msgs: Value, st: Locals): Locals {
    match DictEntries(msgs)
    case None => st.(failure := Some(NoAttribute(msgs, "items")))
    case Some(entries) =>
      var after := SetEntries(h, entries, st);
      after.(failure := FirstRaised(after.tasks))
  }

  // ---------------------------------------------------------------------------
  // The 'get' branch

  /** The `except` path of a get whose getter is missing or failed: call the
      default handler (leaving `get_value` as it was), or set `get_value` to
      None and log a line that reads `key`. */
  function GetFallback(h: Handlers, getKey: string, val: Value, st: Locals): Locals {
    if h.hasDefault then st.(defaultCalls := st.defaultCalls + [DefaultCall("get", getKey, val)])
    else if st.keyBound then st.(getValue := Some(Null))
    else st.(getValue := Some(Null), failure := Some(Unbound("key")))
  }

  /** `message[get_key] = get_value`; the right-hand side is read first. */
  function Store(st: Locals): Locals {
    if st.failure.Some? then st
    else if st.getValue.None? then st.(failure := Some(Unbound("get_value")))
    else if st.getKey.None? then st.(failure := Some(Unbound("get_key")))
    else st.(message := DictSet(st.message, st.getKey.value, st.getValue.value))
  }

  /** The value the 'all' loop stores for a getter when no default handler is
      installed and the loop does not raise. */
  function AllValue(g: Getter): Value {
    if g.noArg().Returned? then g.noArg().value else Null
  }

  /** One iteration of the loop over every registered getter ('all'). */
  function AllEntry(h: Handlers, entry: (string, Getter), st: Locals): Locals {
    if st.failure.Some? then st
    else
      var st1 := st.(getKey := Some(entry.0));
      var st2 :=
        match entry.1.noArg()
        case Returned(v) => st1.(getValue := Some(v))
        case Raised(e) =>
          if e.kind == KeyError || e.kind == TypeError then GetFallback(h, entry.0, Null, st1)
          else st1.(failure := Some(e));
      Store(st2)
  }

  function AllEntries(h: Handlers, getters: seq<(string, Getter)>, st: Locals): (r: Locals)
    ensures r.keyBound == st.keyBound && r.tasks == st.tasks && r.replied == st.replied
    ensures st.failure.Some? ==> r == st
    decreases |getters|
  {
    if getters == [] then st
    else AllEntry(h, getters[|getters| - 1], AllEntries(h, getters[..|getters| - 1], st))
  }

  /** One iteration of the loop over the requested keys: call the getter with
      the requested value, and again without it if that raises TypeError. The
      value is not stored here. */
  function KeyedEntry(h: Handlers, entry: (string, Value), st: Locals): Locals {
    if st.failure.Some? then st
    else
      var getKey, val := entry.0, entry.1;
      var st1 := st.(getKey := Some(getKey));
      match Lookup(h.getters, getKey)
      case None => GetFallback(h, getKey, val, st1)
      case Some(g) =>
        match g.withArg(val)
        case Returned(v) => st1.(getValue := Some(v))
        case Raised(e) =>
          if e.kind == TypeError then
            match g.noArg()
            case Returned(v) => st1.(getValue := Some(v))
            case Raised(e2) => st1.(failure := Some(e2))
          else if e.kind == KeyError then GetFallback(h, getKey, val, st1)
          else st1.(failure := Some(e))
  }

  function KeyedEntries(h: Handlers, entries: seq<(string, Value)>, st: Locals): (r: Locals)
    ensures r.keyBound == st.keyBound && r.tasks == st.tasks && r.replied == st.replied
    ensures r.message == st.message
    ensures st.failure.Some? ==> r == st
    ensures entries != [] && r.failure.None? ==> r.getKey == Some(entries[|entries| - 1].0)
    decreases |entries|
  {
    if entries == [] then st
    else KeyedEntry(h, entries[|entries| - 1], KeyedEntries(h, entries[..|entries| - 1], st))
  }

  /** The value a specific-key get stores for `entry` when no default handler
      is installed and the iteration does not raise: the getter's value for the
      requested value; after a TypeError, its value when called with no
      argument; None when the key has no getter or the getter raises KeyError. */
  function KeyedValue(h: Handlers, entry: (string, Value)): Value {
    match Lookup(h.getters, entry.0)
    case None => Null
    case Some(g) =>
      match g.withArg(entry.1)
      case Returned(v) => v
      case Raised(e) => if e.kind == TypeError && g.noArg().Returned? then g.noArg().value else Null
  }

  /** A requested key that takes the `except KeyError` path: it has no getter,
      or its getter raises KeyError. */
  predicate Unanswered(h: Handlers, entry: (string, Value)) {
    match Lookup(h.getters, entry.0)
    case None => true
    case Some(g) => g.withArg(entry.1).Raised? && g.withArg(entry.1).error.kind == KeyError
  }

  function GetBranch(h: Handlers, msgs: Value, st: Locals): Locals {
    match DictEntries(msgs)
    case None => st.(failure := Some(NoAttribute(msgs, "keys")))
    case Some(entries) =>
      var st1 := st.(replied := true, message := []);
      if HasKey(entries, "all") then AllEntries(h, h.getters, st1)
      else Store(KeyedEntries(h, entries, st1))
  }

  // ---------------------------------------------------------------------------
  // The whole of handle_msg

  /** One entry of the payload: 'set' and 'get' are handled, any other key is
      ignored. */
  function PayloadEntry(h: Handlers, entry: (string, Value), st: Locals): Locals {
    if st.failure.Some? then st
    else if entry.0 == "set" then SetBranch(h, entry.1, st)
    else if entry.0 == "get" then GetBranch(h, entry.1, st)
    else st
  }

  function PayloadEntries(h: Handlers, entries: seq<(string, Value)>, st: Locals): (r: Locals)
    ensures st.failure.Some? ==> r == st
    decreases |entries|
  {
    if entries == [] then st
    else PayloadEntry(h, entries[|entries| - 1], PayloadEntries(h, entries[..|entries| - 1], st))
  }

  function Finish(st: Locals): Handled {
    Handled(st.tasks, st.defaultCalls,
      if st.failure.Some? then Failure(st.failure.value)
      else Success(if st.replied then Some(st.message) else None))
  }

  function Handle(h: Handlers, payload: Value): Handled {
    match DictEntries(payload)
    case None => Handled([], [], Failure(NoAttribute(payload, "items")))
    case Some(entries) => Finish(PayloadEntries(h, entries, Start))
  }

  // ---------------------------------------------------------------------------
  // send_update

  /** The local state of one `send_update` call: the message built so far, the
      keys reported to `_default_handler`, and an exception that ended it. */
  datatype Sent = Sent(message: seq<(string, Value)>, unhandled: seq<string>, failure: Option<PyError>)

  function UpdateStep(getters: seq<(string, Getter)>, key: string, s: Sent): Sent {
    if s.failure.Some? then s
    else
      match Lookup(getters, key)
      case None => s.(unhandled := s.unhandled + [key])
      case Some(g) =>
        match g.noArg()
        case Returned(v) => s.(message := DictSet(s.message, key, v))
        case Raised(e) =>
          if e.kind == KeyError then s.(unhandled := s.unhandled + [key])
          else s.(failure := Some(e))
  }

  function Update(getters: seq<(string, Getter)>, keys: seq<string>): Sent
    decreases |keys|
  {
    if keys == [] then Sent([], [], None)
    else UpdateStep(getters, keys[|keys| - 1], Update(getters, keys[..|keys| - 1]))
  }

  /** The value `send_update` reports for a key: the getter's value, or nothing
      when the key has no getter or its getter raises. */
  function Reported(getters: seq<(string, Getter)>, key: string): Option<Value> {
    match Lookup(getters, key)
    case None => None
    case Some(g) => if g.noArg().Returned? then Some(g.noArg().value) else None
  }

  /** A key whose getter raises something other than KeyError ends `send_update`. */
  predicate Fatal(getters: seq<(string, Getter)>, key: string) {
    match Lookup(getters, key)
    case None => false
    case Some(g) => g.noArg().Raised? && g.noArg().error.kind != KeyError
  }

  // ---------------------------------------------------------------------------
  // Lemmas

  lemma HasKeyLast<V>(d: seq<(string, V)>, k: string)
    requires d != []
    ensures HasKey(d, k) <==> HasKey(d[..|d| - 1], k) || d[|d| - 1].0 == k
  {
    var p := d[..|d| - 1];
    if HasKey(p, k) {
      var i :| 0 <= i < |p| && p[i].0 == k;
      assert d[i].0 == k;
    }
    if HasKey(d, k) && d[|d| - 1].0 != k {
      var i :| 0 <= i < |d| && d[i].0 == k;
      assert p[i].0 == k;
    }
  }

  lemma HasKeyKeys<V>(d: seq<(string, V)>, k: string)
    ensures HasKey(d, k) <==> k in Keys(d)
  {
    var ks := Keys(d);
    if k in ks {
      var i :| 0 <= i < |ks| && ks[i] == k;
      assert d[i].0 == k;
    }
  }

  /** Once a loop of handle_msg has raised, the remaining iterations do not run. */
  lemma {:induction false} PayloadEntriesStop(h: Handlers, entries: seq<(string, Value)>, i: nat, st: Locals)
    requires i <= |entries|
    requires PayloadEntries(h, entries[..i], st).failure.Some?
    ensures PayloadEntries(h, entries, st) == PayloadEntries(h, entries[..i], st)
    decreases |entries|
  {
    if i == |entries| {
      assert entries[..i] == entries;
    } else {
      var p := entries[..|entries| - 1];
      assert p[..i] == entries[..i];
      PayloadEntriesStop(h, p, i, st);
    }
  }

  lemma {:induction false} AllEntriesStop(h: Handlers, getters: seq<(string, Getter)>, i: nat, st: Locals)
    requires i <= |getters|
    requires AllEntries(h, getters[..i], st).failure.Some?
    ensures AllEntries(h, getters, st) == AllEntries(h, getters[..i], st)
    decreases |getters|
  {
    if i == |getters| {
      assert getters[..i] == getters;
    } else {
      var p := getters[..|getters| - 1];
      assert p[..i] == getters[..i];
      AllEntriesStop(h, p, i, st);
    }
  }

  lemma {:induction false} KeyedEntriesStop(h: Handlers, entries: seq<(string, Value)>, i: nat, st: Locals)
    requires i <= |entries|
    requires KeyedEntries(h, entries[..i], st).failure.Some?
    ensures KeyedEntries(h, entries, st) == KeyedEntries(h, entries[..i], st)
    decreases |entries|
  {
    if i == |entries| {
      assert entries[..i] == entries;
    } else {
      var p := entries[..|entries| - 1];
      assert p[..i] == entries[..i];
      KeyedEntriesStop(h, p, i, st);
    }
  }

  lemma {:induction false} UpdateStop(getters: seq<(string, Getter)>, keys: seq<string>, i: nat)
    requires i <= |keys|
    requires Update(getters, keys[..i]).failure.Some?
    ensures Update(getters, keys) == Update(getters, keys[..i])
    decreases |keys|
  {
    if i == |keys| {
      assert keys[..i] == keys;
    } else {
      var p := keys[..|keys| - 1];
      assert p[..i] == keys[..i];
      UpdateStop(getters, p, i);
    }
  }

  /** When no loop raised, a reply exists exactly when some payload entry is 'get'. */
  lemma {:induction false} PayloadReplied(h: Handlers, entries: seq<(string, Value)>, st: Locals)
    ensures var r := PayloadEntries(h, entries, st);
      r.failure.None? ==> (r.replied <==> st.replied || HasKey(entries, "get"))
    decreases |entries|
  {
    if entries != [] {
      var p := entries[..|entries| - 1];
      PayloadReplied(h, p, st);
      HasKeyLast(entries, "get");
    }
  }

  /** `handle_msg` returns None exactly when it does not raise and the payload
      has no 'get' entry; with a 'get' entry it returns a dict. */
  lemma ReplyIffGet(h: Handlers, payload: Value)
    ensures var out := Handle(h, payload);
      out.result.Success? ==>
        && DictEntries(payload).Some?
        && (out.result.value.Some? <==> HasKey(DictEntries(payload).value, "get"))
  {
    if DictEntries(payload).Some? {
      PayloadReplied(h, DictEntries(payload).value, Start);
    }
  }

  /** The 'set' loop launches a task for every entry that has a setter and for
      no other, calls the default handler for every other entry when one is
      installed and for no entry with a setter, and binds `key` as soon as one
      entry is seen. */
  lemma {:induction false} SetEntriesLaunch(h: Handlers, entries: seq<(string, Value)>, st: Locals)
    ensures var r := SetEntries(h, entries, st);
      && (forall t :: t in r.tasks ==>
            t in st.tasks || ((t.key, t.value) in entries && t.key in h.setters && t.outcome == h.setters[t.key](t.value)))
      && (forall i :: 0 <= i < |entries| && entries[i].0 in h.setters ==>
            Launch(entries[i].0, entries[i].1, h.setters[entries[i].0](entries[i].1)) in r.tasks)
      && (forall i :: 0 <= i < |entries| && entries[i].0 !in h.setters && h.hasDefault ==>
            DefaultCall("set", entries[i].0, entries[i].1) in r.defaultCalls)
      && (forall c :: c in r.defaultCalls ==>
            c in st.defaultCalls || (c.methType == "set" && (c.key, c.value) in entries && c.key !in h.setters))
      && (!h.hasDefault ==> r.defaultCalls == st.defaultCalls)
      && (entries != [] ==> r.keyBound)
    decreases |entries|
  {
    if entries != [] {
      var p := entries[..|entries| - 1];
      SetEntriesLaunch(h, p, st);
      assert forall i :: 0 <= i < |p| ==> entries[i] == p[i];
      assert forall e :: e in p ==> e in entries;
    }
  }

  /** A key of the 'set' payload whose setter exists and raises. */
  predicate SetterRaises(h: Handlers, entry: (string, Value)) {
    entry.0 in h.setters && h.setters[entry.0](entry.1).Raised?
  }

  /** A task of the 'set' loop that raises comes from an entry whose setter raises. */
  lemma RaisedTaskFromEntry(h: Handlers, entries: seq<(string, Value)>, st: Locals, j: nat)
    requires forall t :: t in st.tasks ==> t.outcome.Returned?
    requires var r := SetEntries(h, entries, st); j < |r.tasks| && r.tasks[j].outcome.Raised?
    ensures exists i :: 0 <= i < |entries| && SetterRaises(h, entries[i])
  {
    var r := SetEntries(h, entries, st);
    SetEntriesLaunch(h, entries, st);
    var t := r.tasks[j];
    assert t in r.tasks;
    assert t !in st.tasks;
    var i :| 0 <= i < |entries| && entries[i] == (t.key, t.value);
    assert SetterRaises(h, entries[i]);
  }

  /** An entry whose setter raises launches a task that raises. */
  lemma EntryGivesRaisedTask(h: Handlers, entries: seq<(string, Value)>, st: Locals, i: nat)
    requires i < |entries| && SetterRaises(h, entries[i])
    ensures var r := SetEntries(h, entries, st);
      exists j :: 0 <= j < |r.tasks| && r.tasks[j].outcome.Raised?
  {
    var r := SetEntries(h, entries, st);
    SetEntriesLaunch(h, entries, st);
    var t := Launch(entries[i].0, entries[i].1, h.setters[entries[i].0](entries[i].1));
    assert t in r.tasks;
    var j :| 0 <= j < |r.tasks| && r.tasks[j] == t;
    assert r.tasks[j].outcome.Raised?;
  }

  /** A 'set' whose payload is a dict raises only when a launched setter's task
      raises, and then with the error of the first such task; a key without a
      setter never makes it raise. */
  lemma SetBranchRaises(h: Handlers, entries: seq<(string, Value)>, st: Locals)
    requires st.failure.None?
    requires forall t :: t in st.tasks ==> t.outcome.Returned?
    ensures var r := SetBranch(h, Dict(entries), st);
      && r.tasks == SetEntries(h, entries, st).tasks
      && r.replied == st.replied && r.message == st.message
      && (r.failure.Some? <==> exists i :: 0 <= i < |entries| && SetterRaises(h, entries[i]))
  {
    var r := SetEntries(h, entries, st);
    if FirstRaised(r.tasks).Some? {
      var j :| 0 <= j < |r.tasks| && r.tasks[j].outcome.Raised?;
      RaisedTaskFromEntry(h, entries, st, j);
    }
    if exists i :: 0 <= i < |entries| && SetterRaises(h, entries[i]) {
      var i :| 0 <= i < |entries| && SetterRaises(h, entries[i]);
      EntryGivesRaisedTask(h, entries, st, i);
    }
  }

  /** An iteration of the 'all' loop that does not raise stores its key. */
  lemma AllEntryStores(h: Handlers, entry: (string, Getter), st: Locals)
    requires st.failure.None?
    ensures var r := AllEntry(h, entry, st);
      && (r.failure.None? ==> r.getValue.Some? && r.message == DictSet(st.message, entry.0, r.getValue.value))
      && (r.failure.None? && !h.hasDefault ==> r.getValue == Some(AllValue(entry.1)))
  {
  }

  lemma KeysLast<V>(d: seq<(string, V)>)
    requires d != []
    ensures Keys(d) == Keys(d[..|d| - 1]) + [d[|d| - 1].0]
  {
    var ks, kp := Keys(d), Keys(d[..|d| - 1]);
    assert forall i :: 0 <= i < |kp| ==> kp[i] == ks[i];
  }

  lemma DistinctLast<V>(d: seq<(string, V)>)
    requires d != [] && DistinctKeys(d)
    ensures DistinctKeys(d[..|d| - 1])
    ensures d[|d| - 1].0 !in Keys(d[..|d| - 1])
  {
    var p := d[..|d| - 1];
    HasKeyKeys(p, d[|d| - 1].0);
  }

  /** Over registered getters with distinct keys, the 'all' loop stores every
      key once, in registration order. */
  lemma {:induction false} AllEntriesKeys(h: Handlers, getters: seq<(string, Getter)>, st: Locals)
    requires DistinctKeys(getters)
    requires st.message == []
    ensures var r := AllEntries(h, getters, st);
      r.failure.None? ==> Keys(r.message) == Keys(getters)
    decreases |getters|
  {
    if getters != [] {
      var n := |getters|;
      var p := getters[..n - 1];
      var e := getters[n - 1];
      DistinctLast(getters);
      AllEntriesKeys(h, p, st);
      var q := AllEntries(h, p, st);
      var r := AllEntry(h, e, q);
      assert AllEntries(h, getters, st) == r;
      if r.failure.None? && q.failure.None? {
        HasKeyKeys(q.message, e.0);
        AllEntryStores(h, e, q);
        DictSetKeys(q.message, e.0, r.getValue.value);
        KeysLast(getters);
      }
    }
  }

  lemma {:induction false} LookupLast<V>(d: seq<(string, V)>, k: string)
    requires d != []
    ensures var p := d[..|d| - 1];
      Lookup(d, k) ==
        if Lookup(p, k).Some? then Lookup(p, k)
        else if d[|d| - 1].0 == k then Some(d[|d| - 1].1)
        else None
    decreases |d|
  {
    var p := d[..|d| - 1];
    if |d| == 1 {
      assert p == [];
    } else if d[0].0 != k {
      assert p[1..] == d[1..][..|d| - 2];
      LookupLast(d[1..], k);
    }
  }

  /** With no default handler, the 'all' loop stores under each registered key
      its getter's value, or None when that getter raises KeyError or TypeError. */
  lemma {:induction false} AllEntriesValues(h: Handlers, getters: seq<(string, Getter)>, st: Locals, k: string)
    requires !h.hasDefault
    requires DistinctKeys(getters)
    ensures var r := AllEntries(h, getters, st);
      r.failure.None? ==>
        Lookup(r.message, k) == match Lookup(getters, k)
          case None => Lookup(st.message, k)
          case Some(g) => Some(AllValue(g))
    decreases |getters|
  {
    if getters != [] {
      var n := |getters|;
      var p := getters[..n - 1];
      var e := getters[n - 1];
      DistinctLast(getters);
      AllEntriesValues(h, p, st, k);
      var q := AllEntries(h, p, st);
      var r := AllEntry(h, e, q);
      assert AllEntries(h, getters, st) == r;
      LookupLast(getters, k);
      if r.failure.None? && q.failure.None? {
        AllEntryStores(h, e, q);
        DictSetLookup(q.message, e.0, r.getValue.value, k);
        if e.0 == k {
          HasKeyKeys(p, k);
          LookupFindsKey(p, k);
        }
      }
    }
  }

  /** A 'get' containing 'all' replies with every registered getter key, in
      registration order, whatever else the request names. */
  lemma AllBranchKeys(h: Handlers, entries: seq<(string, Value)>, st: Locals, k: string)
    requires DistinctKeys(h.getters)
    requires HasKey(entries, "all")
    ensures var r := GetBranch(h, Dict(entries), st);
      && (r.failure.None? ==> r.replied && Keys(r.message) == Keys(h.getters))
      && (r.failure.None? && !h.hasDefault ==>
            Lookup(r.message, k) == match Lookup(h.getters, k)
              case None => None
              case Some(g) => Some(AllValue(g)))
  {
    var st1 := st.(replied := true, message := []);
    AllEntriesKeys(h, h.getters, st1);
    if !h.hasDefault {
      AllEntriesValues(h, h.getters, st1, k);
    }
  }

  /** A specific-key 'get' replies with a single entry, for the last key
      requested; with no key requested and no earlier `get_key` it raises
      UnboundLocalError. */
  lemma KeyedBranchKeepsLast(h: Handlers, entries: seq<(string, Value)>, st: Locals)
    requires !HasKey(entries, "all")
    ensures var r := GetBranch(h, Dict(entries), st);
      && (r.failure.None? && entries != [] ==>
            r.replied && |r.message| == 1 && r.message[0].0 == entries[|entries| - 1].0)
      && (st.failure.None? && entries == [] && st.getKey.None? ==>
            r.failure.Some? && r.failure.value.kind == UnboundLocalError)
  {
  }

  /** An iteration of the specific-key loop that does not raise, with no
      default handler, leaves `get_key` at its key and `get_value` at KeyedValue. */
  lemma KeyedEntryValue(h: Handlers, entry: (string, Value), st: Locals)
    requires !h.hasDefault && st.failure.None?
    ensures var r := KeyedEntry(h, entry, st);
      r.failure.None? ==>
        r.getKey == Some(entry.0) && r.getValue == Some(KeyedValue(h, entry)) && r.message == st.message
  {
  }

  /** With no default handler, a specific-key 'get' that does not raise replies
      with the last requested key and the value its own getter gives for it. */
  lemma KeyedBranchValue(h: Handlers, entries: seq<(string, Value)>, st: Locals)
    requires !h.hasDefault
    requires !HasKey(entries, "all")
    requires entries != []
    ensures var r := GetBranch(h, Dict(entries), st);
      var last := entries[|entries| - 1];
      r.failure.None? ==> r.replied && r.message == [(last.0, KeyedValue(h, last))]
  {
    var st1 := st.(replied := true, message := []);
    var n := |entries|;
    var q := KeyedEntries(h, entries[..n - 1], st1);
    assert KeyedEntries(h, entries, st1) == KeyedEntry(h, entries[n - 1], q);
    if q.failure.None? {
      KeyedEntryValue(h, entries[n - 1], q);
    }
  }

  /** With a default handler installed, a last requested key that takes the
      `except KeyError` path leaves `get_value` as the earlier keys set it: the
      reply pairs that key with the stale value, or raises UnboundLocalError
      when no earlier key bound `get_value`. */
  lemma KeyedBranchStale(h: Handlers, entries: seq<(string, Value)>, st: Locals)
    requires h.hasDefault
    requires !HasKey(entries, "all")
    requires entries != [] && Unanswered(h, entries[|entries| - 1])
    ensures var st1 := st.(replied := true, message := []);
      var q := KeyedEntries(h, entries[..|entries| - 1], st1);
      var r := GetBranch(h, Dict(entries), st);
      var last := entries[|entries| - 1];
      q.failure.None? ==>
        && (q.getValue.None? ==> r.failure == Some(Unbound("get_value")))
        && (q.getValue.Some? ==> r.failure.None? && r.message == [(last.0, q.getValue.value)])
  {
    var st1 := st.(replied := true, message := []);
    var n := |entries|;
    assert KeyedEntries(h, entries, st1) == KeyedEntry(h, entries[n - 1], KeyedEntries(h, entries[..n - 1], st1));
  }

  /** An instance of the stale value: with a default handler and only "a"
      registered, `{"get": {"a": 1, "b": 2}}` replies `{"b": <a's value>}`. */
  lemma KeyedStaleExample(g: Getter, v: Value)
    requires g.withArg(Int(1)) == Returned(v)
    ensures var r := GetBranch(Handlers(map[], [("a", g)], true), Dict([("a", Int(1)), ("b", Int(2))]), Start);
      r.failure.None? && r.message == [("b", v)]
  {
    var h := Handlers(map[], [("a", g)], true);
    var entries := [("a", Int(1)), ("b", Int(2))];
    assert !HasKey(entries, "all");
    var st1 := Start.(replied := true, message := []);
    assert entries[..1] == [("a", Int(1))] && entries[..1][..0] == [];
    assert Lookup(h.getters, "a") == Some(g);
    assert Lookup(h.getters, "b") == None by {
      assert h.getters[1..] == [];
    }
    var q1 := KeyedEntry(h, ("a", Int(1)), st1);
    assert q1 == st1.(getKey := Some("a"), getValue := Some(v));
    assert KeyedEntries(h, entries[..1], st1) == q1;
    var q2 := KeyedEntry(h, ("b", Int(2)), q1);
    assert q2.getValue == Some(v) && q2.getKey == Some("b") && q2.failure.None? && q2.message == [];
    assert KeyedEntries(h, entries, st1) == q2;
  }

  /** With no default handler and `key` unbound (no earlier 'set' entry), the
      log line of a requested key that takes the `except KeyError` path raises
      UnboundLocalError: a specific-key get succeeds only if every requested
      key is answered by its getter. */
  lemma {:induction false} KeyedEntriesNeedKey(h: Handlers, entries: seq<(string, Value)>, st: Locals)
    requires !h.hasDefault && !st.keyBound
    ensures var r := KeyedEntries(h, entries, st);
      && (r.failure.None? ==> forall i :: 0 <= i < |entries| ==> !Unanswered(h, entries[i]))
      && (st.failure.None? && entries != [] && Unanswered(h, entries[0]) ==> r.failure == Some(Unbound("key")))
    decreases |entries|
  {
    if entries != [] {
      var n := |entries|;
      var p := entries[..n - 1];
      KeyedEntriesNeedKey(h, p, st);
      var q := KeyedEntries(h, p, st);
      assert KeyedEntries(h, entries, st) == KeyedEntry(h, entries[n - 1], q);
      assert forall i :: 0 <= i < n - 1 ==> p[i] == entries[i];
      if st.failure.None? && Unanswered(h, entries[0]) {
        if n == 1 {
          assert p == [];
        } else {
          assert p[0] == entries[0];
          KeyedEntriesStop(h, entries, n - 1, st);
          assert entries[..n - 1] == p;
        }
      }
    }
  }

  /** The same for the 'all' loop: with no default handler and `key` unbound,
      it succeeds only if every registered getter returns. */
  lemma {:induction false} AllEntriesNeedKey(h: Handlers, getters: seq<(string, Getter)>, st: Locals)
    requires !h.hasDefault && !st.keyBound
    ensures var r := AllEntries(h, getters, st);
      r.failure.None? ==> forall i :: 0 <= i < |getters| ==> getters[i].1.noArg().Returned?
    decreases |getters|
  {
    if getters != [] {
      var n := |getters|;
      var p := getters[..n - 1];
      AllEntriesNeedKey(h, p, st);
      assert AllEntries(h, getters, st) == AllEntry(h, getters[n - 1], AllEntries(h, p, st));
      assert forall i :: 0 <= i < n - 1 ==> p[i] == getters[i];
    }
  }

  /** `{"get": {k: v}}` for an unregistered key and no default handler raises
      UnboundLocalError on `key`; a 'set' entry first binds `key`, and the same
      get then replies `{k: None}`. */
  lemma UnboundKeyExample(h: Handlers, k: string, v: Value, k2: string, v2: Value)
    requires !h.hasDefault && k != "all"
    requires Lookup(h.getters, k).None? && k2 !in h.setters
    ensures Handle(h, Dict([("get", Dict([(k, v)]))])).result == Failure(Unbound("key"))
    ensures Handle(h, Dict([("set", Dict([(k2, v2)])), ("get", Dict([(k, v)]))])).result == Success(Some([(k, Null)]))
  {
    var gets := [(k, v)];
    assert gets[..0] == [];
    assert !HasKey(gets, "all");
    var getOnly := [("get", Dict(gets))];
    assert getOnly[..0] == [];
    var st1 := Start.(replied := true, message := []);
    assert KeyedEntries(h, gets, st1) == st1.(getKey := Some(k), getValue := Some(Null), failure := Some(Unbound("key")));
    assert PayloadEntries(h, getOnly, Start).failure == Some(Unbound("key"));

    var sets := [(k2, v2)];
    assert sets[..0] == [];
    var both := [("set", Dict(sets)), ("get", Dict(gets))];
    assert both[..1] == [("set", Dict(sets))] && both[..1][..0] == [];
    var bound := Start.(keyBound := true);
    assert SetEntries(h, sets, Start) == bound;
    assert PayloadEntries(h, both[..1], Start) == bound;
    var st2 := bound.(replied := true, message := []);
    assert KeyedEntries(h, gets, st2) == st2.(getKey := Some(k), getValue := Some(Null));
    assert PayloadEntries(h, both, Start) == st2.(getKey := Some(k), getValue := Some(Null), message := [(k, Null)]);
  }

  /** What `send_update` sends, key by key: a requested key with a getter that
      returns carries that value; every other key is absent. */
  lemma {:induction false} UpdateEntries(getters: seq<(string, Getter)>, keys: seq<string>, k: string)
    ensures var s := Update(getters, keys);
      s.failure.None? ==> Lookup(s.message, k) == if k in keys then Reported(getters, k) else None
    decreases |keys|
  {
    if keys != [] {
      var n := |keys|;
      var p := keys[..n - 1];
      UpdateEntries(getters, p, k);
      assert forall x :: x in keys <==> x in p || x == keys[n - 1];
      var q := Update(getters, p);
      if q.failure.None? {
        var key := keys[n - 1];
        match Lookup(getters, key)
        case None =>
        case Some(g) =>
          if g.noArg().Returned? {
            DictSetLookup(q.message, key, g.noArg().value, k);
          }
      }
    }
  }

  /** `send_update` raises exactly when some requested key has a getter that
      raises something other than KeyError; a missing key never makes it raise. */
  lemma {:induction false} UpdateFails(getters: seq<(string, Getter)>, keys: seq<string>)
    ensures Update(getters, keys).failure.Some? <==> exists i :: 0 <= i < |keys| && Fatal(getters, keys[i])
    decreases |keys|
  {
    if keys != [] {
      var n := |keys|;
      var p := keys[..n - 1];
      UpdateFails(getters, p);
      assert forall i :: 0 <= i < |p| ==> keys[i] == p[i];
      if exists i :: 0 <= i < |keys| && Fatal(getters, keys[i]) {
        var i :| 0 <= i < |keys| && Fatal(getters, keys[i]);
        if i < n - 1 {
          assert Fatal(getters, p[i]);
        }
      }
    }
  }

  /** Without an exception, `send_update` reports to `_default_handler` exactly
      the requested keys that have no getter or whose getter raises KeyError. */
  lemma {:induction false} UpdateUnhandled(getters: seq<(string, Getter)>, keys: seq<string>, k: string)
    ensures var s := Update(getters, keys);
      s.failure.None? ==> (k in s.unhandled <==> k in keys && Reported(getters, k).None?)
    decreases |keys|
  {
    if keys != [] {
      var n := |keys|;
      var p := keys[..n - 1];
      UpdateUnhandled(getters, p, k);
      assert forall x :: x in keys <==> x in p || x == keys[n - 1];
    }
  }

  // ---------------------------------------------------------------------------
  // The handler

  class MsgHandler {
    var setHandlers: map<string, Setter>
    var getHandlers: seq<(string, Getter)>
    /** Whether `default_handler` is set; it starts as None. */
    var hasDefaultHandler: bool

    /** A dict holds each key once. */
    ghost predicate Valid()
      reads this
    {
      DistinctKeys(getHandlers)
    }

    function Current(): Handlers
      reads this
    {
      Handlers(setHandlers, getHandlers, hasDefaultHandler)
    }

    constructor ()
      ensures Valid()
      ensures setHandlers == map[] && getHandlers == [] && !hasDefaultHandler
    {
      setHandlers, getHandlers, hasDefaultHandler := map[], [], false;
    }

    /** Stores whichever of the two handlers is given; a getter registered
        again keeps its place in the iteration order. */
    method AddHandlers(key: string, setter: Option<Setter>, getter: Option<Getter>)
      requires Valid()
      modifies this
      ensures Valid()
      ensures setHandlers == if setter.Some? then old(setHandlers)[key := setter.value] else old(setHandlers)
      ensures getHandlers == if getter.Some? then DictSet(old(getHandlers), key, getter.value) else old(getHandlers)
      ensures hasDefaultHandler == old(hasDefaultHandler)
    {
      if setter.Some? {
        setHandlers := setHandlers[key := setter.value];
      }
      if getter.Some? {
        DictSetDistinct(getHandlers, key, getter.value);
        getHandlers := DictSet(getHandlers, key, getter.value);
      }
    }

    /** `self.get_handlers[key]`: the getter, or None where a lookup raises KeyError. */
    method FindGetter(key: string) returns (g: Option<Getter>)
      ensures g == Lookup(getHandlers, key)
      ensures g.Some? <==> HasKey(getHandlers, key)
    {
      LookupFindsKey(getHandlers, key);
      g := None;
      var i := 0;
      while i < |getHandlers|
        invariant 0 <= i <= |getHandlers|
        invariant Lookup(getHandlers, key) == Lookup(getHandlers[i..], key)
      {
        if getHandlers[i].0 == key {
          g := Some(getHandlers[i].1);
          return;
        }
        assert getHandlers[i..][1..] == getHandlers[i + 1..];
        i := i + 1;
      }
    }

    /** `asyncio.gather(*tasks)`. */
    method Gather(tasks: seq<Launch>) returns (failure: Option<PyError>)
      ensures failure == FirstRaised(tasks)
    {
      for i := 0 to |tasks|
        invariant FirstRaised(tasks) == FirstRaised(tasks[i..])
      {
        if tasks[i].outcome.Raised? {
          return Some(tasks[i].outcome.error);
        }
        assert tasks[i..][1..] == tasks[i + 1..];
      }
      failure := None;
    }

    method RunSet(msgs: Value, st: Locals) returns (r: Locals)
      requires st.failure.None?
      ensures r == SetBranch(Current(), msgs, st)
    {
      if !(msgs.Dict? || msgs.DotDictValue?) {
        return st.(failure := Some(NoAttribute(msgs, "items")));
      }
      var entries := DictEntries(msgs).value;
      r := st;
      for i := 0 to |entries|
        invariant r == SetEntries(Current(), entries[..i], st)
      {
        var key, value := entries[i].0, entries[i].1;
        assert entries[..i + 1][..i] == entries[..i];
        if key in setHandlers {
          var setter := setHandlers[key];
          r := r.(keyBound := true, tasks := r.tasks + [Launch(key, value, setter(value))]);
        } else if hasDefaultHandler {
          r := r.(keyBound := true, defaultCalls := r.defaultCalls + [DefaultCall("set", key, value)]);
        } else {
          r := r.(keyBound := true);
        }
      }
      assert entries[..|entries|] == entries;
      var failure := Gather(r.tasks);
      r := r.(failure := failure);
    }

    /** The `except` path of a get, as a statement. */
    method Fallback(getKey: string, val: Value, st: Locals) returns (r: Locals)
      ensures r == GetFallback(Current(), getKey, val, st)
    {
      if hasDefaultHandler {
        r := st.(defaultCalls := st.defaultCalls + [DefaultCall("get", getKey, val)]);
      } else if st.keyBound {
        r := st.(getValue := Some(Null));
      } else {
        r := st.(getValue := Some(Null), failure := Some(Unbound("key")));
      }
    }

    method RunGetAll(st: Locals) returns (r: Locals)
      requires st.failure.None?
      ensures r == AllEntries(Current(), getHandlers, st)
    {
      r := st;
      var i := 0;
      while i < |getHandlers| && r.failure.None?
        invariant 0 <= i <= |getHandlers|
        invariant r == AllEntries(Current(), getHandlers[..i], st)
        decreases |getHandlers| - i
      {
        var getKey, getter := getHandlers[i].0, getHandlers[i].1;
        assert getHandlers[..i + 1][..i] == getHandlers[..i];
        r := r.(getKey := Some(getKey));
        var call := getter.noArg;
        var o := call();
        match o {
          case Returned(v) =>
            r := r.(getValue := Some(v));
          case Raised(e) =>
            if e.kind == KeyError || e.kind == TypeError {
              r := Fallback(getKey, Null, r);
            } else {
              r := r.(failure := Some(e));
            }
        }
        r := Store(r);
        i := i + 1;
      }
      if i < |getHandlers| {
        AllEntriesStop(Current(), getHandlers, i, st);
      } else {
        assert getHandlers[..i] == getHandlers;
      }
    }

    method RunGetKeyed(entries: seq<(string, Value)>, st: Locals) returns (r: Locals)
      requires st.failure.None?
      ensures r == KeyedEntries(Current(), entries, st)
    {
      r := st;
      var i := 0;
      while i < |entries| && r.failure.None?
        invariant 0 <= i <= |entries|
        invariant r == KeyedEntries(Current(), entries[..i], st)
        decreases |entries| - i
      {
        var getKey, val := entries[i].0, entries[i].1;
        assert entries[..i + 1][..i] == entries[..i];
        r := r.(getKey := Some(getKey));
        var found := FindGetter(getKey);
        match found {
          case None =>
            r := Fallback(getKey, val, r);
          case Some(g) =>
            var withArg := g.withArg;
            var o := withArg(val);
            match o {
              case Returned(v) =>
                r := r.(getValue := Some(v));
              case Raised(e) =>
                if e.kind == TypeError {
                  var noArg := g.noArg;
                  var o2 := noArg();
                  match o2 {
                    case Returned(v) => r := r.(getValue := Some(v));
                    case Raised(e2) => r := r.(failure := Some(e2));
                  }
                } else if e.kind == KeyError {
                  r := Fallback(getKey, val, r);
                } else {
                  r := r.(failure := Some(e));
                }
            }
        }
        i := i + 1;
      }
      if i < |entries| {
        KeyedEntriesStop(Current(), entries, i, st);
      } else {
        assert entries[..i] == entries;
      }
    }

    method RunGet(msgs: Value, st: Locals) returns (r: Locals)
      requires st.failure.None?
      ensures r == GetBranch(Current(), msgs, st)
    {
      if !(msgs.Dict? || msgs.DotDictValue?) {
        return st.(failure := Some(NoAttribute(msgs, "keys")));
      }
      var entries := DictEntries(msgs).value;
      r := st.(replied := true, message := []);
      if HasKey(entries, "all") {
        r := RunGetAll(r);
      } else {
        r := RunGetKeyed(entries, r);
        r := Store(r);
      }
    }

    /** `handle_msg(payload)`: see Handle for what it does, and the lemmas above
        for what that means. */
    method HandleMsg(payload: Value) returns (out: Handled)
      ensures out == Handle(Current(), payload)
    {
      if !(payload.Dict? || payload.DotDictValue?) {
        return Handled([], [], Failure(NoAttribute(payload, "items")));
      }
      var entries := DictEntries(payload).value;
      var st := Start;
      var i := 0;
      while i < |entries| && st.failure.None?
        invariant 0 <= i <= |entries|
        invariant st == PayloadEntries(Current(), entries[..i], Start)
      {
        var methType, msgs := entries[i].0, entries[i].1;
        assert entries[..i + 1][..i] == entries[..i];
        if methType == "set" {
          st := RunSet(msgs, st);
        } else if methType == "get" {
          st := RunGet(msgs, st);
        }
        i := i + 1;
      }
      if i < |entries| {
        PayloadEntriesStop(Current(), entries, i, Start);
      } else {
        assert entries[..i] == entries;
      }
      out := Finish(st);
    }

    /** `send_update(*keys)`: the message it sends, the keys it reports as
        unhandled, or the exception that ends it. */
    method SendUpdate(keys: seq<string>) returns (sent: Sent)
      ensures sent == Update(getHandlers, keys)
    {
      sent := Sent([], [], None);
      var i := 0;
      while i < |keys| && sent.failure.None?
        invariant 0 <= i <= |keys|
        invariant sent == Update(getHandlers, keys[..i])
        decreases |keys| - i
      {
        var key := keys[i];
        assert keys[..i + 1][..i] == keys[..i];
        var found := FindGetter(key);
        match found {
          case None =>
            sent := sent.(unhandled := sent.unhandled + [key]);
          case Some(g) =>
            var noArg := g.noArg;
            var o := noArg();
            match o {
              case Returned(v) =>
                sent := sent.(message := DictSet(sent.message, key, v));
              case Raised(e) =>
                if e.kind == KeyError {
                  sent := sent.(unhandled := sent.unhandled + [key]);
                } else {
                  sent := sent.(failure := Some(e));
                }
            }
        }
        i := i + 1;
      }
      if i < |keys| {
        UpdateStop(getHandlers, keys, i);
      } else {
        assert keys[..i] == keys;
      }
    }
  }
}
