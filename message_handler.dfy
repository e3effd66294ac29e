/** The control-message dispatcher of home_led_matrix/message_handler.py:
    request/response/update messages and the MessageHandler that answers a
    batched request from three registries of getters, setters and actions.

    Handlers are uninterpreted: each is a function value whose call either
    returns a value or raises. A getter or an action takes no argument, a
    setter takes the value to set. */
module Messages {
  import opened Values

  type Key = string
  type Getter = () -> Outcome
  type Setter = Value -> Outcome
  type Action = () -> Outcome

  /** An entry of `Response.errors`: `{"type": kind, "error": error}`. */
  datatype ErrorRecord = ErrorRecord(kind: string, error: string)

  /** The four tables of a Response, as a value. */
  datatype Reply = Reply(
    gets: map<Key, Value>,
    sets: map<Key, Value>,
    actions: map<Key, string>,
    errors: map<Key, ErrorRecord>)

  const EmptyReply := Reply(map[], map[], map[], map[])

  /** The exception `_get`, `_set` and `_action` raise for a key without a handler. */
  function NoHandler(key: Key): (e: PyError)
    ensures e.kind == NoHandlerError
  {
    PyError(NoHandlerError, "No handler for " + key)
  }

  /** What `_get(key)` does: call the registered getter, or raise NoHandlerError. */
  function CallGetter(getters: map<Key, Getter>, key: Key): Outcome {
    if key in getters then getters[key]() else Raised(NoHandler(key))
  }

  /** What `_set(key, value)` does; the setter's return value is discarded. */
  function CallSetter(setters: map<Key, Setter>, key: Key, value: Value): Outcome {
    if key in setters then setters[key](value) else Raised(NoHandler(key))
  }

  /** What `_action(action)` does; the action's return value is discarded. */
  function CallAction(actions: map<Key, Action>, key: Key): Outcome {
    if key in actions then actions[key]() else Raised(NoHandler(key))
  }

  // ---------------------------------------------------------------------------
  // The three phases of handle_msg, each once as the loop of its _handle_*
  // method (Fold*) and once as a table built independently of any order (Apply*).

  /** One iteration of `_handle_gets`. */
  function GetStep(getters: map<Key, Getter>, key: Key, r: Reply): Reply {
    match CallGetter(getters, key)
    case Returned(v) => r.(gets := r.gets[key := v])
    case Raised(e) => r.(errors := r.errors[key := ErrorRecord("get", e.message)])
  }

  /** `_handle_gets` over `keys`, in order, starting from `r`. */
  function FoldGets(getters: map<Key, Getter>, keys: seq<Key>, r: Reply): Reply
    decreases |keys|
  {
    if keys == [] then r
    else GetStep(getters, keys[|keys| - 1], FoldGets(getters, keys[..|keys| - 1], r))
  }

  /** The values of the keys in `keys` whose getter returns. */
  function GotValues(getters: map<Key, Getter>, keys: set<Key>): map<Key, Value> {
    map k | k in keys && CallGetter(getters, k).Returned? :: CallGetter(getters, k).value
  }

  /** The errors of the keys in `keys` whose getter is missing or raises. */
  function GetErrors(getters: map<Key, Getter>, keys: set<Key>): map<Key, ErrorRecord> {
    map k | k in keys && CallGetter(getters, k).Raised? :: ErrorRecord("get", CallGetter(getters, k).error.message)
  }

  /** Querying every key of `keys` once, whatever the order. */
  function ApplyGets(getters: map<Key, Getter>, keys: set<Key>, r: Reply): Reply {
    r.(gets := r.gets + GotValues(getters, keys), errors := r.errors + GetErrors(getters, keys))
  }

  /** One iteration of `_handle_sets`. */
  function SetStep(setters: map<Key, Setter>, key: Key, value: Value, r: Reply): Reply {
    match CallSetter(setters, key, value)
    case Returned(_) => r.(sets := r.sets[key := value])
    case Raised(e) => r.(errors := r.errors[key := ErrorRecord("set", e.message)])
  }

  /** `_handle_sets` over the items of `sets` taken in the key order `order`. */
  function FoldSets(setters: map<Key, Setter>, sets: map<Key, Value>, order: seq<Key>, r: Reply): Reply
    requires forall k :: k in order ==> k in sets
    decreases |order|
  {
    if order == [] then r
    else
      var k := order[|order| - 1];
      SetStep(setters, k, sets[k], FoldSets(setters, sets, order[..|order| - 1], r))
  }

  /** The items among the keys `keys` that a setter accepted. */
  function SetValues(setters: map<Key, Setter>, sets: map<Key, Value>, keys: set<Key>): map<Key, Value> {
    map k | k in keys && k in sets && CallSetter(setters, k, sets[k]).Returned? :: sets[k]
  }

  /** The errors of the items among `keys` whose setter is missing or raises. */
  function SetErrors(setters: map<Key, Setter>, sets: map<Key, Value>, keys: set<Key>): map<Key, ErrorRecord> {
    map k | k in keys && k in sets && CallSetter(setters, k, sets[k]).Raised?
      :: ErrorRecord("set", CallSetter(setters, k, sets[k]).error.message)
  }

  /** Applying the items of `sets` whose key is in `keys`, whatever the order. */
  function ApplySets(setters: map<Key, Setter>, sets: map<Key, Value>, keys: set<Key>, r: Reply): Reply {
    r.(sets := r.sets + SetValues(setters, sets, keys), errors := r.errors + SetErrors(setters, sets, keys))
  }

  /** One iteration of `_handle_actions`. */
  function ActionStep(actions: map<Key, Action>, key: Key, r: Reply): Reply {
    match CallAction(actions, key)
    case Returned(_) => r.(actions := r.actions[key := "result"])
    case Raised(e) => r.(errors := r.errors[key := ErrorRecord("action", e.message)])
  }

  /** `_handle_actions` over `keys`, in order, starting from `r`. */
  function FoldActions(actions: map<Key, Action>, keys: seq<Key>, r: Reply): Reply
    decreases |keys|
  {
    if keys == [] then r
    else ActionStep(actions, keys[|keys| - 1], FoldActions(actions, keys[..|keys| - 1], r))
  }

  /** The keys in `keys` whose action ran, each recorded with "result". */
  function ActionResults(actions: map<Key, Action>, keys: set<Key>): map<Key, string> {
    map k | k in keys && CallAction(actions, k).Returned? :: "result"
  }

  /** The errors of the keys in `keys` whose action is missing or raises. */
  function ActionErrors(actions: map<Key, Action>, keys: set<Key>): map<Key, ErrorRecord> {
    map k | k in keys && CallAction(actions, k).Raised? :: ErrorRecord("action", CallAction(actions, k).error.message)
  }

  /** Running every action of `keys` once, whatever the order. */
  function ApplyActions(actions: map<Key, Action>, keys: set<Key>, r: Reply): Reply {
    r.(actions := r.actions + ActionResults(actions, keys), errors := r.errors + ActionErrors(actions, keys))
  }

  lemma UpdateUnion<V>(m: map<Key, V>, n: map<Key, V>, k: Key, v: V)
    ensures (m + n)[k := v] == m + n[k := v]
  {
  }

  lemma GetStepExtends(getters: map<Key, Getter>, keys: set<Key>, k: Key, r: Reply)
    ensures GetStep(getters, k, ApplyGets(getters, keys, r)) == ApplyGets(getters, keys + {k}, r)
  {
    var vs, es := GotValues(getters, keys), GetErrors(getters, keys);
    var vs', es' := GotValues(getters, keys + {k}), GetErrors(getters, keys + {k});
    match CallGetter(getters, k)
    case Returned(v) =>
      assert vs' == vs[k := v];
      assert es' == es;
      UpdateUnion(r.gets, vs, k, v);
    case Raised(e) =>
      var rec := ErrorRecord("get", e.message);
      assert vs' == vs;
      assert es' == es[k := rec];
      UpdateUnion(r.errors, es, k, rec);
  }

  /** The loop of `_handle_gets` records each listed key by its getter's outcome
      alone: neither the order of the list nor repeated keys change the reply. */
  lemma {:induction false} FoldGetsIsApplyGets(getters: map<Key, Getter>, keys: seq<Key>, r: Reply)
    ensures FoldGets(getters, keys, r) == ApplyGets(getters, (set k | k in keys), r)
    decreases |keys|
  {
    if keys == [] {
      assert GotValues(getters, {}) == map[];
      assert GetErrors(getters, {}) == map[];
      assert r.gets + map[] == r.gets && r.errors + map[] == r.errors;
    } else {
      var init, last := keys[..|keys| - 1], keys[|keys| - 1];
      FoldGetsIsApplyGets(getters, init, r);
      GetStepExtends(getters, (set k | k in init), last, r);
      assert (set k | k in keys) == (set k | k in init) + {last} by {
        assert keys == init + [last];
      }
    }
  }

  lemma SetStepExtends(setters: map<Key, Setter>, sets: map<Key, Value>, keys: set<Key>, k: Key, r: Reply)
    requires k in sets
    ensures SetStep(setters, k, sets[k], ApplySets(setters, sets, keys, r)) == ApplySets(setters, sets, keys + {k}, r)
  {
    var vs, es := SetValues(setters, sets, keys), SetErrors(setters, sets, keys);
    var vs', es' := SetValues(setters, sets, keys + {k}), SetErrors(setters, sets, keys + {k});
    match CallSetter(setters, k, sets[k])
    case Returned(_) =>
      assert vs' == vs[k := sets[k]];
      assert es' == es;
      UpdateUnion(r.sets, vs, k, sets[k]);
    case Raised(e) =>
      var rec := ErrorRecord("set", e.message);
      assert vs' == vs;
      assert es' == es[k := rec];
      UpdateUnion(r.errors, es, k, rec);
  }

  /** The loop of `_handle_sets` gives the same reply in every iteration order. */
  lemma {:induction false} FoldSetsIsApplySets(setters: map<Key, Setter>, sets: map<Key, Value>, order: seq<Key>, r: Reply)
    requires forall k :: k in order ==> k in sets
    ensures FoldSets(setters, sets, order, r) == ApplySets(setters, sets, (set k | k in order), r)
    decreases |order|
  {
    if order == [] {
      assert SetValues(setters, sets, {}) == map[];
      assert SetErrors(setters, sets, {}) == map[];
      assert r.sets + map[] == r.sets && r.errors + map[] == r.errors;
    } else {
      var init, last := order[..|order| - 1], order[|order| - 1];
      assert order == init + [last];
      var before := set k | k in init;
      assert (set k | k in order) == before + {last};
      FoldSetsIsApplySets(setters, sets, init, r);
      assert FoldSets(setters, sets, order, r) == SetStep(setters, last, sets[last], FoldSets(setters, sets, init, r));
      SetStepExtends(setters, sets, before, last, r);
    }
  }

  lemma ActionStepExtends(actions: map<Key, Action>, keys: set<Key>, k: Key, r: Reply)
    ensures ActionStep(actions, k, ApplyActions(actions, keys, r)) == ApplyActions(actions, keys + {k}, r)
  {
    var vs, es := ActionResults(actions, keys), ActionErrors(actions, keys);
    var vs', es' := ActionResults(actions, keys + {k}), ActionErrors(actions, keys + {k});
    match CallAction(actions, k)
    case Returned(_) =>
      assert vs' == vs[k := "result"];
      assert es' == es;
      UpdateUnion(r.actions, vs, k, "result");
    case Raised(e) =>
      var rec := ErrorRecord("action", e.message);
      assert vs' == vs;
      assert es' == es[k := rec];
      UpdateUnion(r.errors, es, k, rec);
  }

  /** The loop of `_handle_actions` records each listed action by its own outcome
      alone: neither the order of the list nor repeated actions change the reply. */
  lemma {:induction false} FoldActionsIsApplyActions(actions: map<Key, Action>, keys: seq<Key>, r: Reply)
    ensures FoldActions(actions, keys, r) == ApplyActions(actions, (set k | k in keys), r)
    decreases |keys|
  {
    if keys == [] {
      assert ActionResults(actions, {}) == map[];
      assert ActionErrors(actions, {}) == map[];
      assert r.actions + map[] == r.actions && r.errors + map[] == r.errors;
    } else {
      var init, last := keys[..|keys| - 1], keys[|keys| - 1];
      FoldActionsIsApplyActions(actions, init, r);
      ActionStepExtends(actions, (set k | k in init), last, r);
      assert (set k | k in keys) == (set k | k in init) + {last} by {
        assert keys == init + [last];
      }
    }
  }

  // ---------------------------------------------------------------------------
  // handle_msg

  /** The keys the gets phase queries: every registered getter when "all" is
      requested (the listed keys are then ignored), else exactly the listed keys. */
  function Queried(getters: map<Key, Getter>, gets: seq<Key>): (q: set<Key>)
    ensures "all" in gets ==> q == getters.Keys
    ensures "all" !in gets ==> forall k :: k in q <==> k in gets
  {
    if "all" in gets then getters.Keys else set k | k in gets
  }

  /** The response `handle_msg` builds: gets first, then sets, then actions. */
  function Respond(
    getters: map<Key, Getter>, setters: map<Key, Setter>, actions: map<Key, Action>,
    gets: seq<Key>, sets: map<Key, Value>, acts: seq<Key>): Reply
  {
    var afterGets := ApplyGets(getters, Queried(getters, gets), EmptyReply);
    var afterSets := ApplySets(setters, sets, sets.Keys, afterGets);
    ApplyActions(actions, (set k | k in acts), afterSets)
  }

  /** What the response holds for key `k`. A queried key is in `gets` exactly
      when its getter returns; a set item is echoed in `sets` exactly when its
      setter returns; an action is recorded as "result" exactly when it runs.
      Errors share one table keyed by key alone, so the error of a later phase
      (actions after sets after gets) replaces that of an earlier one. */
  lemma RespondEntries(
    getters: map<Key, Getter>, setters: map<Key, Setter>, actions: map<Key, Action>,
    gets: seq<Key>, sets: map<Key, Value>, acts: seq<Key>, k: Key)
    ensures var r := Respond(getters, setters, actions, gets, sets, acts);
      var getOk := k in Queried(getters, gets) && CallGetter(getters, k).Returned?;
      var getFailed := k in Queried(getters, gets) && CallGetter(getters, k).Raised?;
      var setOk := k in sets && CallSetter(setters, k, sets[k]).Returned?;
      var setFailed := k in sets && CallSetter(setters, k, sets[k]).Raised?;
      var actionOk := k in acts && CallAction(actions, k).Returned?;
      var actionFailed := k in acts && CallAction(actions, k).Raised?;
      && (k in r.gets <==> getOk) && (getOk ==> r.gets[k] == CallGetter(getters, k).value)
      && (k in r.sets <==> setOk) && (setOk ==> r.sets[k] == sets[k])
      && (k in r.actions <==> actionOk) && (actionOk ==> r.actions[k] == "result")
      && (k in r.errors <==> getFailed || setFailed || actionFailed)
      && (actionFailed ==> r.errors[k] == ErrorRecord("action", CallAction(actions, k).error.message))
      && (setFailed && !actionFailed ==> r.errors[k] == ErrorRecord("set", CallSetter(setters, k, sets[k]).error.message))
      && (getFailed && !setFailed && !actionFailed ==> r.errors[k] == ErrorRecord("get", CallGetter(getters, k).error.message))
  {
  }

  /** The gets phase alone puts each queried key in exactly one table: `gets`
      when its getter returns, `errors` with kind "get" when the getter is
      missing or raises; keys not queried are in neither. */
  lemma GetsPhasePlacesEachKeyOnce(getters: map<Key, Getter>, gets: seq<Key>, k: Key)
    ensures var r := ApplyGets(getters, Queried(getters, gets), EmptyReply);
      && (k in Queried(getters, gets) ==> (k in r.gets <==> k !in r.errors))
      && (k !in Queried(getters, gets) ==> k !in r.gets && k !in r.errors)
      && (k in r.errors ==> r.errors[k].kind == "get")
      && (k in getters && k in Queried(getters, gets) && getters[k]().Returned? ==> k in r.gets && r.gets[k] == getters[k]().value)
      && (k !in getters && k in Queried(getters, gets) ==> k in r.errors && r.errors[k] == ErrorRecord("get", "No handler for " + k))
  {
  }

  /** Failure isolation: two registries that agree on key `k`'s handlers (and
      register the same getter keys, so that "all" means the same) give the same
      response entries for `k`, whatever the other keys' handlers do. */
  lemma FailureIsolation(
    getters1: map<Key, Getter>, setters1: map<Key, Setter>, actions1: map<Key, Action>,
    getters2: map<Key, Getter>, setters2: map<Key, Setter>, actions2: map<Key, Action>,
    gets: seq<Key>, sets: map<Key, Value>, acts: seq<Key>, k: Key)
    requires getters1.Keys == getters2.Keys
    requires CallGetter(getters1, k) == CallGetter(getters2, k)
    requires k in sets ==> CallSetter(setters1, k, sets[k]) == CallSetter(setters2, k, sets[k])
    requires CallAction(actions1, k) == CallAction(actions2, k)
    ensures var r1 := Respond(getters1, setters1, actions1, gets, sets, acts);
      var r2 := Respond(getters2, setters2, actions2, gets, sets, acts);
      && (k in r1.gets <==> k in r2.gets) && (k in r1.gets ==> r1.gets[k] == r2.gets[k])
      && (k in r1.sets <==> k in r2.sets) && (k in r1.sets ==> r1.sets[k] == r2.sets[k])
      && (k in r1.actions <==> k in r2.actions) && (k in r1.actions ==> r1.actions[k] == r2.actions[k])
      && (k in r1.errors <==> k in r2.errors) && (k in r1.errors ==> r1.errors[k] == r2.errors[k])
  {
    assert Queried(getters1, gets) == Queried(getters2, gets);
    RespondEntries(getters1, setters1, actions1, gets, sets, acts, k);
    RespondEntries(getters2, setters2, actions2, gets, sets, acts, k);
  }

  /** Some iteration order of a set of keys, each key once: the order in which a
      dict yields its keys, which the model leaves unspecified. */
  method Enumerate(keys: set<Key>) returns (order: seq<Key>)
    ensures forall k :: k in order <==> k in keys
    ensures forall i, j :: 0 <= i < j < |order| ==> order[i] != order[j]
  {
    order := [];
    var rest := keys;
    while rest != {}
      invariant forall k :: k in keys <==> k in order || k in rest
      invariant forall k :: k in order ==> k !in rest
      invariant forall i, j :: 0 <= i < j < |order| ==> order[i] != order[j]
      decreases rest
    {
      var k :| k in rest;
      order := order + [k];
      rest := rest - {k};
    }
  }

  // ---------------------------------------------------------------------------
  // The message classes

  class Request {
    const messageType: string
    var gets: seq<Key>
    var sets: map<Key, Value>
    var actions: seq<Key>

    constructor ()
      ensures messageType == "request"
      ensures gets == [] && sets == map[] && actions == []
    {
      messageType := "request";
      gets, sets, actions := [], map[], [];
    }

    /** Appends in call order; a key asked for twice is listed twice. */
    method Get(key: Key)
      modifies this
      ensures gets == old(gets) + [key]
      ensures sets == old(sets) && actions == old(actions)
    {
      gets := gets + [key];
    }

    /** The last value set for a key wins. */
    method Set(key: Key, value: Value)
      modifies this
      ensures sets == old(sets)[key := value]
      ensures gets == old(gets) && actions == old(actions)
    {
      sets := sets[key := value];
    }

    /** Appends in call order; an action requested twice is listed twice. */
    method Action(action: Key)
      modifies this
      ensures actions == old(actions) + [action]
      ensures gets == old(gets) && sets == old(sets)
    {
      actions := actions + [action];
    }
  }

  class Response {
    const messageType: string
    var gets: map<Key, Value>
    var sets: map<Key, Value>
    var actions: map<Key, string>
    var errors: map<Key, ErrorRecord>

    function Data(): Reply
      reads this
    {
      Reply(gets, sets, actions, errors)
    }

    constructor ()
      ensures messageType == "response"
      ensures Data() == EmptyReply
    {
      messageType := "response";
      gets, sets, actions, errors := map[], map[], map[], map[];
    }

    method Get(key: Key, value: Value)
      modifies this
      ensures Data() == old(Data()).(gets := old(gets)[key := value])
    {
      gets := gets[key := value];
    }

    method Set(key: Key, value: Value)
      modifies this
      ensures Data() == old(Data()).(sets := old(sets)[key := value])
    {
      sets := sets[key := value];
    }

    method Action(action: Key, result: string)
      modifies this
      ensures Data() == old(Data()).(actions := old(actions)[action := result])
    {
      actions := actions[action := result];
    }

    /** Errors are keyed by key alone: a second error for a key replaces the first. */
    method Error(key: Key, kind: string, error: string)
      modifies this
      ensures Data() == old(Data()).(errors := old(errors)[key := ErrorRecord(kind, error)])
    {
      errors := errors[key := ErrorRecord(kind, error)];
    }
  }

  class Update {
    const messageType: string
    var updates: map<Key, Value>

    constructor ()
      ensures messageType == "update" && updates == map[]
    {
      messageType := "update";
      updates := map[];
    }

    method Put(key: Key, value: Value)
      modifies this
      ensures updates == old(updates)[key := value]
    {
      updates := updates[key := value];
    }
  }

  // ---------------------------------------------------------------------------
  // The dispatcher

  class MessageHandler {
    var getHandlers: map<Key, Getter>
    var setHandlers: map<Key, Setter>
    var actionHandlers: map<Key, Action>

    constructor ()
      ensures getHandlers == map[] && setHandlers == map[] && actionHandlers == map[]
    {
      getHandlers, setHandlers, actionHandlers := map[], map[], map[];
    }

    /** Registers each handler that is given (a `None` argument leaves that
        registry alone); a new handler replaces an earlier one of the same kind. */
    method AddHandlers(key: Key, setter: Option<Setter>, getter: Option<Getter>, action: Option<Action>)
      modifies this
      ensures setHandlers == if setter.Some? then old(setHandlers)[key := setter.value] else old(setHandlers)
      ensures getHandlers == if getter.Some? then old(getHandlers)[key := getter.value] else old(getHandlers)
      ensures actionHandlers == if action.Some? then old(actionHandlers)[key := action.value] else old(actionHandlers)
    {
      if setter.Some? {
        setHandlers := setHandlers[key := setter.value];
      }
      if getter.Some? {
        getHandlers := getHandlers[key := getter.value];
      }
      if action.Some? {
        actionHandlers := actionHandlers[key := action.value];
      }
    }

    /** `_get`: the getter's outcome, or NoHandlerError for an unregistered key. */
    method InvokeGetter(key: Key) returns (o: Outcome)
      ensures key in getHandlers ==> o == getHandlers[key]()
      ensures key !in getHandlers ==> o == Raised(PyError(NoHandlerError, "No handler for " + key))
    {
      if key in getHandlers {
        var handler := getHandlers[key];
        o := handler();
      } else {
        o := Raised(NoHandler(key));
      }
    }

    /** `_set`: the setter's outcome, or NoHandlerError for an unregistered key. */
    method InvokeSetter(key: Key, value: Value) returns (o: Outcome)
      ensures key in setHandlers ==> o == setHandlers[key](value)
      ensures key !in setHandlers ==> o == Raised(PyError(NoHandlerError, "No handler for " + key))
    {
      if key in setHandlers {
        var handler := setHandlers[key];
        o := handler(value);
      } else {
        o := Raised(NoHandler(key));
      }
    }

    /** `_action`: the action's outcome, or NoHandlerError for an unregistered key. */
    method InvokeAction(action: Key) returns (o: Outcome)
      ensures action in actionHandlers ==> o == actionHandlers[action]()
      ensures action !in actionHandlers ==> o == Raised(PyError(NoHandlerError, "No handler for " + action))
    {
      if action in actionHandlers {
        var handler := actionHandlers[action];
        o := handler();
      } else {
        o := Raised(NoHandler(action));
      }
    }

    method HandleGets(keys: seq<Key>, response: Response)
      modifies response
      ensures response.Data() == FoldGets(getHandlers, keys, old(response.Data()))
    {
      for i := 0 to |keys|
        invariant response.Data() == FoldGets(getHandlers, keys[..i], old(response.Data()))
      {
        var key := keys[i];
        assert keys[..i + 1][..i] == keys[..i];
        var o := InvokeGetter(key);
        match o
        case Returned(v) => response.Get(key, v);
        case Raised(e) => response.Error(key, "get", e.message);
      }
      assert keys[..|keys|] == keys;
    }

    method HandleSets(sets: map<Key, Value>, response: Response)
      modifies response
      ensures response.Data() == ApplySets(setHandlers, sets, sets.Keys, old(response.Data()))
    {
      var order := Enumerate(sets.Keys);
      for i := 0 to |order|
        invariant response.Data() == FoldSets(setHandlers, sets, order[..i], old(response.Data()))
      {
        var key := order[i];
        assert order[..i + 1][..i] == order[..i];
        var o := InvokeSetter(key, sets[key]);
        match o
        case Returned(_) => response.Set(key, sets[key]);
        case Raised(e) => response.Error(key, "set", e.message);
      }
      assert order[..|order|] == order;
      FoldSetsIsApplySets(setHandlers, sets, order, old(response.Data()));
      assert (set k | k in order) == sets.Keys;
    }

    method HandleActions(actions: seq<Key>, response: Response)
      modifies response
      ensures response.Data() == FoldActions(actionHandlers, actions, old(response.Data()))
    {
      for i := 0 to |actions|
        invariant response.Data() == FoldActions(actionHandlers, actions[..i], old(response.Data()))
      {
        var action := actions[i];
        assert actions[..i + 1][..i] == actions[..i];
        var o := InvokeAction(action);
        match o
        case Returned(_) => response.Action(action, "result");
        case Raised(e) => response.Error(action, "action", e.message);
      }
      assert actions[..|actions|] == actions;
    }

    /** Answers a batched request; see Respond for what the response holds. */
    method HandleMsg(message: Request) returns (response: Response)
      ensures fresh(response) && response.messageType == "response"
      ensures response.Data() ==
        Respond(getHandlers, setHandlers, actionHandlers, message.gets, message.sets, message.actions)
    {
      response := new Response();
      if "all" in message.gets {
        var order := Enumerate(getHandlers.Keys);
        HandleGets(order, response);
        FoldGetsIsApplyGets(getHandlers, order, EmptyReply);
        assert (set k | k in order) == getHandlers.Keys;
      } else {
        HandleGets(message.gets, response);
        FoldGetsIsApplyGets(getHandlers, message.gets, EmptyReply);
      }
      HandleSets(message.sets, response);
      ghost var afterSets := response.Data();
      HandleActions(message.actions, response);
      FoldActionsIsApplyActions(actionHandlers, message.actions, afterSets);
    }
  }
}
