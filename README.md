# home_led_matrix control surface, modelled in Dafny

home_led_matrix drives an LED pixel matrix from a Raspberry Pi. Apps such as
the snake viewer draw on it, and a small control surface lets a client query
and change parameters, switch apps, pause or resume them, and toggle or dim
the display. This project models that control core and proves what it
promises:

- **Control-message dispatcher** (`message_handler.dfy`, module `Messages`).
  It covers the `Request`, `Response` and `Update` message builders and
  `MessageHandler`. `MessageHandler` answers a batched request from three
  registries: getters, setters and actions. Each `_handle_*` loop is a `for`
  loop filling a `Response`. It is proved against a left fold (`Fold*`), and
  each fold is proved equal to an order-independent table (`Apply*`).
- **App supervisor** (`app_handler.dfy`, module `Apps`). `AppHandler` is a
  registry of named apps with a current name and a current task. A ghost trace
  records the calls it makes: stop, cancel, run, pause, resume, redraw, clear
  and brightness. A `Valid()` invariant says at most one app task is active.
  Every operation preserves it.
- **Legacy socket dispatcher** (`socket_conn.dfy`, module `SocketConn`).
  `MsgHandler.handle_msg` and `send_update` are loops over ordered dict
  entries. They are proved equal to folds that keep the Python locals the
  loops share. Lemmas pin down the observable quirks: no reply without
  `'get'`, only the last key kept by a specific-key get, and UnboundLocalError
  when a local is read before it is bound.
- **Snake app parameters** (`snake_app.dfy`, module `Snake`), and **DotDict**
  and **SingletonMeta** (`utils.dfy`, module `Utils`).
- **Shared pieces.** `values.dfy` (module `Values`) holds the dynamically typed
  payload value, Python exceptions as values, handler outcomes, and Python
  dict assignment on ordered entries. `display.dfy` (module `Display`) holds
  `DisplayHandler` as a sink that logs `clear` and `set_brightness` calls.

Handlers are uninterpreted function values. A call returns a value or raises
an exception (`Outcome`). The model does not fix what the handlers do; it only
proves how the core reacts to each outcome.

`SnakeApp.run` is empty (home_led_matrix/apps/snake_app/snake_app.py:17-18)
and `StreamHandler` only wraps a websocket, so there is no rendering logic to
model.

## Model

| member | source | states |
|---|---|---|
| Messages.Request.constructor | home_led_matrix/message_handler.py:31-36 | a request has type "request" and no gets, sets or actions |
| Messages.Request.Get | home_led_matrix/message_handler.py:38-39 | appends the key in call order, keeping duplicates; sets and actions unchanged |
| Messages.Request.Set | home_led_matrix/message_handler.py:41-42 | the last value set for a key wins; gets and actions unchanged |
| Messages.Request.Action | home_led_matrix/message_handler.py:44-45 | appends the action in call order, keeping duplicates; gets and sets unchanged |
| Messages.Response.constructor | home_led_matrix/message_handler.py:50-56 | a response has type "response" and four empty tables |
| Messages.Response.Get | home_led_matrix/message_handler.py:58-59 | records the value under the key; the other tables are unchanged |
| Messages.Response.Set | home_led_matrix/message_handler.py:61-62 | echoes the value under the key; the other tables are unchanged |
| Messages.Response.Action | home_led_matrix/message_handler.py:64-65 | records the result under the action; the other tables are unchanged |
| Messages.Response.Error | home_led_matrix/message_handler.py:67-68 | stores {type, error} under the key alone, replacing an earlier error for that key |
| Messages.Update.constructor | home_led_matrix/message_handler.py:73-76 | an update has type "update" and no entries |
| Messages.Update.Put | home_led_matrix/message_handler.py:78-79 | stores the value under the key |
| Messages.MessageHandler.constructor | home_led_matrix/message_handler.py:103-106 | the three registries start empty |
| Messages.MessageHandler.AddHandlers | home_led_matrix/message_handler.py:108-120 | registers only the handlers given, replaces an earlier handler of the same kind, and leaves the other registries alone |
| Messages.MessageHandler.InvokeGetter | home_led_matrix/message_handler.py:172-179 | the registered getter's outcome, or NoHandlerError "No handler for key" |
| Messages.MessageHandler.InvokeSetter | home_led_matrix/message_handler.py:163-170 | the registered setter's outcome on the value, or NoHandlerError "No handler for key" |
| Messages.MessageHandler.InvokeAction | home_led_matrix/message_handler.py:181-188 | the registered action's outcome, or NoHandlerError "No handler for action" |
| Messages.MessageHandler.HandleGets | home_led_matrix/message_handler.py:133-141 | the loop records each key in `gets` or as a "get" error, in list order |
| Messages.MessageHandler.HandleSets | home_led_matrix/message_handler.py:143-151 | the loop gives the same response whatever order the dict yields its items in |
| Messages.MessageHandler.HandleActions | home_led_matrix/message_handler.py:153-161 | the loop records "result" or an "action" error per action, in list order |
| Messages.MessageHandler.HandleMsg | home_led_matrix/message_handler.py:122-131 | a fresh response of type "response" built by gets, then sets, then actions, as Respond states |
| Messages.Queried | home_led_matrix/message_handler.py:125-128 | with "all" requested, exactly the registered getter keys are queried and the listed keys are ignored; otherwise exactly the listed keys |
| Messages.FoldGetsIsApplyGets | home_led_matrix/message_handler.py:133-141 | the gets loop records each key by its own getter's outcome; list order and repeats do not matter |
| Messages.FoldSetsIsApplySets | home_led_matrix/message_handler.py:143-151 | the sets loop echoes exactly the accepted items and records the rest as errors, in any iteration order |
| Messages.FoldActionsIsApplyActions | home_led_matrix/message_handler.py:153-161 | the actions loop records each action by its own outcome; list order and repeats do not matter |
| Messages.RespondEntries | home_led_matrix/message_handler.py:122-161 | per key: in `gets` iff queried and its getter returns; in `sets` iff its setter accepts; "result" iff its action runs; in `errors` iff some phase failed, and the action error beats the set error, which beats the get error |
| Messages.GetsPhasePlacesEachKeyOnce | home_led_matrix/message_handler.py:133-141 | after the gets phase each queried key is in exactly one of `gets` and `errors` (kind "get"); unqueried keys are in neither; a missing getter gives "No handler for key" |
| Messages.FailureIsolation | home_led_matrix/message_handler.py:133-161 | a key's response entries depend only on that key's handlers: other keys failing never changes them |
| Messages.Enumerate | home_led_matrix/message_handler.py:144 | iterating a dict's keys yields each key exactly once |
| Display.DisplayHandler.Clear | home_led_matrix/display/display_handler.py:54-55 | one more clear is logged; brightness requests unchanged |
| Display.DisplayHandler.SetBrightness | home_led_matrix/display/display_handler.py:60-64 | the value is appended to the brightness requests; clears unchanged |
| Apps.App.Pause | home_led_matrix/apps/app_handler.py:60 | a paused app is not running |
| Apps.App.Resume | home_led_matrix/apps/app_handler.py:64 | a resumed app is running |
| Apps.App.IsRunning | home_led_matrix/apps/app_handler.py:76 | reports the running flag |
| Apps.App.Stop | home_led_matrix/apps/app_handler.py:39 | `stop()` raises the app's stop error, if it has one |
| Apps.Task.CancelAndJoin | home_led_matrix/apps/app_handler.py:41-45 | the task is cancelled and awaited, with CancelledError swallowed; a task whose `run()` already ended with another exception re-raises it; either way the task is finished |
| Apps.AppHandler.constructor | home_led_matrix/apps/app_handler.py:20-23 | no apps, no current name or task; the invariant holds |
| Apps.AppHandler.AddApp | home_led_matrix/apps/app_handler.py:25-28 | a non-app raises ValueError "App must implement IAsyncApp" and changes nothing; an app is registered under the name, replacing an earlier one |
| Apps.AppHandler.CurrentApp | home_led_matrix/apps/app_handler.py:30-35 | the app registered under the current name, or None when there is no current name or it is unregistered |
| Apps.AppHandler.StopCurrentApp | home_led_matrix/apps/app_handler.py:37-48 | with a current app: calls its stop, then cancels and awaits its task, then clears the name and task; if stop raises, the task is not cancelled; if stop or the await raises, the exception propagates and the name and task stay set; without a current app a no-op; the invariant is kept |
| Apps.AppHandler.SwitchApp | home_led_matrix/apps/app_handler.py:50-56 | an unknown name raises MissingAppError "App name not found" and changes nothing; a failing stop of the old app propagates and starts nothing; otherwise the old app is fully stopped, then a fresh task runs the new app, which becomes current; only that task is active |
| Apps.AppHandler.PauseCurrentApp | home_led_matrix/apps/app_handler.py:58-60 | pauses the current app, if any |
| Apps.AppHandler.ResumeCurrentApp | home_led_matrix/apps/app_handler.py:62-64 | resumes the current app, if any |
| Apps.AppHandler.SetBrightness | home_led_matrix/apps/app_handler.py:66-69 | always forwards the value to the display, then redraws the current app if there is one |
| Apps.AppHandler.DisplayOn | home_led_matrix/apps/app_handler.py:74-81 | a toggle: a running current app is paused and the display cleared; a paused one is resumed and redrawn; without a current app nothing happens |
| Apps.AppHandler.GetDisplayOn | home_led_matrix/apps/app_handler.py:83-85 | whether the current app is running, or None without one |
| Apps.AppHandler.GetApps | home_led_matrix/apps/app_handler.py:87-88 | exactly the registered names |
| Apps.AppHandler.GetCurrentApp | home_led_matrix/apps/app_handler.py:90-91 | the current name, or None |
| Apps.AppHandler.Shutdown | home_led_matrix/apps/app_handler.py:93-94 | stops the current app, raising what stopping raises; unless it raises, afterwards there is none |
| SocketConn.MsgHandler.constructor | home_led_matrix/socket_conn.py:23-27 | empty registries and no default handler |
| SocketConn.MsgHandler.AddHandlers | home_led_matrix/socket_conn.py:29-31 | stores only a given setter or getter; a re-registered getter keeps its iteration position; the getter registry keeps distinct keys |
| SocketConn.MsgHandler.FindGetter | home_led_matrix/socket_conn.py:77 | `get_handlers[key]`: the registered getter, or the KeyError case exactly when the key is unregistered |
| SocketConn.MsgHandler.Gather | home_led_matrix/socket_conn.py:58 | `gather` raises the error of the first launched task that raises |
| SocketConn.MsgHandler.RunSet | home_led_matrix/socket_conn.py:49-58 | the 'set' branch, as SetBranch states |
| SocketConn.MsgHandler.Fallback | home_led_matrix/socket_conn.py:65-70 | the except path of a get: call the default handler, or set `get_value` to None and log a line that reads `key` |
| SocketConn.MsgHandler.RunGetAll | home_led_matrix/socket_conn.py:61-72 | the loop over every registered getter, stopping at the first exception |
| SocketConn.MsgHandler.RunGetKeyed | home_led_matrix/socket_conn.py:74-85 | the loop over the requested keys, falling back to a no-argument call on TypeError and stopping at the first exception |
| SocketConn.MsgHandler.RunGet | home_led_matrix/socket_conn.py:59-86 | the 'get' branch, as GetBranch states |
| SocketConn.MsgHandler.HandleMsg | home_led_matrix/socket_conn.py:45-87 | the whole of `handle_msg`, as Handle states: the tasks launched, the default-handler calls made, and the reply or the exception |
| SocketConn.MsgHandler.SendUpdate | home_led_matrix/socket_conn.py:36-43 | the whole of `send_update`, as Update states |
| SocketConn.SetEntries | home_led_matrix/socket_conn.py:50-57 | the 'set' loop never raises and leaves the reply and the get locals alone |
| SocketConn.FirstRaised | home_led_matrix/socket_conn.py:58 | None iff every task returns; otherwise the error of the first task that raises |
| SocketConn.AllEntries | home_led_matrix/socket_conn.py:62-72 | the 'all' loop leaves `key`, the tasks and the reply flag alone, and does nothing once an exception was raised |
| SocketConn.KeyedEntries | home_led_matrix/socket_conn.py:75-85 | the specific-key loop stores nothing in the message, and unless it raises it leaves `get_key` at the last requested key |
| SocketConn.PayloadEntries | home_led_matrix/socket_conn.py:48-86 | once an exception is raised, no later payload entry is processed |
| SocketConn.PayloadEntriesStop | home_led_matrix/socket_conn.py:48-86 | an exception ends the loop over the payload |
| SocketConn.AllEntriesStop | home_led_matrix/socket_conn.py:62-72 | an exception ends the loop over the getters |
| SocketConn.KeyedEntriesStop | home_led_matrix/socket_conn.py:75-85 | an exception ends the loop over the requested keys |
| SocketConn.UpdateStop | home_led_matrix/socket_conn.py:38-42 | an exception ends the loop of `send_update` |
| SocketConn.PayloadReplied | home_led_matrix/socket_conn.py:47-87 | without an exception, a reply exists exactly when some payload entry is 'get' |
| SocketConn.ReplyIffGet | home_led_matrix/socket_conn.py:45-87 | `handle_msg` returns None exactly when it does not raise and the payload has no 'get'; with a 'get' it returns a dict |
| SocketConn.SetEntriesLaunch | home_led_matrix/socket_conn.py:49-57 | the 'set' loop launches a task for every entry with a setter and for no other; it calls the default handler (if installed) for every entry without a setter and for no other; and it binds `key` |
| SocketConn.SetBranchRaises | home_led_matrix/socket_conn.py:49-58 | the 'set' branch raises exactly when some found setter's task raises; a missing setter never makes it raise |
| SocketConn.AllEntryStores | home_led_matrix/socket_conn.py:62-72 | an 'all' iteration that does not raise stores its key; without a default handler it stores the getter's value, or None on KeyError or TypeError |
| SocketConn.AllEntriesKeys | home_led_matrix/socket_conn.py:60-72 | the 'all' reply holds every registered getter key once, in registration order |
| SocketConn.AllEntriesValues | home_led_matrix/socket_conn.py:62-72 | without a default handler, each key of the 'all' reply carries its getter's value, or None when the getter raises KeyError or TypeError |
| SocketConn.AllBranchKeys | home_led_matrix/socket_conn.py:60-72 | a 'get' containing 'all' replies with every registered key in registration order, with the values above, whatever else it names |
| SocketConn.KeyedBranchKeepsLast | home_led_matrix/socket_conn.py:73-86 | a specific-key 'get' replies with one entry, for the last key requested; with no key requested and no earlier `get_key` it raises UnboundLocalError |
| SocketConn.KeyedEntryValue | home_led_matrix/socket_conn.py:75-85 | without a default handler, an iteration that does not raise leaves `get_key` at its key and `get_value` at the getter's value for the requested value, its no-argument value after a TypeError, or None when the key is missing or the getter raises KeyError |
| SocketConn.KeyedBranchValue | home_led_matrix/socket_conn.py:73-86 | without a default handler, a specific-key 'get' that does not raise replies with exactly one entry: the last requested key and that value |
| SocketConn.KeyedBranchStale | home_led_matrix/socket_conn.py:80-86 | with a default handler, a last key with no getter (or a KeyError) is stored with the `get_value` the earlier keys left, or raises UnboundLocalError if none bound it |
| SocketConn.KeyedStaleExample | home_led_matrix/socket_conn.py:75-86 | with a default handler and only "a" registered, `{"a": 1, "b": 2}` replies `{"b": <a's value>}` |
| SocketConn.KeyedEntriesNeedKey | home_led_matrix/socket_conn.py:80-85 | without a default handler and with `key` unbound, a specific-key get succeeds only if every requested key is answered by its getter; an unanswered first key raises UnboundLocalError on `key` |
| SocketConn.AllEntriesNeedKey | home_led_matrix/socket_conn.py:62-70 | without a default handler and with `key` unbound, the 'all' loop succeeds only if every registered getter returns |
| SocketConn.UnboundKeyExample | home_led_matrix/socket_conn.py:45-87 | `{"get": {k: v}}` for an unregistered key raises UnboundLocalError on `key`; with a 'set' entry first, the same get replies `{k: None}` |
| SocketConn.UpdateEntries | home_led_matrix/socket_conn.py:36-43 | the update holds exactly the requested keys whose getter returns, with those values |
| SocketConn.UpdateFails | home_led_matrix/socket_conn.py:36-43 | `send_update` raises exactly when some requested key's getter raises something other than KeyError; a missing key never makes it raise |
| SocketConn.UpdateUnhandled | home_led_matrix/socket_conn.py:36-43 | the keys reported to `_default_handler` are exactly the requested keys with no getter or whose getter raises KeyError |
| Snake.SnakeApp.constructor | home_led_matrix/apps/snake_app/snake_app.py:8-15 | nr_snakes = 7, food = 15, food_decay = None, fps = 10, map = None |
| Snake.SnakeApp.Stop | home_led_matrix/apps/snake_app/snake_app.py:20-22 | clears the display once |
| Snake.SnakeApp.SetFood | home_led_matrix/apps/snake_app/snake_app.py:24-28 | get_food then returns the value; no other parameter changes |
| Snake.SnakeApp.SetFoodDecay | home_led_matrix/apps/snake_app/snake_app.py:30-34 | get_food_decay then returns the value; no other parameter changes |
| Snake.SnakeApp.SetFps | home_led_matrix/apps/snake_app/snake_app.py:36-40 | get_fps then returns the value; no other parameter changes |
| Snake.SnakeApp.SetMap | home_led_matrix/apps/snake_app/snake_app.py:42-46 | get_map then returns the value; no other parameter changes |
| Snake.SnakeApp.SetNrSnakes | home_led_matrix/apps/snake_app/snake_app.py:48-52 | get_nr_snakes then returns the value; no other parameter changes |
| Snake.SnakeApp.GetMaps | home_led_matrix/apps/snake_app/snake_app.py:54-55 | always raises NotImplementedError |
| Snake.SnakeApp.Restart | home_led_matrix/apps/snake_app/snake_app.py:57-58 | always raises NotImplementedError |
| Utils.Wrap | home_led_matrix/utils.py:21-22 | a dict becomes a DotDict with the same entries; a DotDict, which is also a dict, is copied to an equal DotDict; any other value is kept |
| Utils.ReadIntoEntries | home_led_matrix/utils.py:19-23 | after read_dict every key of the other dict holds its value (a dict wrapped one level deep), and every other key is as it was |
| Utils.DotDict.GetAttr | home_led_matrix/utils.py:4-8 | `__getattr__(attr)`, which Python consults only when no attribute of that name exists, is `self[attr]` when the key exists, and AttributeError otherwise |
| Utils.DotDict.SetItem | home_led_matrix/utils.py:11 | `d[key] = value` stores the value under the key and changes no other key |
| Utils.DotDict.SetAttr | home_led_matrix/utils.py:10-11 | setting an attribute sets the key |
| Utils.DotDict.DelAttr | home_led_matrix/utils.py:13-17 | removes the key, or raises AttributeError and leaves the dict unchanged |
| Utils.DotDict.ReadDict | home_led_matrix/utils.py:19-23 | the loop leaves the dict as ReadIntoEntries describes |
| Utils.SingletonMeta.constructor | home_led_matrix/utils.py:27 | the shared `_instances` table starts empty |
| Utils.SingletonMeta.Call | home_led_matrix/utils.py:28-32 | the first call for a class constructs and caches a fresh instance with the given positional and keyword arguments; later calls return that instance and ignore their arguments |

`SnakeApp.run` (snake_app.py:17-18) is `Snake.SnakeApp.Run`. It has an empty
body, no outputs and no `modifies` clause, so it provably changes nothing.
The getters `get_food`, `get_food_decay`, `get_fps`, `get_map` and
`get_nr_snakes` (snake_app.py:27-52) are `Snake.SnakeApp.GetFood`,
`GetFoodDecay`, `GetFps`, `GetMap` and `GetNrSnakes`: each reads its own field.
What they promise together with the setters is stated in the `ensures` of each
`Set*` row above: the getter returns the value just set, and every other
parameter is unchanged.
The abstract app's `Apps.App.Run` (called at app_handler.py:56) and
`Apps.App.Redraw` (called at app_handler.py:69 and 81) are alike: they stand
for work on the app's own world, and leave the running flag, the only app
state the supervisor observes, unchanged.

## Left out

- JSON (de)serialisation: `Message.to_json`/`from_json` (home_led_matrix/message_handler.py:16-26) and `json.loads`/`dumps` in socket_conn.py. Payloads are modelled already decoded, as `Value`s.
- Socket and network I/O: `SocketHandler` (socket_conn.py:93-147), `MsgHandler.start`, and the ZeroMQ loops of connection.py. `send_update` returns the message it would send instead of writing it.
- The display driver: `DisplayHandler` wraps the foreign rgbmatrix library, so it is modelled as a sink that logs `clear` and `set_brightness` calls. `AppHandler.get_brightness` (app_handler.py:71-72) only reads the driver's brightness and is not modelled.
- Logging: log calls are not modelled. The exception is the f-string at socket_conn.py:70 and 85. It reads the local `key`, which only the 'set' loop binds. Left unbound, it raises UnboundLocalError, and the model includes that.
- asyncio scheduling: awaits, task creation, cancellation and `gather` are each treated as one atomic step, with no interleaving. A setter task ends as its outcome says. `gather` reports the first task in creation order that raises.
- Handler side effects: handlers are pure function values, so a handler's work other than its result is not modelled. Neither is a setter that raises at call time instead of inside its task.
- Event-loop details of `_stop_current_app`: the attribute `_is_running` written at app_handler.py:46 belongs to the handler, and nothing reads it, so it is not modelled.
- What an app does when its `run`, `stop`, `pause`, `resume` or `redraw` is called: an app is abstract, with only a running flag. Of its exceptions, only those of `stop` and of a `run()` that already ended are modelled. An exception from `pause`, `resume`, `redraw` or `is_running` would propagate out of the supervisor call; that is not modelled. `SnakeApp` is modelled on its own, as it is written, and is not an `Apps.App`.
- The `SingletonMeta` instance constructor: any effect of the class's `__init__` beyond storing the arguments is not modelled.
- `StreamHandler`, `PixelArtApp`, `main.py` and `setup.py`. The wiring in main.py calls `SnakeApp(args.host, args.port)` although `SnakeApp.__init__` takes no arguments. It also registers async handlers that the synchronous `MessageHandler` calls without awaiting. Neither mismatch is reproduced: handlers are abstract.
- Messages.MessageHandler.HandleMsg: the response tables are Dafny maps, so the insertion order of the Python dicts is not modelled. Neither is the order in which `"all"` iterates the getter registry. The response is proved the same for every order.
- Messages.FailureIsolation: handler failures are taken to be subclasses of `Exception`, which `except Exception` (message_handler.py:140, 150, 160) catches. A `BaseException` that is not an `Exception` (asyncio.CancelledError, KeyboardInterrupt, SystemExit) escapes `handle_msg`, aborts the batch and drops every other key's entry. Messages.RespondEntries has the same limit. The model records every raised outcome as an error entry.
- Apps.AppHandler.GetApps: returns the names as a set, not as a list in registration order.
- SocketConn.MsgHandler.SendUpdate: the stored value is the getter's outcome as if it were awaited. In the source the getter is called without `await`, so an async getter leaves an un-awaited coroutine in the message. `send_message` then runs `json.dumps` on it (socket_conn.py:100), which raises TypeError. So with an async getter the source's `send_update` raises where the model returns a message.
- SocketConn.MsgHandler.HandleMsg: with a default handler installed, `default_handler` is assumed to return normally. Its own exceptions are not modelled. Payload entries are an ordered list, so the model also covers a key listed twice, which a decoded JSON object never has.
