/** The app supervisor of home_led_matrix/apps/app_handler.py: a registry of
    named apps, the current app's name and the task running it.

    An app is abstract: the supervisor only calls it and asks whether it is
    running, so its state is reduced to the `running` flag that `pause` and
    `resume` switch. A task is started by `switch_app` and later cancelled and
    awaited as one step. The supervisor keeps a ghost trace of the calls it
    makes, so that the order of stop, cancel and start can be stated. */
module Apps {
  import opened Values
  import opened Display

  /** An app behind the IAsyncApp interface. */
  class App {
    /** Whether the object is an instance of IAsyncApp (what add_app checks). */
    const isAsyncApp: bool
    /** The exception `stop()` raises, if it raises. */
    const stopError: Option<PyError>
    /** The exception `run()` has already ended with when its task is
        cancelled, if it ended that way; None when it was still running (it is
        then cancelled, and the CancelledError is swallowed) or returned. */
    const runError: Option<PyError>
    /** What `is_running()` answers: running, as opposed to paused. */
    var running: bool

    constructor (isAsyncApp: bool, stopError: Option<PyError>, runError: Option<PyError>)
      ensures this.isAsyncApp == isAsyncApp && this.stopError == stopError && this.runError == runError
      ensures !running
    {
      this.isAsyncApp := isAsyncApp;
      this.stopError := stopError;
      this.runError := runError;
      running := false;
    }

    /** `run` and `redraw` act on the app's own world (the display, the
        stream); the part of its state the supervisor observes is unaffected. */
    method Run() {}

    /** `stop()`: what it does to the app's own world is not observed; it
        raises `stopError`, if set. */
    method Stop() returns (error: Option<PyError>)
      ensures error == stopError
    {
      error := stopError;
    }

    method Redraw() {}

    method Pause()
      modifies this
      ensures !running
    {
      running := false;
    }

    method Resume()
      modifies this
      ensures running
    {
      running := true;
    }

    method IsRunning() returns (r: bool)
      ensures r == running
    {
      r := running;
    }
  }

  datatype TaskState = Started | CancelledAndJoined

  /** The asyncio task that runs an app's `run()` coroutine. */
  class Task {
    const app: App
    var state: TaskState

    constructor (app: App)
      ensures this.app == app && state == Started
    {
      this.app := app;
      state := Started;
    }

    /** `task.cancel()` followed by `await task`, with CancelledError
        swallowed. Cancelling a task whose `run()` already ended does nothing,
        and awaiting it re-raises the exception it ended with; either way the
        task is finished afterwards. */
    method CancelAndJoin() returns (error: Option<PyError>)
      modifies this
      ensures state == CancelledAndJoined
      ensures error == app.runError
    {
      state := CancelledAndJoined;
      error := app.runError;
    }
  }

  /** A call the supervisor makes, in the order it makes them. */
  datatype Event =
    | StopCalled(app: App)
    | TaskCancelled(task: Task)
    | RunStarted(app: App, task: Task)
    | PauseCalled(app: App)
    | ResumeCalled(app: App)
    | RedrawCalled(app: App)
    | DisplayCleared
    | BrightnessSet(value: Value)

  /** How a supervisor operation ends: normally, or by raising. */
  datatype Status = Done | Failed(error: PyError)

  class AppHandler {
    const display: DisplayHandler
    var apps: map<string, App>
    var currentTask: Option<Task>
    var currentName: Option<string>
    /** The calls made so far. */
    ghost var trace: seq<Event>
    /** Every task ever started. */
    ghost var tasks: set<Task>

    /** A current name and a current task come and go together, the current name
        is registered, and every task ever started other than the current one
        has been cancelled and awaited: at most one app task is active. (The
        current task itself may be finished, when stopping it failed.) */
    ghost predicate Valid()
      reads this, tasks
    {
      && (currentName.Some? <==> currentTask.Some?)
      && (currentName.Some? ==> currentName.value in apps)
      && (currentTask.Some? ==> currentTask.value in tasks)
      && (forall t | t in tasks && Some(t) != currentTask :: t.state == CancelledAndJoined)
    }

    constructor (display: DisplayHandler)
      ensures Valid()
      ensures this.display == display
      ensures apps == map[] && currentName == None && currentTask == None
      ensures trace == [] && tasks == {}
    {
      this.display := display;
      apps := map[];
      currentTask := None;
      currentName := None;
      trace := [];
      tasks := {};
    }

    /** `_get_current_app`: the app registered under the current name, if any. */
    function CurrentApp(): (app: Option<App>)
      reads this
      ensures app.None? <==> currentName.None? || currentName.value !in apps
      ensures app.Some? ==> app.value == apps[currentName.value]
    {
      if currentName.Some? && currentName.value in apps then Some(apps[currentName.value]) else None
    }

    /** The objects a change to the current app or task may touch. */
    ghost function CurrentAppSet(): set<object>
      reads this
    {
      if CurrentApp().Some? then {CurrentApp().value} else {}
    }

    ghost function CurrentTaskSet(): set<object>
      reads this
    {
      if currentTask.Some? then {currentTask.value} else {}
    }

    /** The calls `_stop_current_app` makes: the current app's `stop`, then,
        unless `stop` raised, the cancellation of its task; nothing when there
        is no current app. */
    ghost function StopEvents(): seq<Event>
      reads this
    {
      match CurrentApp()
      case None => []
      case Some(app) =>
        [StopCalled(app)] + if app.stopError.None? && currentTask.Some? then [TaskCancelled(currentTask.value)] else []
    }

    /** The exception `_stop_current_app` raises: that of the current app's
        `stop`, or else the one awaiting its task re-raises. */
    function StopError(): Option<PyError>
      reads this
    {
      match CurrentApp()
      case None => None
      case Some(app) =>
        if app.stopError.Some? then app.stopError
        else if currentTask.Some? then currentTask.value.app.runError
        else None
    }

    method AddApp(name: string, app: App) returns (status: Status)
      requires Valid()
      modifies this`apps
      ensures Valid()
      ensures !app.isAsyncApp ==>
        status == Failed(PyError(ValueError, "App must implement IAsyncApp")) && apps == old(apps)
      ensures app.isAsyncApp ==> status == Done && apps == old(apps)[name := app]
    {
      if !app.isAsyncApp {
        return Failed(PyError(ValueError, "App must implement IAsyncApp"));
      }
      apps := apps[name := app];
      status := Done;
    }

    /** `_stop_current_app`: stop the current app, cancel and await its task, and
        forget both; a no-op when there is no current app. If `stop` raises, the
        task is not cancelled; if awaiting the task re-raises, the name and task
        stay set. */
    method StopCurrentApp() returns (status: Status)
      requires Valid()
      modifies this`currentTask, this`currentName, this`trace, CurrentTaskSet()
      ensures Valid()
      ensures trace == old(trace) + old(StopEvents())
      ensures old(StopError()).Some? ==>
        status == Failed(old(StopError()).value) && currentName == old(currentName) && currentTask == old(currentTask)
      ensures old(StopError()).None? ==> status == Done
      ensures old(CurrentApp()).None? ==> currentName == old(currentName) && currentTask == old(currentTask)
      ensures old(CurrentApp()).Some? && old(StopError()).None? ==> currentName.None? && currentTask.None?
      ensures old(currentTask).Some? ==>
        old(currentTask).value.state ==
          if old(CurrentApp()).Some? && old(CurrentApp()).value.stopError.None? then CancelledAndJoined
          else old(currentTask.value.state)
    {
      status := Done;
      var app := CurrentApp();
      if app.Some? {
        var stopError := app.value.Stop();
        trace := trace + [StopCalled(app.value)];
        if stopError.Some? {
          return Failed(stopError.value);
        }
        if currentTask.Some? {
          var task := currentTask.value;
          var joinError := task.CancelAndJoin();
          trace := trace + [TaskCancelled(task)];
          if joinError.Some? {
            return Failed(joinError.value);
          }
        }
        currentTask := None;
        currentName := None;
      }
    }

    /** `switch_app`: an unregistered name raises MissingAppError before anything
        is stopped; otherwise the current app is fully stopped (stop, then cancel
        and await its task) before the new app's `run` task is started. When
        stopping raises, the exception propagates and no new app is started. */
    method SwitchApp(name: string) returns (status: Status)
      requires Valid()
      modifies this`currentTask, this`currentName, this`trace, this`tasks, CurrentTaskSet()
      ensures Valid()
      ensures name !in apps ==>
        && status == Failed(PyError(MissingAppError, "App " + name + " not found"))
        && currentName == old(currentName) && currentTask == old(currentTask) && trace == old(trace)
        && (old(currentTask).Some? ==> old(currentTask).value.state == old(currentTask.value.state))
      ensures name in apps && old(StopError()).Some? ==>
        && status == Failed(old(StopError()).value)
        && currentName == old(currentName) && currentTask == old(currentTask)
        && trace == old(trace) + old(StopEvents())
        && old(CurrentApp()).Some?
        && (old(currentTask).Some? ==>
              old(currentTask).value.state ==
                if old(CurrentApp()).value.stopError.None? then CancelledAndJoined else old(currentTask.value.state))
      ensures name in apps && old(StopError()).None? ==>
        && status == Done
        && currentName == Some(name)
        && currentTask.Some? && fresh(currentTask.value)
        && currentTask.value.app == apps[name] && currentTask.value.state == Started
        && trace == old(trace) + old(StopEvents()) + [RunStarted(apps[name], currentTask.value)]
        && (old(currentTask).Some? ==> old(currentTask).value.state == CancelledAndJoined)
    {
      if name !in apps {
        return Failed(PyError(MissingAppError, "App " + name + " not found"));
      }
      var next := apps[name];
      status := StopCurrentApp();
      if status.Failed? {
        return;
      }
      currentName := Some(name);
      next.Run();
      var task := new Task(next);
      currentTask := Some(task);
      tasks := tasks + {task};
      trace := trace + [RunStarted(next, task)];
    }

    method PauseCurrentApp()
      requires Valid()
      modifies this`trace, CurrentAppSet()
      ensures Valid()
      ensures old(CurrentApp()).None? ==> trace == old(trace)
      ensures old(CurrentApp()).Some? ==>
        !CurrentApp().value.running && trace == old(trace) + [PauseCalled(CurrentApp().value)]
    {
      var app := CurrentApp();
      if app.Some? {
        app.value.Pause();
        trace := trace + [PauseCalled(app.value)];
      }
    }

    method ResumeCurrentApp()
      requires Valid()
      modifies this`trace, CurrentAppSet()
      ensures Valid()
      ensures old(CurrentApp()).None? ==> trace == old(trace)
      ensures old(CurrentApp()).Some? ==>
        CurrentApp().value.running && trace == old(trace) + [ResumeCalled(CurrentApp().value)]
    {
      var app := CurrentApp();
      if app.Some? {
        app.value.Resume();
        trace := trace + [ResumeCalled(app.value)];
      }
    }

    /** Always forwards the brightness to the display; asks the current app, if
        any, to redraw afterwards. */
    method SetBrightness(value: Value)
      requires Valid()
      modifies this`trace, display
      ensures Valid()
      ensures display.brightnessRequests == old(display.brightnessRequests) + [value]
      ensures display.clears == old(display.clears)
      ensures trace == old(trace) + [BrightnessSet(value)] +
        if CurrentApp().Some? then [RedrawCalled(CurrentApp().value)] else []
    {
      display.SetBrightness(value);
      trace := trace + [BrightnessSet(value)];
      var app := CurrentApp();
      if app.Some? {
        app.value.Redraw();
        trace := trace + [RedrawCalled(app.value)];
      }
    }

    /** `display_on` is a toggle: a running current app is paused and the display
        cleared; a paused one is resumed and then redrawn; with no current app
        nothing happens. */
    method DisplayOn()
      requires Valid()
      modifies this`trace, display, CurrentAppSet()
      ensures Valid()
      ensures old(CurrentApp()).None? ==> trace == old(trace) && display.clears == old(display.clears)
      ensures old(CurrentApp()).Some? && old(CurrentApp().value.running) ==>
        && !CurrentApp().value.running
        && display.clears == old(display.clears) + 1
        && trace == old(trace) + [PauseCalled(CurrentApp().value), DisplayCleared]
      ensures old(CurrentApp()).Some? && !old(CurrentApp().value.running) ==>
        && CurrentApp().value.running
        && display.clears == old(display.clears)
        && trace == old(trace) + [ResumeCalled(CurrentApp().value), RedrawCalled(CurrentApp().value)]
      ensures display.brightnessRequests == old(display.brightnessRequests)
    {
      var app := CurrentApp();
      if app.Some? {
        var running := app.value.IsRunning();
        if running {
          app.value.Pause();
          display.Clear();
          trace := trace + [PauseCalled(app.value), DisplayCleared];
        } else {
          app.value.Resume();
          app.value.Redraw();
          trace := trace + [ResumeCalled(app.value), RedrawCalled(app.value)];
        }
      }
    }

    /** `get_display_on`: whether the current app is running; None without one. */
    method GetDisplayOn() returns (on: Option<bool>)
      ensures CurrentApp().None? ==> on == None
      ensures CurrentApp().Some? ==> on == Some(CurrentApp().value.running)
    {
      var app := CurrentApp();
      if app.Some? {
        var running := app.value.IsRunning();
        on := Some(running);
      } else {
        on := None;
      }
    }

    method GetApps() returns (names: set<string>)
      ensures names == apps.Keys
    {
      names := apps.Keys;
    }

    method GetCurrentApp() returns (name: Option<string>)
      ensures name == currentName
    {
      name := currentName;
    }

    /** `shutdown`: stop the current app; unless stopping raises, afterwards
        there is none. */
    method Shutdown() returns (status: Status)
      requires Valid()
      modifies this`currentTask, this`currentName, this`trace, CurrentTaskSet()
      ensures Valid()
      ensures status == if old(StopError()).Some? then Failed(old(StopError()).value) else Done
      ensures status.Done? ==> currentName.None? && currentTask.None?
      ensures status.Failed? ==> currentName == old(currentName) && currentTask == old(currentTask)
      ensures old(currentTask).Some? ==>
        old(currentTask).value.state ==
          if old(CurrentApp()).Some? && old(CurrentApp()).value.stopError.None? then CancelledAndJoined
          else old(currentTask.value.state)
      ensures trace == old(trace) + old(StopEvents())
    {
      status := StopCurrentApp();
    }
  }

  /** Switching from "a" to "b": "a" is stopped exactly once and its task is
      cancelled before "b" is started, and only b's task is left active.
      Toggling the display twice leaves the app as it was. */
  method SwitchScenario(display: DisplayHandler)
    modifies display
  {
    var handler := new AppHandler(display);
    var a := new App(true, None, None);
    var b := new App(true, None, None);
    var _ := handler.AddApp("a", a);
    var _ := handler.AddApp("b", b);
    var s := handler.SwitchApp("a");
    var ta := handler.currentTask.value;
    s := handler.SwitchApp("b");
    var tb := handler.currentTask.value;
    assert handler.trace == [RunStarted(a, ta), StopCalled(a), TaskCancelled(ta), RunStarted(b, tb)];
    assert ta.state == CancelledAndJoined && tb.state == Started;
    s := handler.SwitchApp("c");
    assert s.Failed? && handler.currentName == Some("b");
    var before := b.running;
    handler.DisplayOn();
    handler.DisplayOn();
    assert b.running == before;
  }

  /** Switching away from an app whose `run()` already ended with an error
      cancels its task, re-raises that error, leaves that app current and
      starts nothing. */
  method FailedRunScenario(display: DisplayHandler)
    modifies display
  {
    var handler := new AppHandler(display);
    var broken := PyError(OtherError("RuntimeError"), "boom");
    var b := new App(true, None, None);
    var d := new App(true, None, Some(broken));
    var _ := handler.AddApp("b", b);
    var _ := handler.AddApp("d", d);
    var s := handler.SwitchApp("d");
    var td := handler.currentTask.value;
    s := handler.SwitchApp("b");
    assert s == Failed(broken);
    assert handler.currentName == Some("d") && handler.currentTask == Some(td);
    assert td.state == CancelledAndJoined;
  }

  /** Switching away from an app whose `stop` raises does not even cancel its
      task: that app stays current with its task still running. */
  method FailedStopScenario(display: DisplayHandler)
    modifies display
  {
    var handler := new AppHandler(display);
    var broken := PyError(OtherError("RuntimeError"), "boom");
    var b := new App(true, None, None);
    var e := new App(true, Some(broken), None);
    var _ := handler.AddApp("b", b);
    var _ := handler.AddApp("e", e);
    var s := handler.SwitchApp("e");
    var te := handler.currentTask.value;
    s := handler.SwitchApp("b");
    assert s == Failed(broken);
    assert handler.trace == [RunStarted(e, te), StopCalled(e)];
    assert handler.currentName == Some("e") && te.state == Started;
  }
}
