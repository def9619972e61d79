/**
 * The supervised work loop of an `Oot` device (`_run` with `check_key`):
 * fetch a work item, normalise it into a key and a context, dispatch the key
 * through the connection or report that there is none, until something
 * raises; then call the `exit` hook once.
 *
 * The hooks and the connection are scripted: iteration `i` uses `script[i]`.
 */
module DeviceLoop {
  import opened Wrappers
  import opened Json
  import opened Trace

  /** Keyword arguments. */
  type Context = map<string, Value>

  /** What a call to a hook or collaborator did: returned a value, or raised. */
  datatype Outcome<T> = Returned(value: T) | Raised(fault: Fault)

  /**
   * One iteration's collaborators: what `get_data` gives, what
   * `execute_action` answers if a key is dispatched, and whether the
   * `process_result` or `no_key` hook then raises.
   */
  datatype Step = Step(fetched: Outcome<Value>, answer: Outcome<Value>, hookFault: Option<Fault>)

  /** A normalised work item: the key and the keyword arguments for the hooks. */
  datatype WorkItem = WorkItem(key: Value, context: Context)

  /**
   * `dict.update` with an argument that is not a dict and still neither raises
   * nor changes anything: an empty list or the empty string.
   */
  predicate EmptyUpdate(extra: Value) {
    extra == Arr([]) || extra == Str("")
  }

  /**
   * Normalising a work item: the hooks get a copy of the keyword arguments;
   * for a list or tuple, its first element is the key and its second updates
   * that copy. The copy is shallow: nested values stay shared with the caller.
   */
  function Normalize(kwargs: Context, fetched: Value): (r: Outcome<WorkItem>)
    ensures !fetched.Arr? ==> r == Returned(WorkItem(fetched, kwargs))
    ensures fetched.Arr? && |fetched.items| < 2 ==> r == Raised(Error(IndexOutOfRange))
    ensures fetched.Arr? && |fetched.items| >= 2 && EmptyUpdate(fetched.items[1]) ==>
      r == Returned(WorkItem(fetched.items[0], kwargs))
    ensures fetched.Arr? && |fetched.items| >= 2 && !fetched.items[1].Obj? && !EmptyUpdate(fetched.items[1]) ==>
      r == Raised(Error(BadUpdate))
    ensures fetched.Arr? && |fetched.items| >= 2 && fetched.items[1].Obj? ==>
      var extra := fetched.items[1].members;
      && r.Returned?
      && r.value.key == fetched.items[0]
      && r.value.context.Keys == kwargs.Keys + extra.Keys
      && (forall k :: k in extra ==> r.value.context[k] == extra[k])
      && (forall k :: k in kwargs && k !in extra ==> r.value.context[k] == kwargs[k])
  {
    if !fetched.Arr? then Returned(WorkItem(fetched, kwargs))
    else if |fetched.items| < 2 then Raised(Error(IndexOutOfRange))
    else match fetched.items[1]
      case Obj(extra) => Returned(WorkItem(fetched.items[0], kwargs + extra))
      case _ =>
        if EmptyUpdate(fetched.items[1]) then Returned(WorkItem(fetched.items[0], kwargs))
        else Raised(Error(BadUpdate))
  }

  /** `check_key`: the key goes to `execute_action` with `oot_input` from the context, else the device's default. */
  function CheckKey(key: Value, context: Context, ootInput: Value): Event {
    Executed(key, DictGet(context, "oot_input", ootInput))
  }

  /** What one iteration did, and the exception that ended it, if any. */
  datatype Round = Round(events: seq<Event>, stop: Option<Fault>)

  /** One iteration of the `while True` body. */
  function Iteration(kwargs: Context, ootInput: Value, step: Step): Round {
    var fetch := [GetData(kwargs)];
    match step.fetched
    case Raised(f) => Round(fetch, Some(f))
    case Returned(got) =>
      match Normalize(kwargs, got)
      case Raised(f) => Round(fetch, Some(f))
      case Returned(item) =>
        if Truthy(item.key) then
          var asked := fetch + [CheckKey(item.key, item.context, ootInput)];
          match step.answer
          case Raised(f) => Round(asked, Some(f))
          case Returned(result) =>
            Round(asked + [ProcessedResult(item.key, result, item.context)], step.hookFault)
        else
          Round(fetch + [NoKey(item.context)], step.hookFault)
  }

  /** Iterations until one raises or the script ends. */
  function Rounds(kwargs: Context, ootInput: Value, script: seq<Step>): Round
    decreases |script|
  {
    if script == [] then Round([], None)
    else
      var first := Iteration(kwargs, ootInput, script[0]);
      if first.stop.Some? then first
      else
        var rest := Rounds(kwargs, ootInput, script[1..]);
        Round(first.events + rest.events, rest.stop)
  }

  /**
   * How `_run` ended: the script ran out with the loop still going; a
   * `KeyboardInterrupt` made it return normally; an exception was logged and
   * re-raised; or a `BaseException` neither handler catches went straight through.
   */
  datatype LoopExit = StillRunning | ReturnedAfterInterrupt | Reraised(kind: ErrorKind) | Propagated

  datatype Supervised = Supervised(trace: seq<Event>, exit: LoopExit)

  /**
   * The two exception handlers around the loop: `except KeyboardInterrupt`
   * and `except Exception`. Any other `BaseException` passes both.
   */
  function Handled(kwargs: Context, r: Round): Supervised {
    match r.stop
    case None => Supervised(r.events, StillRunning)
    case Some(Interrupt) =>
      Supervised(r.events + [LoggedInfo(EXITING_MESSAGE), Exited(kwargs)], ReturnedAfterInterrupt)
    case Some(Error(kind)) =>
      Supervised(r.events + [LoggedError, LoggedInfo(EXITING_AFTER_ERROR_MESSAGE), Exited(kwargs)], Reraised(kind))
    case Some(Uncaught) => Supervised(r.events, Propagated)
  }

  /** The loop with its exception handlers. */
  function Supervision(kwargs: Context, ootInput: Value, script: seq<Step>): Supervised {
    Handled(kwargs, Rounds(kwargs, ootInput, script))
  }

  /** The body of the `while True` loop for one step. */
  method RunIteration(kwargs: Context, ootInput: Value, step: Step)
    returns (events: seq<Event>, stop: Option<Fault>)
    ensures Round(events, stop) == Iteration(kwargs, ootInput, step)
  {
    events := [GetData(kwargs)];
    stop := None;
    match step.fetched {
      case Raised(f) =>
        stop := Some(f);
      case Returned(got) =>
        var key := got;
        var keyVals := kwargs;
        if got.Arr? {
          if |got.items| < 2 {
            return events, Some(Error(IndexOutOfRange));
          }
          match got.items[1] {
            case Obj(extra) =>
              key := got.items[0];
              keyVals := keyVals + extra;
            case _ =>
              if !EmptyUpdate(got.items[1]) {
                return events, Some(Error(BadUpdate));
              }
              key := got.items[0];
          }
        }
        if Truthy(key) {
          events := events + [CheckKey(key, keyVals, ootInput)];
          match step.answer {
            case Raised(f) =>
              stop := Some(f);
            case Returned(result) =>
              events := events + [ProcessedResult(key, result, keyVals)];
              stop := step.hookFault;
          }
        } else {
          events := events + [NoKey(keyVals)];
          stop := step.hookFault;
        }
    }
  }

  /** `_run`: the loop over the scripted collaborators, with its exception handlers. */
  method SuperviseLoop(kwargs: Context, ootInput: Value, script: seq<Step>)
    returns (exit: LoopExit, trace: seq<Event>)
    ensures Supervised(trace, exit) == Supervision(kwargs, ootInput, script)
  {
    trace := [];
    var stop: Option<Fault> := None;
    var i := 0;
    while i < |script| && stop.None?
      invariant 0 <= i <= |script|
      invariant stop.None? ==>
        Rounds(kwargs, ootInput, script) == Round(trace + Rounds(kwargs, ootInput, script[i..]).events,
                                                  Rounds(kwargs, ootInput, script[i..]).stop)
      invariant stop.Some? ==> Rounds(kwargs, ootInput, script) == Round(trace, stop)
      decreases |script| - i
    {
      var events;
      events, stop := RunIteration(kwargs, ootInput, script[i]);
      RoundsStep(kwargs, ootInput, script, i, trace, events, stop);
      trace := trace + events;
      i := i + 1;
    }
    if stop.None? {
      assert script[i..] == [];
    }
    exit, trace := HandleExit(kwargs, trace, stop);
  }

  /**
   * One more step of the loop keeps the accumulated trace in line with
   * `Rounds`: the iteration's events are appended, then either the rest of the
   * script follows or the iteration's exception ends it.
   */
  lemma RoundsStep(kwargs: Context, ootInput: Value, script: seq<Step>, i: nat,
                   trace: seq<Event>, events: seq<Event>, stop: Option<Fault>)
    requires i < |script| && Round(events, stop) == Iteration(kwargs, ootInput, script[i])
    requires Rounds(kwargs, ootInput, script) == Round(trace + Rounds(kwargs, ootInput, script[i..]).events,
                                                       Rounds(kwargs, ootInput, script[i..]).stop)
    ensures stop.None? ==>
      Rounds(kwargs, ootInput, script) == Round((trace + events) + Rounds(kwargs, ootInput, script[i + 1..]).events,
                                                Rounds(kwargs, ootInput, script[i + 1..]).stop)
    ensures stop.Some? ==> Rounds(kwargs, ootInput, script) == Round(trace + events, stop)
  {
    assert script[i..][1..] == script[i + 1..];
    var rest := Rounds(kwargs, ootInput, script[i + 1..]);
    assert trace + (events + rest.events) == (trace + events) + rest.events;
  }

  /** The `except` clauses of `_run`, given what the loop did and what ended it. */
  method HandleExit(kwargs: Context, events: seq<Event>, stop: Option<Fault>)
    returns (exit: LoopExit, trace: seq<Event>)
    ensures Supervised(trace, exit) == Handled(kwargs, Round(events, stop))
  {
    trace := events;
    match stop {
      case None =>
        exit := StillRunning;
      case Some(Interrupt) =>
        trace := trace + [LoggedInfo(EXITING_MESSAGE), Exited(kwargs)];
        exit := ReturnedAfterInterrupt;
      case Some(Error(kind)) =>
        trace := trace + [LoggedError, LoggedInfo(EXITING_AFTER_ERROR_MESSAGE), Exited(kwargs)];
        exit := Reraised(kind);
      case Some(Uncaught) =>
        exit := Propagated;
    }
  }

  // ---------------------------------------------------------------------------
  // Properties of the loop

  /**
   * The trace shape the loop keeps: every `get_data` call sees the caller's
   * context, the `exit` hook is not called, and each `process_result` call
   * comes right after the `execute_action` call that produced its result.
   */
  predicate LoopShape(events: seq<Event>, kwargs: Context, ootInput: Value) {
    && (forall i :: 0 <= i < |events| ==> !events[i].Exited?)
    && (forall i :: 0 <= i < |events| && events[i].GetData? ==> events[i].context == kwargs)
    && (forall i :: 0 <= i < |events| && events[i].ProcessedResult? ==>
          0 < i && events[i - 1] == Executed(events[i].key, DictGet(events[i].context, "oot_input", ootInput)))
  }

  lemma IterationShape(kwargs: Context, ootInput: Value, step: Step)
    ensures var ev := Iteration(kwargs, ootInput, step).events;
      ev != [] && ev[0] == GetData(kwargs) && LoopShape(ev, kwargs, ootInput)
  {
  }

  lemma ShapeAppend(a: seq<Event>, b: seq<Event>, kwargs: Context, ootInput: Value)
    requires LoopShape(a, kwargs, ootInput) && LoopShape(b, kwargs, ootInput)
    requires b != [] ==> b[0].GetData?
    ensures LoopShape(a + b, kwargs, ootInput)
  {
    var all := a + b;
    forall i | 0 <= i < |all| && all[i].ProcessedResult?
      ensures 0 < i && all[i - 1] == Executed(all[i].key, DictGet(all[i].context, "oot_input", ootInput))
    {
      if i >= |a| {
        assert all[i] == b[i - |a|];
        assert i - |a| > 0;
        assert all[i - 1] == b[i - 1 - |a|];
      }
    }
    forall i | 0 <= i < |all| ensures !all[i].Exited? && (all[i].GetData? ==> all[i].context == kwargs) {
      if i >= |a| {
        assert all[i] == b[i - |a|];
      }
    }
  }

  lemma {:induction false} RoundsShape(kwargs: Context, ootInput: Value, script: seq<Step>)
    ensures var ev := Rounds(kwargs, ootInput, script).events;
      LoopShape(ev, kwargs, ootInput) && (ev != [] ==> ev[0] == GetData(kwargs))
    decreases |script|
  {
    if script != [] {
      var first := Iteration(kwargs, ootInput, script[0]);
      IterationShape(kwargs, ootInput, script[0]);
      if first.stop.None? {
        var rest := Rounds(kwargs, ootInput, script[1..]);
        RoundsShape(kwargs, ootInput, script[1..]);
        ShapeAppend(first.events, rest.events, kwargs, ootInput);
      }
    }
  }

  function ExitCount(events: seq<Event>): nat {
    if events == [] then 0 else (if events[0].Exited? then 1 else 0) + ExitCount(events[1..])
  }

  lemma {:induction false} ExitCountAppend(a: seq<Event>, b: seq<Event>)
    ensures ExitCount(a + b) == ExitCount(a) + ExitCount(b)
  {
    if a == [] {
      assert a + b == b;
    } else {
      assert (a + b)[1..] == a[1..] + b;
      ExitCountAppend(a[1..], b);
    }
  }

  lemma {:induction false} NoExitCountsZero(events: seq<Event>)
    requires forall i :: 0 <= i < |events| ==> !events[i].Exited?
    ensures ExitCount(events) == 0
  {
    if events != [] {
      NoExitCountsZero(events[1..]);
    }
  }

  /**
   * When a `KeyboardInterrupt` or an `Exception` ends the loop, the `exit` hook
   * is called exactly once, last, with the caller's original keyword
   * arguments; every `get_data` call got those too, so the caller's top-level
   * mapping is never changed (nested values are shared, see `Normalize`). While the loop still runs, or when a `BaseException` that
   * neither handler catches goes through, `exit` is not called.
   */
  lemma ExitHookOnce(kwargs: Context, ootInput: Value, script: seq<Step>)
    ensures var s := Supervision(kwargs, ootInput, script);
      && (forall i :: 0 <= i < |s.trace| && s.trace[i].GetData? ==> s.trace[i].context == kwargs)
      && (s.exit == StillRunning || s.exit == Propagated ==> ExitCount(s.trace) == 0)
      && (s.exit.ReturnedAfterInterrupt? || s.exit.Reraised? ==>
            ExitCount(s.trace) == 1 && s.trace[|s.trace| - 1] == Exited(kwargs))
  {
    var r := Rounds(kwargs, ootInput, script);
    RoundsShape(kwargs, ootInput, script);
    NoExitCountsZero(r.events);
    var s := Supervision(kwargs, ootInput, script);
    if r.stop.Some? && !r.stop.value.Uncaught? {
      var logs := if r.stop.value.Interrupt? then [LoggedInfo(EXITING_MESSAGE)]
                  else [LoggedError, LoggedInfo(EXITING_AFTER_ERROR_MESSAGE)];
      assert s.trace == (r.events + logs) + [Exited(kwargs)];
      NoExitCountsZero(logs);
      ExitCountAppend(r.events, logs);
      ExitCountAppend(r.events + logs, [Exited(kwargs)]);
      assert ExitCount([Exited(kwargs)]) == 1;
      forall i | 0 <= i < |s.trace| && s.trace[i].GetData? ensures s.trace[i].context == kwargs {
        if i < |r.events| {
          assert s.trace[i] == r.events[i];
        }
      }
    }
  }

  /** Each `process_result` call comes right after the `execute_action` call that produced its result. */
  lemma ResultFollowsExecution(kwargs: Context, ootInput: Value, script: seq<Step>)
    ensures var ev := Supervision(kwargs, ootInput, script).trace;
      forall i :: 0 <= i < |ev| && ev[i].ProcessedResult? ==>
        0 < i && ev[i - 1] == Executed(ev[i].key, DictGet(ev[i].context, "oot_input", ootInput))
  {
    var r := Rounds(kwargs, ootInput, script);
    RoundsShape(kwargs, ootInput, script);
    var ev := Supervision(kwargs, ootInput, script).trace;
    forall i | 0 <= i < |ev| && ev[i].ProcessedResult?
      ensures 0 < i && ev[i - 1] == Executed(ev[i].key, DictGet(ev[i].context, "oot_input", ootInput))
    {
      assert i < |r.events| && ev[i] == r.events[i] && ev[i - 1] == r.events[i - 1];
    }
  }

  /**
   * The first iteration that raises ends the loop: the steps after it are
   * never used, and what was raised decides how `_run` ends — a
   * `KeyboardInterrupt` returns normally, an `Exception` is re-raised, and any
   * other `BaseException` passes through.
   */
  lemma {:induction false} FirstFaultEndsLoop(kwargs: Context, ootInput: Value, script: seq<Step>, n: nat)
    requires n < |script|
    requires forall j :: 0 <= j < n ==> Iteration(kwargs, ootInput, script[j]).stop.None?
    requires Iteration(kwargs, ootInput, script[n]).stop.Some?
    ensures Rounds(kwargs, ootInput, script) == Rounds(kwargs, ootInput, script[..n + 1])
    ensures Rounds(kwargs, ootInput, script).stop == Iteration(kwargs, ootInput, script[n]).stop
    ensures Supervision(kwargs, ootInput, script).exit ==
      (match Iteration(kwargs, ootInput, script[n]).stop.value
       case Interrupt => ReturnedAfterInterrupt
       case Error(kind) => Reraised(kind)
       case Uncaught => Propagated)
    decreases n
  {
    if n > 0 {
      assert script[1..][..n] == script[..n + 1][1..];
      FirstFaultEndsLoop(kwargs, ootInput, script[1..], n - 1);
      assert Iteration(kwargs, ootInput, script[0]).stop.None?;
      assert script[..n + 1][0] == script[0];
    }
  }

  /**
   * A `(key, extra)` work item with a truthy key: `execute_action` gets the
   * key, and `process_result` gets the key, the action's result and the
   * caller's context with `extra` merged over it.
   */
  lemma DispatchesPair(kwargs: Context, ootInput: Value, key: Value, extra: Context, more: seq<Value>,
                       result: Value, hookFault: Option<Fault>)
    requires Truthy(key)
    ensures var merged := kwargs + extra;
      Iteration(kwargs, ootInput, Step(Returned(Arr([key, Obj(extra)] + more)), Returned(result), hookFault))
      == Round([GetData(kwargs), Executed(key, DictGet(merged, "oot_input", ootInput)),
                ProcessedResult(key, result, merged)], hookFault)
  {
  }

  /** A falsy work item goes to the `no_key` hook with the caller's context. */
  lemma NoKeyForFalsyItem(kwargs: Context, ootInput: Value, fetched: Value, answer: Outcome<Value>,
                          hookFault: Option<Fault>)
    requires !Truthy(fetched) && !fetched.Arr?
    ensures Iteration(kwargs, ootInput, Step(Returned(fetched), answer, hookFault))
      == Round([GetData(kwargs), NoKey(kwargs)], hookFault)
  {
  }

  /**
   * A `process_result` hook that raises on the first item: the exception is
   * logged, `exit` gets the caller's context, and the exception is re-raised.
   */
  lemma HookErrorIsReraised(kwargs: Context, ootInput: Value, key: Value, result: Value, rest: seq<Step>)
    requires Truthy(key) && !key.Arr?
    ensures var first := Step(Returned(key), Returned(result), Some(Error(HookFailed)));
      Supervision(kwargs, ootInput, [first] + rest)
      == Supervised([GetData(kwargs), Executed(key, DictGet(kwargs, "oot_input", ootInput)),
                     ProcessedResult(key, result, kwargs),
                     LoggedError, LoggedInfo(EXITING_AFTER_ERROR_MESSAGE), Exited(kwargs)],
                    Reraised(HookFailed))
  {
  }
}
