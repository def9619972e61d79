# Oot device runtime, modelled in Dafny

This project models the core of `Oot` (`oot/oot.py`): the base class of a device agent that connects to a server and then processes work in a loop. It models five parts.

- **Field table** (`fields.dfy`, module `FieldTable`). Each class along the method resolution order may declare a `fields` dictionary. The constructor merges them: only classes derived from `Oot` take part, and the most-derived declaration of a name wins. `Field` class attributes then override those entries. The table is finally sorted stably by `sequence`, where a missing `sequence` counts as 10. The MRO is an explicit list of layers, most-derived first. A layer's `fields` is what `clss.fields` finds, and that lookup follows inheritance: an `Oot`-derived class without its own `fields` repeats the one it inherits, even from a base that is not derived from `Oot`. The `Field` attributes come in `getmembers` order, sorted by attribute name. That order decides where new names are appended and how entries with equal `sequence` are ordered. The table is a sequence of `(name, descriptor)` pairs. The merge and override loops are methods, proved against specification functions. Three lemmas give the sort its meaning:
  - the result is sorted;
  - it is a permutation of the input;
  - each sequence value keeps its entries in merge order, which fixes the result uniquely.
- **Interface wait** (`readiness.dfy`, module `NetworkReadiness`). While a testing configuration loads, the device queries `is_interface_up("wlan0")` once. It then re-queries up to 20 times, sleeping before each re-query. It stops early on the first answer with a truthy `addr`.
- **Supervised loop** (`loop.dfy`, module `DeviceLoop`). This covers `_run` with `check_key`. Each iteration normalises the work item into a key and a context, then dispatches it to `execute_action` and `process_result`, or to `no_key`. A `KeyboardInterrupt` and any other exception are handled differently.
- **Service toggle** (`service.dfy`, module `ServiceControl`). This is the list of `systemctl` commands that `toggle_service`, `stop_service` and `start_service` issue. A small semantics of what those commands do to a unit gives the lists their meaning.
- **The device object** (`oot.dfy`, module `Device`). This covers:
  - the constructor's argument dispatch;
  - `generate_connection`;
  - `run`: provisioning from the configuration file, building the connection, then the loop.

`Oot` is a class whose methods update its fields. The world outside it is a class `Host`, which holds the configuration file, a log of observable effects and a count of initializer calls. Every method is proved equal to a pure function of the old state (`Generate`, `Provisioning`, `Running`). The lemmas state what `run` promises about those functions.

The collaborators that are not modelled are scripted inputs:
- `Oracles.setups`: the file each call of the setup initializer leaves behind;
- `Oracles.answers`: the answers of `is_interface_up`;
- `Oracles.verdict`: what `check_configuration` writes into the parameters, and whether it raises;
- `Step`: per loop iteration, what `get_data` and `execute_action` return or raise, and whether a hook raises.

## Behaviour worth knowing

The code has four behaviours that a reader of `run` might not expect:
- **Missing file.** After the initializer runs, `run` does not stop. It reads the configuration path anyway:
  - if the initializer created the file, its contents are used in the same call (`CreatedFileIsRead`, `CreatedTestingFilePersists`, `CreatedTestingFileFailsRecovers`);
  - otherwise `open` raises out of `run` (`MissingFileInitializesOnce`, `MissingFileNoIterations`).
- **Failed testing load.** A testing load that times out or fails the check keeps the loaded parameters in `connection_data`. The same `run` then builds a connection from them and enters the loop (`RejectedConfigurationStillConnects`).
- **Corrupt file.** A parse error, or the `.get` on a value that is not a dict, happens outside the `try`. It escapes from `run` and the file stays in place (`ProvisioningRaisesOnlyWhileLoading`).
- **Interface wait.** The wait makes up to 21 queries. It times out when its counter reaches 20, even if the last query reported an address (`TimesOutDespiteLastAnswer`).

In the loop, only a `KeyboardInterrupt` and an `Exception` are handled. Any other `BaseException` (`SystemExit`, `GeneratorExit`; the fault `Uncaught`) passes through `_run` with no log entry and no `exit` call. The loop's exit is then `Propagated`.

## Model

| member | source | states |
|---|---|---|
| FieldTable.MergeLayers | oot/oot.py:46-51 | the merge loop over the MRO returns exactly the specified merge `Merged(mro)` |
| FieldTable.MergedMostDerivedWins | oot/oot.py:46-51 | each name maps to the descriptor of the first `Oot`-derived layer that declares it; the names are exactly those of `Oot`-derived layers, once each |
| FieldTable.MergedAgreesWithFold | oot/oot.py:46-51 | the first-wins merge from the most-derived end equals a fold from the base in which later layers overwrite earlier ones |
| FieldTable.ApplyFieldAttributes | oot/oot.py:56-58 | the override loop returns the specified assignment of every `(attr, item.generate())` pair to the table |
| FieldTable.AttributesOverride | oot/oot.py:56-58 | after the overrides, a name declared by a `Field` attribute has that attribute's descriptor, and every other name keeps its merged descriptor; names stay distinct |
| FieldTable.SortIsStable | oot/oot.py:59-61 | sorting by `sequence` (missing counts as 10) gives an ordered table that is a permutation of its input, and keeps the entries of each sequence value in input order |
| FieldTable.StableSortIsUnique | oot/oot.py:59-61 | any ordered table that keeps every sequence value's entries in input order is the sorted table |
| FieldTable.SortKeepsLookup | oot/oot.py:59-61 | sorting a table of distinct names leaves every name's descriptor and the name set unchanged |
| FieldTable.FieldTableContents | oot/oot.py:46-61 | `_fields` holds each merged or overridden name exactly once, with the `Field` attribute's descriptor or else the most-derived declaration, sorted stably by `sequence` |
| NetworkReadiness.ChecksTaken | oot/oot.py:118-128 | the final counter is at most 20, every earlier query reported no address, and below 20 the query at that counter reported one |
| NetworkReadiness.WaitForInterface | oot/oot.py:118-127 | the wait loop stops with the counter `ChecksTaken` and records one query followed by a sleep and a query per increment |
| NetworkReadiness.QueriesAndSleeps | oot/oot.py:119-127 | a wait that stops at counter `c` queries the interface `c + 1` times and sleeps `c` times |
| NetworkReadiness.ReadyOnFirstAddress | oot/oot.py:120-125 | the wait stops at the first query below 20 that reports an address |
| NetworkReadiness.TimesOutDespiteLastAnswer | oot/oot.py:120-129 | twenty answers without an address followed by one with an address still end with the counter at 20, the failing value |
| DeviceLoop.Normalize | oot/oot.py:148-153 | a non-list item is the key with a copy of the caller's context; a list yields element 0 and the context with element 1 merged over it (extras win); an empty dict, list or string as element 1 leaves the context as it is; a short list or any other extra raises |
| DeviceLoop.RunIteration | oot/oot.py:148-158 | one pass of the loop body produces exactly the specified iteration's calls and its stopping exception |
| DeviceLoop.SuperviseLoop | oot/oot.py:145-168 | the loop with its handlers yields exactly the specified trace and exit over the scripted steps |
| DeviceLoop.HandleExit | oot/oot.py:159-168 | the handlers: an interrupt logs `Exiting...` and calls `exit`; an `Exception` logs the traceback and the error message, calls `exit` and is re-raised; another `BaseException` passes through with nothing added |
| DeviceLoop.HookErrorIsReraised | oot/oot.py:154-168 | a `process_result` that raises after `execute_action` ran is logged, followed by the error message and the `exit` call, and then re-raised; later items are never fetched |
| DeviceLoop.RoundsShape | oot/oot.py:147-158 | inside the loop every `get_data` call gets the caller's top-level mapping, `exit` is never called, and every `process_result` directly follows its `execute_action` |
| DeviceLoop.ExitHookOnce | oot/oot.py:159-167 | when the loop ends on an interrupt or an `Exception`, `exit` is called exactly once, last, with the original keyword arguments; while it runs, or when another `BaseException` passes through, `exit` is never called; the caller's top-level mapping is never changed |
| DeviceLoop.ResultFollowsExecution | oot/oot.py:154-156 | each `process_result(key, result, **ctx)` comes right after `execute_action(key, oot_input=ctx.get("oot_input", self.oot_input))` |
| DeviceLoop.FirstFaultEndsLoop | oot/oot.py:146-168 | the first iteration that raises ends the loop; an interrupt returns normally, an `Exception` is re-raised, and any other `BaseException` passes through |
| DeviceLoop.DispatchesPair | oot/oot.py:148-156 | a `(key, extra)` item with a truthy key calls `execute_action` with the key, then `process_result` with the result and the context merged with `extra` |
| DeviceLoop.NoKeyForFalsyItem | oot/oot.py:154-158 | a falsy non-list item goes to `no_key` with the caller's context |
| ServiceControl.ToggleTouchesOnlyItsUnit | oot/oot.py:185-199 | a toggle issues three commands, all about the service asked for |
| ServiceControl.StopLeavesInactive | oot/oot.py:191-194 | after `stop_service` the unit is stopped, and disabled unless `disable` is false |
| ServiceControl.StartLeavesActive | oot/oot.py:196-199 | after the corrected `start_service` the unit runs, and is enabled if it was already or if `enable` is set |
| ServiceControl.ToggleFlipsActivity | oot/oot.py:185-189 | with a truthful activity check, a toggle flips whether the unit runs and leaves it enabled exactly when it runs |
| ServiceControl.ToggleTwiceRestoresActivity | oot/oot.py:185-189 | two toggles bring back whether the unit runs |
| ServiceControl.StartWithoutEnableAsWritten | oot/oot.py:196-199 | `start_service(enable=False)` as written enables a stopped unit and does not start it |
| ServiceControl.AsWrittenAgreesByDefault | oot/oot.py:196-199 | with the default `enable=True`, the only form `toggle_service` uses, the written and the corrected `start_service` issue the same commands |
| Device.Host.Initialize | oot/oot.py:68-69 | one initializer call: the file becomes what the scripted initializer leaves, and the call is counted and logged |
| Device.Oot.constructor | oot/oot.py:45-66 | `_fields` is the merged, overridden and sorted table; a dict argument becomes `connection_data` and builds the connection; a string becomes `connection_path`; anything else changes nothing |
| Device.Oot.GenerateConnection | oot/oot.py:103-107 | the connection is built from `connection_data`, then each field and `name` is set from it, as `Generate` specifies |
| Device.Oot.Provision | oot/oot.py:110-139 | the provisioning branch leaves the host, `connection_data` and the escaping exception exactly as `Provisioning` specifies, and no other device state changes |
| Device.Oot.LoadTesting | oot/oot.py:115-139 | the testing branch (wait, check, persist, or recover) leaves the host and `connection_data` as `TestingLoad` specifies |
| Device.Oot.Recover | oot/oot.py:134-139 | the `except Exception` branch removes the file, logs the traceback and calls the initializer |
| Device.Oot.Run | oot/oot.py:109-143 | `run` leaves the host, the device and its outcome exactly as `Running` specifies |
| Device.FieldValuesMeaning | oot/oot.py:105-106 | the attributes `generate_connection` sets are exactly the table's field names, each holding `connection_data.get(name)` |
| Device.GenerateMeaning | oot/oot.py:103-107 | for dict data the fields and `name` get `data.get(...)` and other attributes are kept; for other data the connection is still built, no attribute changes, and the call raises |
| Device.MissingFileInitializesOnce | oot/oot.py:110-114 | a missing file that the initializer does not create: one initializer call, then `open` raises; nothing else happens |
| Device.CreatedFileIsRead | oot/oot.py:110-115 | a missing file that the initializer creates is read in the same call, without returning early: provisioning then goes exactly as for that file found in place |
| Device.CreatedTestingFilePersists | oot/oot.py:110-133 | a testing load that the initializer creates and that passes is persisted and adopted, after exactly one initializer call, with nothing escaping |
| Device.CreatedTestingFileFailsRecovers | oot/oot.py:110-139 | a testing load that the initializer creates and that fails is removed and the initializer runs a second time, nothing escapes, and the log only grows |
| Device.NonTestingAdopted | oot/oot.py:110-115 | a configuration without `is_testing_loading`, found or created by the initializer, is adopted unchanged as `connection_data`, with no wait, check, write or log entry beyond the initializer call |
| Device.TestingLoadPersistsResult | oot/oot.py:110-133 | a testing load, found or created by the initializer, that passes the wait and the check writes exactly `result_data` to the file and adopts that same value as `connection_data` |
| Device.TestingFailureRecovers | oot/oot.py:110-139 | a testing load, found or created by the initializer, that times out or fails the check removes the file, logs, calls the initializer again, lets nothing escape, and keeps the loaded (checked) parameters as `connection_data` |
| Device.ProvisioningRaisesOnlyWhileLoading | oot/oot.py:110-115 | provisioning lets an exception escape exactly when the file it reads is missing, not JSON, or not a dict, and then touches nothing beyond the first initializer call |
| Device.ProvisioningAppends | oot/oot.py:110-139 | provisioning only appends to the observable log and calls the initializer at most twice |
| Device.ConnectedRunSkipsSetup | oot/oot.py:109-143 | a device that already has a connection goes straight to the loop, leaving the file and the device unchanged |
| Device.MissingFileNoIterations | oot/oot.py:109-114 | with a missing file that the initializer does not create, `run` calls the initializer once, raises, and runs no loop iteration |
| Device.RejectedConfigurationStillConnects | oot/oot.py:134-143 | after a failed testing check, the same `run` builds the connection from the loaded parameters and enters the loop |
| Device.MissingResultDataRaisesAfterPersisting | oot/oot.py:130-141 | a passing check without `result_data` writes `null` to the file, and building the connection from `None` then raises |
| Device.LoopRunsConnected | oot/oot.py:140-143 | the loop runs only with a connection; the log then ends with the loop's trace, and, if the loop stopped on an interrupt or an `Exception`, with the single `exit` call |
| Device.SetupConnects | oot/oot.py:140-141 | setup that raises nothing leaves the device with a connection |

## Left out

- File I/O and JSON parsing (`open`, `json.loads`, `json.dump`, `os.remove`, `os.path.exists`). The file is a `FileState` value. A write or delete that itself fails is not modelled.
- `time.sleep`, the log formatting and the traceback text. Each appears only as an event (`Slept`, `LoggedError`, `LoggedInfo`).
- The internals of `OdooConnectionIot`:
  - `connection_class(...)` is assumed not to raise;
  - `execute_action` answers come from the script;
  - `check_configuration` is a scripted `Verdict`.
  That code is not part of this model.
- `initialize` (the setup server) and `is_interface_up`. They are scripted by `Oracles`, and their own behaviour is not part of this model. An initializer that raises or blocks is not modelled.
- `inspect.getmembers` and `Field.generate()`. They are replaced by an explicit list of `(attr, descriptor)` pairs, assumed to have distinct names, as `getmembers` gives.
- A `sequence` value that is not an integer, including an explicit `None`, which would make the sort raise: `sequence` is an optional integer here.
- `check_service`'s `systemctl is-active` stdout parsing. Its answer is the `active` argument of `ToggleService`.
- `reboot`, `extra_tools` (UI labels) and `toggle_service_function` (a closure over `toggle_service`).
- The template, SSID and folder class attributes, and the no-op lifecycle hooks (`checking_connection`, etc.).
- Name collisions: a field named like a method or attribute of the device (`setattr` would overwrite it), and a context key named `self`, `key` or `result` (a duplicate keyword argument in Python).
- Key deletions done by `check_configuration` on the parameters. Only the keys it writes are modelled.
- Exceptions raised by the `exit` hook itself inside the handlers.
- A `KeyboardInterrupt`, or another `BaseException`, raised during provisioning (in the interface wait, `time.sleep` or `check_configuration`) is not modelled. It would pass the `except Exception` of the testing branch, escape `run`, keep the file and skip the initializer. The scripted wait and check only time out, fail or raise an `Exception`.
- An `is_interface_up` that raises, or that returns something other than a dict, is not modelled. Inside the `try` it would be caught and recovered like a timeout; the model's answers are always an address or none.
- The infinite `while True`: the loop runs over a finite script and reports `StillRunning` when the script ends.
- DeviceLoop.Normalize: a second element that is a non-empty list is always a `BadUpdate` error. Python's `dict.update` would also accept a non-empty list of key/value pairs.
- DeviceLoop.ExitHookOnce: the hooks' own side effects are not modelled. `kwargs.copy()` is shallow, so a hook that mutates a nested dict or list of the context changes what later `get_data` calls and `exit` receive; the model promises only that the top-level mapping is unchanged.

## Findings

| source | as written | input that shows it | evidently intended | confidence | as-written member | corrected member |
|---|---|---|---|---|---|---|
| oot/oot.py:196-199 | `start_service` always runs `systemctl enable`, and its `enable` flag guards `systemctl start` | `start_service("ssh", enable=False)` on a stopped, disabled unit leaves it stopped and enabled | mirror `stop_service`: always start, and enable only when `enable` is set | medium; not executed | ServiceControl.StartWithoutEnableAsWritten | ServiceControl.StartLeavesActive |
