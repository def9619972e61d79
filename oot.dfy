/**
 * The `Oot` device object: its construction (field table and constructor
 * argument), `generate_connection`, and `run` — provisioning from the
 * configuration file, building the connection, then the supervised loop.
 *
 * The world outside the device is a `Host`: the configuration file, the log
 * of observable effects, and the answers of the collaborators that are not
 * part of this model (the setup initializer, `is_interface_up`,
 * `check_configuration`).
 */
module Device {
  import opened Wrappers
  import opened Json
  import opened Trace
  import opened FieldTable
  import opened NetworkReadiness
  import opened DeviceLoop

  /** The configuration file: missing, present but not JSON, or holding a JSON value. */
  datatype FileState = Absent | Unparsable | Holds(content: Value)

  /**
   * What `check_configuration(parameters, device)` does: the keys it writes
   * into `parameters` (typically `result_data`), and whether it then raises.
   */
  datatype Verdict = Verdict(updates: map<string, Value>, raises: bool)

  /**
   * The scripted collaborators: the file each call of the setup initializer
   * leaves behind (calls past the end leave the file as it is), the answers of
   * `is_interface_up("wlan0")`, and the configuration check.
   */
  datatype Oracles = Oracles(setups: seq<FileState>, answers: seq<Answer>, verdict: Verdict)

  /** What the host keeps: the file, the observable effects so far, and how often the initializer ran. */
  datatype Environment = Environment(file: FileState, log: seq<Event>, initCalls: nat)

  /** The constructor argument: a dict of connection data, a configuration path, or anything else. */
  datatype ConnectionArg = DictArg(data: map<string, Value>) | PathArg(path: string) | OtherArg

  /** A `connection_class` instance, built from the connection data it was given. */
  datatype Connection = Connection(config: Value)

  /** The device attributes `run` changes. */
  datatype DeviceState = DeviceState(connection: Option<Connection>, data: Value, attributes: map<string, Value>)

  /** How `run` ended: an exception during setup, or the end of `_run`. */
  datatype RunExit = SetupRaised(kind: ErrorKind) | LoopEnded(exit: LoopExit)

  // ---------------------------------------------------------------------------
  // Specification of the steps

  /** The file after the `k`-th call of the initializer, which started from `f`. */
  function AfterSetup(f: FileState, setups: seq<FileState>, k: nat): FileState {
    if k < |setups| then setups[k] else f
  }

  /** One call of `initialize()`. */
  function InitializeEnv(env: Environment, setups: seq<FileState>): Environment {
    Environment(AfterSetup(env.file, setups, env.initCalls), env.log + [Initialized], env.initCalls + 1)
  }

  /** `not self.connection and self.connection_path`; an empty path is falsy. */
  predicate ShouldProvision(connection: Option<Connection>, path: Option<string>) {
    connection.None? && path.Some? && path.value != ""
  }

  /** `is_testing_loading` is set and truthy. */
  predicate IsTesting(config: map<string, Value>) {
    Truthy(DictGet(config, "is_testing_loading", Null))
  }

  /** The setattr values of `generate_connection`: each field name mapped to `data.get(name)`. */
  function FieldValues(t: seq<Entry>, data: map<string, Value>): map<string, Value>
    decreases |t|
  {
    if t == [] then map[]
    else FieldValues(t[..|t| - 1], data)[t[|t| - 1].0 := DictGet(data, t[|t| - 1].0, Null)]
  }

  /** What `generate_connection` leaves: the connection, the attributes, and what it raised. */
  datatype Generated = Generated(connection: Connection, attributes: map<string, Value>, raised: Option<ErrorKind>)

  /**
   * `generate_connection`: the connection is built first; reading a field or
   * `name` from connection data that is not a dict raises.
   */
  function Generate(table: seq<Entry>, data: Value, attributes: map<string, Value>): Generated {
    if data.Obj? then
      var fieldsSet := attributes + FieldValues(table, data.members);
      Generated(Connection(data), fieldsSet["name" := DictGet(data.members, "name", Null)], None)
    else
      Generated(Connection(data), attributes, Some(NotADict))
  }

  /** What the provisioning part of `run` leaves: the host, `connection_data`, and what escaped. */
  datatype Provisioned = Provisioned(env: Environment, data: Value, raised: Option<ErrorKind>)

  /** The `except Exception` branch: remove the file, log, and call the initializer again. */
  function Recovered(env: Environment, data: Value, setups: seq<FileState>): Provisioned {
    var removed := Environment(Absent, env.log + [Removed, LoggedError], env.initCalls);
    Provisioned(InitializeEnv(removed, setups), data, None)
  }

  /** The `is_testing_loading` branch: wait, validate, persist `result_data`; recover on failure. */
  function TestingLoad(env: Environment, parameters: map<string, Value>, oracles: Oracles): Provisioned {
    var checks := ChecksTaken(oracles.answers, 0);
    var waited := env.(log := env.log + WaitEvents(checks));
    if checks == MAX_CHECKS then Recovered(waited, Obj(parameters), oracles.setups)
    else
      var checked := waited.(log := waited.log + [CheckedConfiguration]);
      var updated := parameters + oracles.verdict.updates;
      if oracles.verdict.raises then Recovered(checked, Obj(updated), oracles.setups)
      else
        var resultData := DictGet(updated, "result_data", Null);
        Provisioned(Environment(Holds(resultData), checked.log + [Wrote(resultData)], checked.initCalls),
                    resultData, None)
  }

  /** Reading the file and dispatching on its contents. */
  function Load(env: Environment, data: Value, oracles: Oracles): Provisioned {
    match env.file
    case Absent => Provisioned(env, data, Some(FileMissing))
    case Unparsable => Provisioned(env, data, Some(Malformed))
    case Holds(content) =>
      if !content.Obj? then Provisioned(env, content, Some(NotADict))
      else if IsTesting(content.members) then TestingLoad(env, content.members, oracles)
      else Provisioned(env, content, None)
  }

  /** The host when `open` reads the path: the initializer has run first if the file was missing. */
  function Opened(env: Environment, setups: seq<FileState>): Environment {
    if env.file.Absent? then InitializeEnv(env, setups) else env
  }

  /** The body of `if not self.connection and self.connection_path`. */
  function Provisioning(env: Environment, data: Value, oracles: Oracles): Provisioned {
    Load(Opened(env, oracles.setups), data, oracles)
  }

  /** The state before `_run`, and the exception that stopped `run` before it, if any. */
  datatype Prepared = Prepared(env: Environment, device: DeviceState, raised: Option<ErrorKind>)

  /** `run` up to the call of `_run`: provisioning, then a connection if there is none. */
  function Setup(table: seq<Entry>, path: Option<string>, dev: DeviceState, env: Environment,
                 oracles: Oracles): Prepared
  {
    var p := if ShouldProvision(dev.connection, path) then Provisioning(env, dev.data, oracles)
             else Provisioned(env, dev.data, None);
    var provisioned := dev.(data := p.data);
    if p.raised.Some? then Prepared(p.env, provisioned, p.raised)
    else if dev.connection.Some? then Prepared(p.env, provisioned, None)
    else
      var g := Generate(table, p.data, dev.attributes);
      var connected := provisioned.(connection := Some(g.connection), attributes := g.attributes);
      if g.raised.Some? then Prepared(p.env, connected, g.raised)
      else Prepared(p.env.(log := p.env.log + [LoggedInfo(CONNECTION_READY_MESSAGE)]), connected, None)
  }

  /** What `run` leaves: the host, the device, and how it ended. */
  datatype RunOutcome = RunOutcome(env: Environment, device: DeviceState, exit: RunExit)

  function Running(table: seq<Entry>, ootInput: Value, path: Option<string>, dev: DeviceState,
                   env: Environment, oracles: Oracles, kwargs: Context, script: seq<Step>): RunOutcome
  {
    var prep := Setup(table, path, dev, env, oracles);
    if prep.raised.Some? then RunOutcome(prep.env, prep.device, SetupRaised(prep.raised.value))
    else
      var s := Supervision(kwargs, ootInput, script);
      RunOutcome(prep.env.(log := prep.env.log + s.trace), prep.device, LoopEnded(s.exit))
  }

  // ---------------------------------------------------------------------------
  // The host and the device

  /** The world outside the device. */
  class Host {
    var file: FileState
    var log: seq<Event>
    var initCalls: nat
    const oracles: Oracles

    function Snapshot(): Environment
      reads this
    {
      Environment(file, log, initCalls)
    }

    constructor (file: FileState, oracles: Oracles)
      ensures Snapshot() == Environment(file, [], 0) && this.oracles == oracles
    {
      this.file := file;
      this.oracles := oracles;
      log := [];
      initCalls := 0;
    }

    /** `initialize(self)`: the external setup step, which may or may not create the file. */
    method Initialize()
      modifies this
      ensures Snapshot() == InitializeEnv(old(Snapshot()), oracles.setups)
    {
      file := AfterSetup(file, oracles.setups, initCalls);
      log := log + [Initialized];
      initCalls := initCalls + 1;
    }
  }

  class Oot {
    /** `_fields`, in the order the constructor sorted it. */
    const fieldTable: seq<Entry>
    /** `oot_input`, the default flag for `execute_action`. */
    const ootInput: Value
    const connectionPath: Option<string>
    var connection: Option<Connection>
    var connectionData: Value
    /** The instance attributes `generate_connection` sets. */
    var attributes: map<string, Value>

    function State(): DeviceState
      reads this
    {
      DeviceState(connection, connectionData, attributes)
    }

    /**
     * `__init__`: `layers` is the MRO, most-derived first, and
     * `fieldAttributes` the `Field` class attributes with their generated
     * descriptors, in `getmembers` order — sorted by attribute name — which
     * decides where new names are appended and so how `sequence` ties sort.
     */
    constructor (layers: seq<Layer>, fieldAttributes: seq<Entry>, ootInput: Value, arg: ConnectionArg)
      ensures fieldTable == FieldTableOf(layers, fieldAttributes) && this.ootInput == ootInput
      ensures arg.DictArg? ==>
        var g := Generate(fieldTable, Obj(arg.data), map[]);
        && connectionPath == None && connectionData == Obj(arg.data)
        && connection == Some(g.connection) && attributes == g.attributes
      ensures arg.PathArg? ==>
        connectionPath == Some(arg.path) && State() == DeviceState(None, Obj(map[]), map[])
      ensures arg.OtherArg? ==>
        connectionPath == None && State() == DeviceState(None, Obj(map[]), map[])
    {
      var merged := MergeLayers(layers);
      var overridden := ApplyFieldAttributes(merged, fieldAttributes);
      fieldTable := SortBySequence(overridden);
      this.ootInput := ootInput;
      connectionPath := if arg.PathArg? then Some(arg.path) else None;
      connection := None;
      connectionData := Obj(map[]);
      attributes := map[];
      new;
      if arg.DictArg? {
        connectionData := Obj(arg.data);
        var _ := GenerateConnection();
      }
    }

    /** Builds the connection from `connection_data`, then copies each field and `name` onto the device. */
    method GenerateConnection() returns (raised: Option<ErrorKind>)
      modifies this
      ensures var g := Generate(fieldTable, connectionData, old(attributes));
        connection == Some(g.connection) && attributes == g.attributes && raised == g.raised
      ensures connectionData == old(connectionData)
    {
      connection := Some(Connection(connectionData));
      if !connectionData.Obj? {
        return Some(NotADict);
      }
      var data := connectionData.members;
      for i := 0 to |fieldTable|
        invariant connection == Some(Connection(Obj(data))) && connectionData == Obj(data)
        invariant attributes == old(attributes) + FieldValues(fieldTable[..i], data)
      {
        assert fieldTable[..i + 1][..i] == fieldTable[..i];
        attributes := attributes[fieldTable[i].0 := DictGet(data, fieldTable[i].0, Null)];
      }
      assert fieldTable[..|fieldTable|] == fieldTable;
      attributes := attributes["name" := DictGet(data, "name", Null)];
      raised := None;
    }

    /** The provisioning part of `run`, once its entry condition holds. */
    method Provision(host: Host) returns (raised: Option<ErrorKind>)
      modifies this, host
      ensures Provisioned(host.Snapshot(), connectionData, raised)
        == Provisioning(old(host.Snapshot()), old(connectionData), host.oracles)
      ensures connection == old(connection) && attributes == old(attributes)
    {
      if host.file.Absent? {
        host.Initialize();
      }
      match host.file {
        case Absent =>
          return Some(FileMissing);
        case Unparsable =>
          return Some(Malformed);
        case Holds(content) =>
          connectionData := content;
          if !content.Obj? {
            return Some(NotADict);
          }
          if IsTesting(content.members) {
            LoadTesting(host, content.members);
          }
      }
      raised := None;
    }

    /** The `try` block for a testing configuration, whose `parameters` are `connection_data` itself. */
    method LoadTesting(host: Host, parameters: map<string, Value>)
      modifies this, host
      ensures Provisioned(host.Snapshot(), connectionData, None)
        == TestingLoad(old(host.Snapshot()), parameters, host.oracles)
      ensures connection == old(connection) && attributes == old(attributes)
    {
      var checks, events := WaitForInterface(host.oracles.answers);
      host.log := host.log + events;
      if checks == MAX_CHECKS {
        connectionData := Obj(parameters);
        Recover(host);
        return;
      }
      host.log := host.log + [CheckedConfiguration];
      var updated := parameters + host.oracles.verdict.updates;
      connectionData := Obj(updated);
      if host.oracles.verdict.raises {
        Recover(host);
        return;
      }
      var resultData := DictGet(updated, "result_data", Null);
      host.file := Holds(resultData);
      host.log := host.log + [Wrote(resultData)];
      connectionData := resultData;
    }

    /** The `except Exception` branch of the testing load. */
    method Recover(host: Host)
      modifies host
      ensures host.Snapshot() == Recovered(old(host.Snapshot()), connectionData, host.oracles.setups).env
    {
      host.file := Absent;
      host.log := host.log + [Removed, LoggedError];
      host.Initialize();
    }

    /** `run(**kwargs)`; the loop's collaborators are scripted by `script`. */
    method Run(host: Host, kwargs: Context, script: seq<Step>) returns (exit: RunExit)
      modifies this, host
      ensures RunOutcome(host.Snapshot(), State(), exit)
        == Running(fieldTable, ootInput, connectionPath, old(State()), old(host.Snapshot()), host.oracles, kwargs, script)
    {
      if ShouldProvision(connection, connectionPath) {
        var raised := Provision(host);
        if raised.Some? {
          return SetupRaised(raised.value);
        }
      }
      if connection.None? {
        var raised := GenerateConnection();
        if raised.Some? {
          return SetupRaised(raised.value);
        }
        host.log := host.log + [LoggedInfo(CONNECTION_READY_MESSAGE)];
      }
      var loopExit, trace := SuperviseLoop(kwargs, ootInput, script);
      host.log := host.log + trace;
      exit := LoopEnded(loopExit);
    }
  }

  // ---------------------------------------------------------------------------
  // Properties of `generate_connection`

  lemma {:induction false} FieldValuesMeaning(t: seq<Entry>, data: map<string, Value>)
    ensures FieldValues(t, data).Keys == Names(t)
    ensures forall k :: k in FieldValues(t, data) ==> FieldValues(t, data)[k] == DictGet(data, k, Null)
    decreases |t|
  {
    if t != [] {
      var init := t[..|t| - 1];
      FieldValuesMeaning(init, data);
      NamesAppend(init, t[|t| - 1]);
      assert init + [t[|t| - 1]] == t;
    }
  }

  /**
   * For dict connection data, every field of the table and `name` become
   * attributes holding `data.get(...)`, other attributes are kept, and nothing
   * raises; for anything else the connection is still built, no attribute
   * changes, and `NotADict` is raised.
   */
  lemma GenerateMeaning(table: seq<Entry>, data: Value, attributes: map<string, Value>)
    ensures Generate(table, data, attributes).connection == Connection(data)
    ensures data.Obj? ==>
      var g := Generate(table, data, attributes);
      && g.raised == None
      && g.attributes.Keys == attributes.Keys + Names(table) + {"name"}
      && (forall k :: k in Names(table) + {"name"} ==> g.attributes[k] == DictGet(data.members, k, Null))
      && (forall k :: k in attributes && k !in Names(table) && k != "name" ==> g.attributes[k] == attributes[k])
    ensures !data.Obj? ==> Generate(table, data, attributes) == Generated(Connection(data), attributes, Some(NotADict))
  {
    if data.Obj? {
      FieldValuesMeaning(table, data.members);
    }
  }

  // ---------------------------------------------------------------------------
  // Properties of provisioning

  /**
   * A missing file makes `run` call the initializer and then read the path
   * anyway: if the initializer did not create the file, `open` raises, after
   * exactly one initializer call and nothing else.
   */
  lemma MissingFileInitializesOnce(env: Environment, data: Value, oracles: Oracles)
    requires env.file.Absent? && AfterSetup(Absent, oracles.setups, env.initCalls) == Absent
    ensures Provisioning(env, data, oracles)
      == Provisioned(Environment(Absent, env.log + [Initialized], env.initCalls + 1), data, Some(FileMissing))
  {
  }

  /**
   * A file the initializer creates is read in the same call of `run`, with no
   * early return: provisioning goes on exactly as if the file had been there
   * after that one initializer call, whatever it holds.
   */
  lemma CreatedFileIsRead(env: Environment, data: Value, oracles: Oracles)
    requires env.file.Absent? && AfterSetup(Absent, oracles.setups, env.initCalls) != Absent
    ensures var created := InitializeEnv(env, oracles.setups);
            !created.file.Absent? && Provisioning(env, data, oracles) == Provisioning(created, data, oracles)
  {
  }

  /**
   * A configuration without `is_testing_loading`, found or created by the
   * initializer, is adopted as it is: no wait, no check, no write.
   */
  lemma NonTestingAdopted(env: Environment, data: Value, oracles: Oracles, config: map<string, Value>)
    requires Opened(env, oracles.setups).file == Holds(Obj(config)) && !IsTesting(config)
    ensures Provisioning(env, data, oracles) == Provisioned(Opened(env, oracles.setups), Obj(config), None)
  {
  }

  /**
   * A testing configuration, found or created by the initializer, that passes
   * the wait and the check: the file then holds exactly `result_data` of the
   * checked parameters, and so does `connection_data`.
   */
  lemma TestingLoadPersistsResult(env: Environment, data: Value, oracles: Oracles, config: map<string, Value>)
    requires Opened(env, oracles.setups).file == Holds(Obj(config)) && IsTesting(config)
    requires ChecksTaken(oracles.answers, 0) < MAX_CHECKS && !oracles.verdict.raises
    ensures var e := Opened(env, oracles.setups);
            var resultData := DictGet(config + oracles.verdict.updates, "result_data", Null);
            var events := WaitEvents(ChecksTaken(oracles.answers, 0)) + [CheckedConfiguration, Wrote(resultData)];
            Provisioning(env, data, oracles)
            == Provisioned(Environment(Holds(resultData), e.log + events, e.initCalls), resultData, None)
  {
    var e := Opened(env, oracles.setups);
    var resultData := DictGet(config + oracles.verdict.updates, "result_data", Null);
    var events := WaitEvents(ChecksTaken(oracles.answers, 0)) + [CheckedConfiguration, Wrote(resultData)];
    assert e.log + WaitEvents(ChecksTaken(oracles.answers, 0)) + [CheckedConfiguration] + [Wrote(resultData)]
        == e.log + events;
  }

  /**
   * A testing configuration, found or created by the initializer, whose wait
   * times out or whose check raises: the file is removed, the traceback
   * logged, the initializer called again, nothing escapes, and
   * `connection_data` keeps the loaded parameters (with whatever the check
   * wrote into them).
   */
  lemma TestingFailureRecovers(env: Environment, data: Value, oracles: Oracles, config: map<string, Value>)
    requires Opened(env, oracles.setups).file == Holds(Obj(config)) && IsTesting(config)
    requires ChecksTaken(oracles.answers, 0) == MAX_CHECKS || oracles.verdict.raises
    ensures var e := Opened(env, oracles.setups);
            var checks := ChecksTaken(oracles.answers, 0);
            var checked := if checks < MAX_CHECKS then [CheckedConfiguration] else [];
            var p := Provisioning(env, data, oracles);
            && p.raised == None
            && p.data == Obj(if checks < MAX_CHECKS then config + oracles.verdict.updates else config)
            && p.env.file == AfterSetup(Absent, oracles.setups, e.initCalls)
            && p.env.initCalls == e.initCalls + 1
            && p.env.log == e.log + WaitEvents(checks) + checked + [Removed, LoggedError, Initialized]
  {
    var e := Opened(env, oracles.setups);
    var checks := ChecksTaken(oracles.answers, 0);
    var checked := if checks < MAX_CHECKS then [CheckedConfiguration] else [];
    assert e.log + WaitEvents(checks) + checked + [Removed, LoggedError] + [Initialized]
        == e.log + WaitEvents(checks) + checked + [Removed, LoggedError, Initialized];
    if checks < MAX_CHECKS {
      assert e.log + WaitEvents(checks) + [CheckedConfiguration] == e.log + WaitEvents(checks) + checked;
    } else {
      assert e.log + WaitEvents(checks) == e.log + WaitEvents(checks) + checked;
    }
  }

  /**
   * The first-run path: no file, the initializer writes a testing payload, it
   * passes the wait and the check. One initializer call; the file and
   * `connection_data` end as `result_data`.
   */
  lemma CreatedTestingFilePersists(env: Environment, data: Value, oracles: Oracles, config: map<string, Value>)
    requires env.file.Absent? && AfterSetup(Absent, oracles.setups, env.initCalls) == Holds(Obj(config))
    requires IsTesting(config) && ChecksTaken(oracles.answers, 0) < MAX_CHECKS && !oracles.verdict.raises
    ensures var resultData := DictGet(config + oracles.verdict.updates, "result_data", Null);
            var p := Provisioning(env, data, oracles);
            && p.raised == None && p.data == resultData
            && p.env.file == Holds(resultData) && p.env.initCalls == env.initCalls + 1
  {
    TestingLoadPersistsResult(env, data, oracles, config);
  }

  /**
   * The first-run path when the created testing payload fails: the file is
   * removed and the initializer called a second time, nothing escapes.
   */
  lemma CreatedTestingFileFailsRecovers(env: Environment, data: Value, oracles: Oracles, config: map<string, Value>)
    requires env.file.Absent? && AfterSetup(Absent, oracles.setups, env.initCalls) == Holds(Obj(config))
    requires IsTesting(config) && (ChecksTaken(oracles.answers, 0) == MAX_CHECKS || oracles.verdict.raises)
    ensures var p := Provisioning(env, data, oracles);
            && p.raised == None
            && p.env.file == AfterSetup(Absent, oracles.setups, env.initCalls + 1)
            && p.env.initCalls == env.initCalls + 2
            && env.log + [Initialized] <= p.env.log
  {
    TestingFailureRecovers(env, data, oracles, config);
    var p := Provisioning(env, data, oracles);
    var checks := ChecksTaken(oracles.answers, 0);
    var checked := if checks < MAX_CHECKS then [CheckedConfiguration] else [];
    PrefixExtended(env.log + [Initialized], env.log + [Initialized],
                   WaitEvents(checks) + checked + [Removed, LoggedError, Initialized]);
    assert p.env.log == env.log + [Initialized] + (WaitEvents(checks) + checked + [Removed, LoggedError, Initialized]);
  }

  /**
   * Provisioning lets an exception escape exactly when the file it reads is
   * missing, not JSON, or not a dict; then the file is left as read and only
   * the first initializer call, if any, is logged.
   */
  lemma ProvisioningRaisesOnlyWhileLoading(env: Environment, data: Value, oracles: Oracles)
    ensures var f := Opened(env, oracles.setups).file;
            Provisioning(env, data, oracles).raised.Some? <==> !(f.Holds? && f.content.Obj?)
    ensures var p := Provisioning(env, data, oracles);
            p.raised.Some? ==> p.env == Opened(env, oracles.setups)
  {
  }

  /** Provisioning only appends to the log, and calls the initializer at most twice. */
  lemma ProvisioningAppends(env: Environment, data: Value, oracles: Oracles)
    ensures var p := Provisioning(env, data, oracles);
            && env.log <= p.env.log
            && env.initCalls <= p.env.initCalls <= env.initCalls + 2
  {
    var e := Opened(env, oracles.setups);
    PrefixExtended(env.log, env.log, if env.file.Absent? then [Initialized] else []);
    assert e.log == env.log + (if env.file.Absent? then [Initialized] else []);
    if e.file.Holds? && e.file.content.Obj? && IsTesting(e.file.content.members) {
      TestingLoadAppends(e, e.file.content.members, oracles);
    }
  }

  lemma TestingLoadAppends(env: Environment, parameters: map<string, Value>, oracles: Oracles)
    ensures var p := TestingLoad(env, parameters, oracles);
            && env.log <= p.env.log
            && env.initCalls <= p.env.initCalls <= env.initCalls + 1
  {
    var checks := ChecksTaken(oracles.answers, 0);
    var waited := env.log + WaitEvents(checks);
    var p := TestingLoad(env, parameters, oracles);
    PrefixExtended(env.log, env.log, WaitEvents(checks));
    if checks == MAX_CHECKS {
      assert p.env.log == waited + [Removed, LoggedError, Initialized];
      PrefixExtended(env.log, waited, [Removed, LoggedError, Initialized]);
    } else if oracles.verdict.raises {
      assert p.env.log == waited + [CheckedConfiguration, Removed, LoggedError, Initialized];
      PrefixExtended(env.log, waited, [CheckedConfiguration, Removed, LoggedError, Initialized]);
    } else {
      assert p.env.log == waited + [CheckedConfiguration, Wrote(p.data)];
      PrefixExtended(env.log, waited, [CheckedConfiguration, Wrote(p.data)]);
    }
  }

  lemma PrefixExtended(a: seq<Event>, b: seq<Event>, c: seq<Event>)
    requires a <= b
    ensures a <= b + c
  {
    assert (b + c)[..|a|] == b[..|a|];
  }

  // ---------------------------------------------------------------------------
  // Properties of `run`

  /** A device that already has a connection goes straight to the loop. */
  lemma ConnectedRunSkipsSetup(table: seq<Entry>, ootInput: Value, path: Option<string>, dev: DeviceState,
                               env: Environment, oracles: Oracles, kwargs: Context, script: seq<Step>)
    requires dev.connection.Some?
    ensures var s := Supervision(kwargs, ootInput, script);
      Running(table, ootInput, path, dev, env, oracles, kwargs, script)
      == RunOutcome(env.(log := env.log + s.trace), dev, LoopEnded(s.exit))
  {
  }

  /**
   * A missing file that the initializer does not create: `run` calls the
   * initializer once, raises `FileMissing`, and never enters the loop.
   */
  lemma MissingFileNoIterations(table: seq<Entry>, ootInput: Value, path: Option<string>, dev: DeviceState,
                                env: Environment, oracles: Oracles, kwargs: Context, script: seq<Step>)
    requires ShouldProvision(dev.connection, path)
    requires env.file.Absent? && AfterSetup(Absent, oracles.setups, env.initCalls) == Absent
    ensures var r := Running(table, ootInput, path, dev, env, oracles, kwargs, script);
      && r.exit == SetupRaised(FileMissing)
      && r.env == Environment(Absent, env.log + [Initialized], env.initCalls + 1)
      && r.device == dev
  {
    MissingFileInitializesOnce(env, dev.data, oracles);
  }

  /**
   * After a failed testing load, `run` still builds a connection, from the
   * raw (checked) parameters left in `connection_data`, and enters the loop.
   */
  lemma RejectedConfigurationStillConnects(table: seq<Entry>, ootInput: Value, path: Option<string>,
                                           dev: DeviceState, env: Environment, oracles: Oracles,
                                           kwargs: Context, script: seq<Step>, config: map<string, Value>)
    requires ShouldProvision(dev.connection, path)
    requires env.file == Holds(Obj(config)) && IsTesting(config)
    requires ChecksTaken(oracles.answers, 0) < MAX_CHECKS && oracles.verdict.raises
    ensures var r := Running(table, ootInput, path, dev, env, oracles, kwargs, script);
      && r.device.connection == Some(Connection(Obj(config + oracles.verdict.updates)))
      && r.exit == LoopEnded(Supervision(kwargs, ootInput, script).exit)
      && r.env.file == AfterSetup(Absent, oracles.setups, env.initCalls)
  {
    TestingFailureRecovers(env, dev.data, oracles, config);
  }

  /**
   * A testing load that passes but whose parameters carry no `result_data`:
   * `null` is written to the file, and building the connection from `None`
   * then raises.
   */
  lemma MissingResultDataRaisesAfterPersisting(table: seq<Entry>, ootInput: Value, path: Option<string>,
                                               dev: DeviceState, env: Environment, oracles: Oracles,
                                               kwargs: Context, script: seq<Step>, config: map<string, Value>)
    requires ShouldProvision(dev.connection, path)
    requires env.file == Holds(Obj(config)) && IsTesting(config)
    requires ChecksTaken(oracles.answers, 0) < MAX_CHECKS && !oracles.verdict.raises
    requires "result_data" !in config + oracles.verdict.updates
    ensures var r := Running(table, ootInput, path, dev, env, oracles, kwargs, script);
      && r.exit == SetupRaised(NotADict)
      && r.env.file == Holds(Null)
      && r.device.connection == Some(Connection(Null))
  {
    TestingLoadPersistsResult(env, dev.data, oracles, config);
  }

  /**
   * The loop only runs with a connection; then the log ends with the loop's
   * trace, and if an interrupt or an `Exception` stopped the loop, with the
   * single `exit` hook call.
   */
  lemma LoopRunsConnected(table: seq<Entry>, ootInput: Value, path: Option<string>, dev: DeviceState,
                          env: Environment, oracles: Oracles, kwargs: Context, script: seq<Step>)
    ensures var r := Running(table, ootInput, path, dev, env, oracles, kwargs, script);
            var s := Supervision(kwargs, ootInput, script);
            r.exit.LoopEnded? ==>
              && r.device.connection.Some?
              && r.exit.exit == s.exit
              && |s.trace| <= |r.env.log|
              && r.env.log[|r.env.log| - |s.trace|..] == s.trace
              && (s.exit.ReturnedAfterInterrupt? || s.exit.Reraised? ==>
                    0 < |r.env.log| && r.env.log[|r.env.log| - 1] == Exited(kwargs))
  {
    var prep := Setup(table, path, dev, env, oracles);
    if prep.raised.None? {
      SetupConnects(table, path, dev, env, oracles);
      ExitHookOnce(kwargs, ootInput, script);
      EndsWith(prep.env.log, Supervision(kwargs, ootInput, script).trace);
    }
  }

  /** Setup that raises nothing leaves the device with a connection. */
  lemma SetupConnects(table: seq<Entry>, path: Option<string>, dev: DeviceState, env: Environment, oracles: Oracles)
    ensures Setup(table, path, dev, env, oracles).raised.None? ==>
      Setup(table, path, dev, env, oracles).device.connection.Some?
  {
  }

  lemma EndsWith(a: seq<Event>, b: seq<Event>)
    ensures |b| <= |a + b| && (a + b)[|a + b| - |b|..] == b
    ensures b != [] ==> (a + b)[|a + b| - 1] == b[|b| - 1]
  {
    assert (a + b)[|a|..] == b;
  }
}
