/**
 * The service toggle of an `Oot` device: which `systemctl` commands
 * `toggle_service`, `stop_service` and `start_service` issue, and what those
 * commands do to a systemd unit's state.
 */
module ServiceControl {

  datatype Verb = IsActive | Enable | Disable | Start | Stop

  /** One `systemctl` invocation: a verb applied to a named unit. */
  datatype Command = Systemctl(verb: Verb, unit: string)

  /** `stop_service`: stop the unit, then disable it when `disable` is set. */
  function StopService(unit: string, disable: bool): seq<Command> {
    [Systemctl(Stop, unit)] + (if disable then [Systemctl(Disable, unit)] else [])
  }

  /**
   * `start_service` as written: the unit is always enabled, and `enable`
   * decides whether it is started.
   */
  function StartServiceAsWritten(unit: string, enable: bool): seq<Command> {
    [Systemctl(Enable, unit)] + (if enable then [Systemctl(Start, unit)] else [])
  }

  /**
   * `start_service` mirroring `stop_service`: the unit is always started, and
   * `enable` decides whether it is enabled first.
   */
  function StartService(unit: string, enable: bool): seq<Command> {
    (if enable then [Systemctl(Enable, unit)] else []) + [Systemctl(Start, unit)]
  }

  /**
   * `toggle_service`: ask whether the unit is active (`check_service`), then stop
   * or start it with the default flags. `active` is the answer to the query.
   */
  function ToggleService(unit: string, active: bool): seq<Command> {
    [Systemctl(IsActive, unit)] + (if active then StopService(unit, true) else StartServiceAsWritten(unit, true))
  }

  /** What systemd keeps about a unit: whether it runs now and whether it starts at boot. */
  datatype UnitState = UnitState(active: bool, enabled: bool)

  function Effect(s: UnitState, v: Verb): UnitState {
    match v
    case IsActive => s
    case Enable => s.(enabled := true)
    case Disable => s.(enabled := false)
    case Start => s.(active := true)
    case Stop => s.(active := false)
  }

  /** The state of `unit` after the commands run in order; commands for other units leave it alone. */
  function Apply(unit: string, s: UnitState, cmds: seq<Command>): UnitState
    decreases |cmds|
  {
    if cmds == [] then s
    else Apply(unit, if cmds[0].unit == unit then Effect(s, cmds[0].verb) else s, cmds[1..])
  }

  lemma {:induction false} ApplyAppend(unit: string, s: UnitState, a: seq<Command>, b: seq<Command>)
    ensures Apply(unit, s, a + b) == Apply(unit, Apply(unit, s, a), b)
    decreases |a|
  {
    if a == [] {
      assert a + b == b;
    } else {
      assert (a + b)[1..] == a[1..] + b;
      ApplyAppend(unit, if a[0].unit == unit then Effect(s, a[0].verb) else s, a[1..], b);
    }
  }

  /** Every command the device issues names the service it was asked about. */
  lemma ToggleTouchesOnlyItsUnit(unit: string, active: bool)
    ensures forall c :: c in ToggleService(unit, active) ==> c.unit == unit
    ensures |ToggleService(unit, active)| == 3
  {
  }

  /** After `stop_service` the unit is not running, and it is disabled unless `disable` was false. */
  lemma StopLeavesInactive(unit: string, s: UnitState, disable: bool)
    ensures Apply(unit, s, StopService(unit, disable)) == UnitState(false, s.enabled && !disable)
  {
    ApplyAppend(unit, s, [Systemctl(Stop, unit)], if disable then [Systemctl(Disable, unit)] else []);
  }

  /** After `start_service` the unit runs, and it is enabled if it was or if `enable` was set. */
  lemma StartLeavesActive(unit: string, s: UnitState, enable: bool)
    ensures Apply(unit, s, StartService(unit, enable)) == UnitState(true, s.enabled || enable)
  {
    ApplyAppend(unit, s, if enable then [Systemctl(Enable, unit)] else [], [Systemctl(Start, unit)]);
  }

  /**
   * When the query answers truthfully, a toggle flips whether the unit runs,
   * and leaves it enabled exactly when it now runs.
   */
  lemma ToggleFlipsActivity(unit: string, s: UnitState)
    ensures Apply(unit, s, ToggleService(unit, s.active)) == UnitState(!s.active, !s.active)
  {
    var rest := if s.active then StopService(unit, true) else StartServiceAsWritten(unit, true);
    ApplyAppend(unit, s, [Systemctl(IsActive, unit)], rest);
    assert Apply(unit, s, [Systemctl(IsActive, unit)]) == s;
    if s.active {
      StopLeavesInactive(unit, s, true);
    } else {
      AsWrittenAgreesByDefault(unit);
      StartLeavesActive(unit, s, true);
    }
  }

  /** Two truthful toggles bring back whether the unit runs. */
  lemma ToggleTwiceRestoresActivity(unit: string, s: UnitState)
    ensures var once := Apply(unit, s, ToggleService(unit, s.active));
            Apply(unit, once, ToggleService(unit, once.active)).active == s.active
  {
    ToggleFlipsActivity(unit, s);
    var once := Apply(unit, s, ToggleService(unit, s.active));
    ToggleFlipsActivity(unit, once);
  }

  /**
   * `start_service(service, enable=False)` as written leaves a stopped,
   * disabled unit stopped and enables it: the flag guards `start`, not `enable`.
   */
  lemma StartWithoutEnableAsWritten(unit: string)
    ensures Apply(unit, UnitState(false, false), StartServiceAsWritten(unit, false)) == UnitState(false, true)
    ensures Apply(unit, UnitState(false, false), StartService(unit, false)) == UnitState(true, false)
  {
    StartLeavesActive(unit, UnitState(false, false), false);
    assert StartServiceAsWritten(unit, false) == [Systemctl(Enable, unit)];
  }

  /** With the default flag, which is all `toggle_service` uses, both forms issue the same commands. */
  lemma AsWrittenAgreesByDefault(unit: string)
    ensures StartServiceAsWritten(unit, true) == StartService(unit, true)
  {
  }
}
