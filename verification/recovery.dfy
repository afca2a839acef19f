/**
 * The automated recovery watchdog of the system-health screen
 * (src/app/system-health/recovery.ts).
 *
 * A controller holds a fixed table of five recovery actions and, per action
 * type, the time its effect last completed. A check first applies a global
 * distress gate; when it is open, the table is walked in order and every
 * action whose threshold test and cooldown test both pass has its effect run,
 * after which its type's timestamp is written. An effect that throws ends the
 * walk; the error is caught by the check and handed to the administrator
 * notification.
 *
 * The clock and the effects are parameters: a check starts at `now`, and the
 * clock only moves when an awaited effect completes (`Completed(finishedAt)`),
 * so a later cooldown test reads the completion time of the latest effect.
 */
module Recovery {
  import opened Common

  /** The type of a recovery action; also the key of the cooldown map. */
  datatype ActionType = Restart | Scale | Cleanup | Notification | Optimize | Backup

  /** One metrics snapshot, as handed to a check. */
  datatype Metrics = Metrics(cpuUsage: real, memoryUsage: real, diskSpace: real, responseTime: real)

  /** An entry of the action table; its effect is supplied per check. */
  datatype RecoveryAction = RecoveryAction(kind: ActionType, target: string, threshold: real)

  /** What awaiting an effect gives: completion at a clock reading, or a throw. */
  datatype EffectOutcome = Completed(finishedAt: int) | Threw(error: string)

  /** An effect that was run during a check, with its outcome. */
  datatype Attempt = Attempt(kind: ActionType, outcome: EffectOutcome)

  /** The state of a walk over the action table. */
  datatype Walk = Walk(stamps: map<ActionType, int>, clock: int, attempts: seq<Attempt>, error: Option<string>)

  /** Minimum time between two runs of the same action type, in milliseconds. */
  const CooldownPeriod: int := 300000

  /** The table built by `initializeRecoveryActions`. */
  function ActionTable(): seq<RecoveryAction> {
    [ RecoveryAction(Restart, "service", 90.0),
      RecoveryAction(Scale, "resources", 85.0),
      RecoveryAction(Cleanup, "memory", 80.0),
      RecoveryAction(Optimize, "database", 75.0),
      RecoveryAction(Backup, "data", 95.0) ]
  }

  function Kinds(actions: seq<RecoveryAction>): (ks: seq<ActionType>)
    ensures |ks| == |actions|
    ensures forall i :: 0 <= i < |actions| ==> ks[i] == actions[i].kind
  {
    Project(actions, (a: RecoveryAction) => a.kind)
  }

  function AttemptKinds(attempts: seq<Attempt>): (ks: seq<ActionType>)
    ensures |ks| == |attempts|
    ensures forall i :: 0 <= i < |attempts| ==> ks[i] == attempts[i].kind
  {
    Project(attempts, (a: Attempt) => a.kind)
  }

  /** The global distress gate of `checkAndRecover`. */
  predicate InDistress(m: Metrics) {
    m.cpuUsage > 90.0 || m.memoryUsage > 90.0 || m.diskSpace > 95.0 || m.responseTime > 5000.0
  }

  /** `shouldExecuteAction`: the threshold test, dispatched on the target name. */
  predicate ShouldExecute(action: RecoveryAction, m: Metrics) {
    match action.target
    case "service" => m.cpuUsage > action.threshold
    case "resources" => m.memoryUsage > action.threshold
    case "memory" => m.memoryUsage > action.threshold
    case "database" => m.responseTime > 3000.0
    case "data" => m.diskSpace > action.threshold
    case _ => false
  }

  /** The time a type last ran, or 0 when it never has (`|| 0`). */
  function LastExecution(stamps: map<ActionType, int>, kind: ActionType): int {
    if kind in stamps then stamps[kind] else 0
  }

  /** `checkCooldown`. */
  predicate CooldownElapsed(stamps: map<ActionType, int>, kind: ActionType, now: int) {
    now - LastExecution(stamps, kind) >= CooldownPeriod
  }

  /**
   * `executeRecoveryActions` from the walk state `w` over the remaining
   * actions: the final walk state.
   */
  function Run(actions: seq<RecoveryAction>, m: Metrics, effect: ActionType -> EffectOutcome, w: Walk): Walk
    decreases |actions|
  {
    if actions == [] then w
    else
      var a := actions[0];
      if ShouldExecute(a, m) && CooldownElapsed(w.stamps, a.kind, w.clock) then
        match effect(a.kind)
        case Threw(e) =>
          w.(attempts := w.attempts + [Attempt(a.kind, Threw(e))], error := Some(e))
        case Completed(t) =>
          Run(actions[1..], m, effect,
              w.(stamps := w.stamps[a.kind := t], clock := t,
                 attempts := w.attempts + [Attempt(a.kind, Completed(t))]))
      else Run(actions[1..], m, effect, w)
  }

  /** The outcome of one `checkAndRecover` call. */
  datatype Tick = Tick(stamps: map<ActionType, int>, notifications: seq<string>, attempts: seq<Attempt>)

  /** `checkAndRecover` on the given table, timestamps and notification log. */
  function Check(actions: seq<RecoveryAction>, m: Metrics, now: int, effect: ActionType -> EffectOutcome,
                 stamps: map<ActionType, int>, notifications: seq<string>): Tick
  {
    if !InDistress(m) then Tick(stamps, notifications, [])
    else
      var w := Run(actions, m, effect, Walk(stamps, now, [], None));
      Tick(w.stamps, if w.error.Some? then notifications + [w.error.value] else notifications, w.attempts)
  }

  /** The single controller instance. */
  class AutomatedRecovery {
    const recoveryActions: seq<RecoveryAction>
    var lastActionTimestamp: map<ActionType, int>
    /** The errors handed to `notifyAdmin`, oldest first. */
    var adminNotifications: seq<string>

    constructor ()
      ensures recoveryActions == ActionTable()
      ensures lastActionTimestamp == map[] && adminNotifications == []
    {
      recoveryActions := ActionTable();
      lastActionTimestamp := map[];
      adminNotifications := [];
    }

    /**
     * `executeRecoveryActions`: walks the table in order. Returns the effects
     * run and the error of a throwing effect, which ends the walk.
     */
    method ExecuteRecoveryActions(m: Metrics, now: int, effect: ActionType -> EffectOutcome)
      returns (attempts: seq<Attempt>, error: Option<string>)
      modifies this`lastActionTimestamp
      ensures var w := Run(recoveryActions, m, effect, Walk(old(lastActionTimestamp), now, [], None));
              lastActionTimestamp == w.stamps && attempts == w.attempts && error == w.error
    {
      var clock := now;
      attempts, error := [], None;
      var i := 0;
      while i < |recoveryActions|
        invariant 0 <= i <= |recoveryActions|
        invariant Run(recoveryActions[i..], m, effect, Walk(lastActionTimestamp, clock, attempts, None))
                  == Run(recoveryActions, m, effect, Walk(old(lastActionTimestamp), now, [], None))
      {
        var action := recoveryActions[i];
        assert recoveryActions[i..][1..] == recoveryActions[i + 1..];
        if ShouldExecute(action, m) && CooldownElapsed(lastActionTimestamp, action.kind, clock) {
          match effect(action.kind)
          case Threw(e) =>
            attempts := attempts + [Attempt(action.kind, Threw(e))];
            error := Some(e);
            return;
          case Completed(t) =>
            attempts := attempts + [Attempt(action.kind, Completed(t))];
            lastActionTimestamp := lastActionTimestamp[action.kind := t];
            clock := t;
        }
        i := i + 1;
      }
    }

    /** `checkAndRecover`: the distress gate, then the walk; a throw is notified. */
    method CheckAndRecover(m: Metrics, now: int, effect: ActionType -> EffectOutcome)
      returns (attempts: seq<Attempt>)
      modifies this
      ensures Check(recoveryActions, m, now, effect, old(lastActionTimestamp), old(adminNotifications))
              == Tick(lastActionTimestamp, adminNotifications, attempts)
    {
      attempts := [];
      if InDistress(m) {
        var error;
        attempts, error := ExecuteRecoveryActions(m, now, effect);
        if error.Some? {
          adminNotifications := adminNotifications + [error.value];
        }
      }
    }
  }
}
