/**
 * What a check of the recovery controller guarantees: the distress gate, the
 * per-type dispatch of the threshold test, table order, the end of the walk at
 * the first throwing effect, timestamps written only by completed effects, and
 * cooldown between checks.
 */
module RecoveryProperties {
  import opened Common
  import opened Recovery

  // ---------------------------------------------------------------------------
  // The threshold test

  /** The condition each action type of the table reacts to, stated per type. */
  predicate Triggered(kind: ActionType, m: Metrics) {
    match kind
    case Restart => m.cpuUsage > 90.0
    case Scale => m.memoryUsage > 85.0
    case Cleanup => m.memoryUsage > 80.0
    case Optimize => m.responseTime > 3000.0
    case Backup => m.diskSpace > 95.0
    case Notification => false
  }

  /** On the controller's table, the target-name dispatch is exactly `Triggered`. */
  lemma TableDispatch(m: Metrics)
    ensures forall a :: a in ActionTable() ==> (ShouldExecute(a, m) <==> Triggered(a.kind, m))
  {
  }

  /** The `database` target ignores its own threshold and tests the response time against 3000. */
  lemma DatabaseIgnoresThreshold(a: RecoveryAction, m: Metrics)
    requires a.target == "database"
    ensures ShouldExecute(a, m) <==> m.responseTime > 3000.0
  {
  }

  /** A target the dispatch does not know never fires. */
  lemma UnknownTargetNeverFires(a: RecoveryAction, m: Metrics)
    requires a.target !in {"service", "resources", "memory", "database", "data"}
    ensures !ShouldExecute(a, m)
  {
  }

  /** The five table entries have distinct types, so each is a separate cooldown key. */
  lemma TableKindsDistinct()
    ensures Distinct(Kinds(ActionTable()))
    ensures Kinds(ActionTable()) == [Restart, Scale, Cleanup, Optimize, Backup]
  {
  }

  // ---------------------------------------------------------------------------
  // The cooldown test

  /** A type is ready at `now` iff 300000 ms have passed since its last run, 0 standing for never. */
  lemma CooldownMeaning(stamps: map<ActionType, int>, kind: ActionType, now: int)
    ensures kind in stamps ==> (CooldownElapsed(stamps, kind, now) <==> now >= stamps[kind] + 300000)
    ensures kind !in stamps ==> (CooldownElapsed(stamps, kind, now) <==> now >= 300000)
  {
  }

  /** Readiness never expires as the clock advances. */
  lemma CooldownMonotone(stamps: map<ActionType, int>, kind: ActionType, now: int, later: int)
    requires now <= later && CooldownElapsed(stamps, kind, now)
    ensures CooldownElapsed(stamps, kind, later)
  {
  }

  // ---------------------------------------------------------------------------
  // The walk over the table

  /** Two timestamp maps agree on the entry of `k` (present in both with one value, or absent in both). */
  predicate SameEntry(a: map<ActionType, int>, b: map<ActionType, int>, k: ActionType) {
    (k in a <==> k in b) && (k in a ==> a[k] == b[k])
  }

  /** A walk only appends to the attempts it started with. */
  lemma {:induction false} RunExtends(actions: seq<RecoveryAction>, m: Metrics, effect: ActionType -> EffectOutcome, w: Walk)
    ensures var r := Run(actions, m, effect, w);
            |w.attempts| <= |r.attempts| && r.attempts[..|w.attempts|] == w.attempts
    decreases |actions|
  {
    if actions != [] {
      var a := actions[0];
      if ShouldExecute(a, m) && CooldownElapsed(w.stamps, a.kind, w.clock) && effect(a.kind).Completed? {
        var t := effect(a.kind).finishedAt;
        var w' := w.(stamps := w.stamps[a.kind := t], clock := t,
                     attempts := w.attempts + [Attempt(a.kind, Completed(t))]);
        RunExtends(actions[1..], m, effect, w');
        assert w'.attempts[..|w.attempts|] == w.attempts;
      } else if !(ShouldExecute(a, m) && CooldownElapsed(w.stamps, a.kind, w.clock)) {
        RunExtends(actions[1..], m, effect, w);
      }
    }
  }

  /** The attempts a walk adds. */
  function Added(w: Walk, r: Walk): seq<Attempt>
    requires |w.attempts| <= |r.attempts|
  {
    r.attempts[|w.attempts|..]
  }

  /** Effects run in table order: the types run form a subsequence of the table's types. */
  lemma {:induction false} RunInTableOrder(actions: seq<RecoveryAction>, m: Metrics, effect: ActionType -> EffectOutcome, w: Walk)
    ensures var r := Run(actions, m, effect, w);
            |w.attempts| <= |r.attempts| && IsSubsequence(AttemptKinds(Added(w, r)), Kinds(actions))
    decreases |actions|
  {
    var r := Run(actions, m, effect, w);
    RunExtends(actions, m, effect, w);
    if actions == [] {
    } else {
      var a := actions[0];
      assert Kinds(actions)[1..] == Kinds(actions[1..]);
      if ShouldExecute(a, m) && CooldownElapsed(w.stamps, a.kind, w.clock) {
        match effect(a.kind)
        case Threw(e) =>
          assert Added(w, r) == [Attempt(a.kind, Threw(e))];
          assert AttemptKinds(Added(w, r)) == [a.kind];
        case Completed(t) =>
          var w' := w.(stamps := w.stamps[a.kind := t], clock := t,
                       attempts := w.attempts + [Attempt(a.kind, Completed(t))]);
          RunInTableOrder(actions[1..], m, effect, w');
          RunExtends(actions[1..], m, effect, w');
          var added := Added(w, r);
          assert added == [Attempt(a.kind, Completed(t))] + Added(w', r);
          assert AttemptKinds(added)[1..] == AttemptKinds(Added(w', r));
      } else {
        RunInTableOrder(actions[1..], m, effect, w);
      }
    }
  }

  /**
   * A throwing effect ends the walk: every effect run before it completed, and
   * the walk reports an error exactly when its last effect threw, with that
   * effect's error.
   */
  lemma {:induction false} RunStopsAtThrow(actions: seq<RecoveryAction>, m: Metrics, effect: ActionType -> EffectOutcome, w: Walk)
    requires w.error.None?
    ensures var r := Run(actions, m, effect, w);
            |w.attempts| <= |r.attempts| &&
            var added := Added(w, r);
            (forall i :: 0 <= i < |added| - 1 ==> added[i].outcome.Completed?) &&
            (r.error.Some? <==> added != [] && added[|added| - 1].outcome.Threw?) &&
            (r.error.Some? ==> r.error.value == added[|added| - 1].outcome.error)
    decreases |actions|
  {
    var r := Run(actions, m, effect, w);
    RunExtends(actions, m, effect, w);
    if actions != [] {
      var a := actions[0];
      if ShouldExecute(a, m) && CooldownElapsed(w.stamps, a.kind, w.clock) {
        match effect(a.kind)
        case Threw(e) =>
          assert Added(w, r) == [Attempt(a.kind, Threw(e))];
        case Completed(t) =>
          var w' := w.(stamps := w.stamps[a.kind := t], clock := t,
                       attempts := w.attempts + [Attempt(a.kind, Completed(t))]);
          RunStopsAtThrow(actions[1..], m, effect, w');
          RunExtends(actions[1..], m, effect, w');
          assert Added(w, r) == [Attempt(a.kind, Completed(t))] + Added(w', r);
      } else {
        RunStopsAtThrow(actions[1..], m, effect, w);
      }
    }
  }

  /**
   * A timestamp changes only through a completed effect of its own type, and
   * then holds that effect's completion time.
   */
  lemma {:induction false} RunStampFrame(actions: seq<RecoveryAction>, m: Metrics, effect: ActionType -> EffectOutcome, w: Walk)
    ensures var r := Run(actions, m, effect, w);
            |w.attempts| <= |r.attempts| &&
            forall k :: SameEntry(w.stamps, r.stamps, k) ||
                        (k in r.stamps && Attempt(k, Completed(r.stamps[k])) in Added(w, r))
    decreases |actions|
  {
    var r := Run(actions, m, effect, w);
    RunExtends(actions, m, effect, w);
    if actions != [] {
      var a := actions[0];
      if ShouldExecute(a, m) && CooldownElapsed(w.stamps, a.kind, w.clock) && effect(a.kind).Completed? {
        var t := effect(a.kind).finishedAt;
        var w' := w.(stamps := w.stamps[a.kind := t], clock := t,
                     attempts := w.attempts + [Attempt(a.kind, Completed(t))]);
        RunStampFrame(actions[1..], m, effect, w');
        RunExtends(actions[1..], m, effect, w');
        assert Added(w, r) == [Attempt(a.kind, Completed(t))] + Added(w', r);
        forall k
          ensures SameEntry(w.stamps, r.stamps, k) ||
                  (k in r.stamps && Attempt(k, Completed(r.stamps[k])) in Added(w, r))
        {
          if !SameEntry(w'.stamps, r.stamps, k) {
            assert Attempt(k, Completed(r.stamps[k])) in Added(w', r);
          }
        }
      } else if !(ShouldExecute(a, m) && CooldownElapsed(w.stamps, a.kind, w.clock)) {
        RunStampFrame(actions[1..], m, effect, w);
      }
    }
  }

  /** Every effect run belongs to a table entry whose threshold test passed. */
  lemma {:induction false} RunOnlyTriggered(actions: seq<RecoveryAction>, m: Metrics, effect: ActionType -> EffectOutcome, w: Walk)
    ensures var r := Run(actions, m, effect, w);
            |w.attempts| <= |r.attempts| &&
            forall x :: x in Added(w, r) ==> exists a :: a in actions && a.kind == x.kind && ShouldExecute(a, m)
    decreases |actions|
  {
    var r := Run(actions, m, effect, w);
    RunExtends(actions, m, effect, w);
    if actions != [] {
      var a := actions[0];
      if ShouldExecute(a, m) && CooldownElapsed(w.stamps, a.kind, w.clock) {
        match effect(a.kind)
        case Threw(e) =>
          assert Added(w, r) == [Attempt(a.kind, Threw(e))];
        case Completed(t) =>
          var w' := w.(stamps := w.stamps[a.kind := t], clock := t,
                       attempts := w.attempts + [Attempt(a.kind, Completed(t))]);
          RunOnlyTriggered(actions[1..], m, effect, w');
          RunExtends(actions[1..], m, effect, w');
          assert Added(w, r) == [Attempt(a.kind, Completed(t))] + Added(w', r);
          forall x | x in Added(w', r)
            ensures exists b :: b in actions && b.kind == x.kind && ShouldExecute(b, m)
          {
            var b :| b in actions[1..] && b.kind == x.kind && ShouldExecute(b, m);
            assert b in actions;
          }
      } else {
        RunOnlyTriggered(actions[1..], m, effect, w);
        forall x | x in Added(w, r)
          ensures exists b :: b in actions && b.kind == x.kind && ShouldExecute(b, m)
        {
          var b :| b in actions[1..] && b.kind == x.kind && ShouldExecute(b, m);
          assert b in actions;
        }
      }
    }
  }

  /**
   * Cooldown: while the walk's clock stays inside a type's window (every
   * effect completes before the window closes), that type is not run and
   * keeps its timestamp.
   */
  lemma {:induction false} RunRespectsCooldown(actions: seq<RecoveryAction>, m: Metrics, effect: ActionType -> EffectOutcome,
                                               w: Walk, k: ActionType)
    requires w.clock < LastExecution(w.stamps, k) + CooldownPeriod
    requires forall j :: effect(j).Completed? ==> effect(j).finishedAt < LastExecution(w.stamps, k) + CooldownPeriod
    ensures var r := Run(actions, m, effect, w);
            |w.attempts| <= |r.attempts| &&
            k !in AttemptKinds(Added(w, r)) && SameEntry(w.stamps, r.stamps, k)
    decreases |actions|
  {
    var r := Run(actions, m, effect, w);
    RunExtends(actions, m, effect, w);
    if actions != [] {
      var a := actions[0];
      if ShouldExecute(a, m) && CooldownElapsed(w.stamps, a.kind, w.clock) {
        assert a.kind != k;
        match effect(a.kind)
        case Threw(e) =>
          assert Added(w, r) == [Attempt(a.kind, Threw(e))];
        case Completed(t) =>
          var w' := w.(stamps := w.stamps[a.kind := t], clock := t,
                       attempts := w.attempts + [Attempt(a.kind, Completed(t))]);
          assert LastExecution(w'.stamps, k) == LastExecution(w.stamps, k);
          RunRespectsCooldown(actions[1..], m, effect, w', k);
          RunExtends(actions[1..], m, effect, w');
          assert Added(w, r) == [Attempt(a.kind, Completed(t))] + Added(w', r);
          assert AttemptKinds(Added(w, r)) == [a.kind] + AttemptKinds(Added(w', r));
      } else {
        RunRespectsCooldown(actions[1..], m, effect, w, k);
      }
    }
  }

  /** The types a walk runs all come from the table. */
  lemma {:induction false} RunKindsFromTable(actions: seq<RecoveryAction>, m: Metrics, effect: ActionType -> EffectOutcome, w: Walk)
    ensures var r := Run(actions, m, effect, w);
            |w.attempts| <= |r.attempts| &&
            forall x :: x in Added(w, r) ==> x.kind in Kinds(actions)
  {
    RunOnlyTriggered(actions, m, effect, w);
    var r := Run(actions, m, effect, w);
    forall x | x in Added(w, r) ensures x.kind in Kinds(actions) {
      var a :| a in actions && a.kind == x.kind && ShouldExecute(a, m);
      var i :| 0 <= i < |actions| && actions[i] == a;
      assert Kinds(actions)[i] == x.kind;
    }
  }

  /** The head's type does not recur in the tail, and the tail's types are distinct. */
  lemma DistinctTail(actions: seq<RecoveryAction>)
    requires actions != [] && Distinct(Kinds(actions))
    ensures actions[0].kind !in Kinds(actions[1..]) && Distinct(Kinds(actions[1..]))
  {
    var ks, tail := Kinds(actions), Kinds(actions[1..]);
    forall i | 0 <= i < |tail| ensures tail[i] == ks[i + 1] {
    }
  }

  /** A type that has no entry among the remaining actions is not run and keeps its timestamp. */
  lemma {:induction false} RunLeavesOtherTypes(actions: seq<RecoveryAction>, m: Metrics, effect: ActionType -> EffectOutcome,
                                               w: Walk, k: ActionType)
    requires k !in Kinds(actions)
    ensures var r := Run(actions, m, effect, w);
            |w.attempts| <= |r.attempts| &&
            k !in AttemptKinds(Added(w, r)) && SameEntry(w.stamps, r.stamps, k)
    decreases |actions|
  {
    var r := Run(actions, m, effect, w);
    RunExtends(actions, m, effect, w);
    if actions != [] {
      var a := actions[0];
      assert Kinds(actions) == [a.kind] + Kinds(actions[1..]);
      if ShouldExecute(a, m) && CooldownElapsed(w.stamps, a.kind, w.clock) {
        match effect(a.kind)
        case Threw(e) =>
          assert Added(w, r) == [Attempt(a.kind, Threw(e))];
        case Completed(t) =>
          var w' := w.(stamps := w.stamps[a.kind := t], clock := t,
                       attempts := w.attempts + [Attempt(a.kind, Completed(t))]);
          RunLeavesOtherTypes(actions[1..], m, effect, w', k);
          RunExtends(actions[1..], m, effect, w');
          assert Added(w, r) == [Attempt(a.kind, Completed(t))] + Added(w', r);
          assert AttemptKinds(Added(w, r)) == [a.kind] + AttemptKinds(Added(w', r));
      } else {
        RunLeavesOtherTypes(actions[1..], m, effect, w, k);
      }
    }
  }

  /** Each completed attempt's type has the attempt's completion time as its timestamp. */
  ghost predicate CompletionsRecorded(attempts: seq<Attempt>, stamps: map<ActionType, int>) {
    forall k, t :: Attempt(k, Completed(t)) in attempts ==> k in stamps && stamps[k] == t
  }

  /** With distinct types in the table, a completed effect leaves its completion time as its type's timestamp. */
  lemma {:induction false} RunRecordsCompletion(actions: seq<RecoveryAction>, m: Metrics, effect: ActionType -> EffectOutcome, w: Walk)
    requires Distinct(Kinds(actions))
    ensures var r := Run(actions, m, effect, w);
            |w.attempts| <= |r.attempts| && CompletionsRecorded(Added(w, r), r.stamps)
    decreases |actions|
  {
    var r := Run(actions, m, effect, w);
    RunExtends(actions, m, effect, w);
    if actions != [] {
      var a := actions[0];
      DistinctTail(actions);
      if ShouldExecute(a, m) && CooldownElapsed(w.stamps, a.kind, w.clock) && effect(a.kind).Completed? {
        var t := effect(a.kind).finishedAt;
        var w' := w.(stamps := w.stamps[a.kind := t], clock := t,
                     attempts := w.attempts + [Attempt(a.kind, Completed(t))]);
        assert r == Run(actions[1..], m, effect, w');
        RunRecordsCompletion(actions[1..], m, effect, w');
        RunLeavesOtherTypes(actions[1..], m, effect, w', a.kind);
        RunExtends(actions[1..], m, effect, w');
        CompletedFirst(|w.attempts|, a.kind, t, w', r);
      } else if !(ShouldExecute(a, m) && CooldownElapsed(w.stamps, a.kind, w.clock)) {
        assert r == Run(actions[1..], m, effect, w);
        RunRecordsCompletion(actions[1..], m, effect, w);
      } else {
        assert Added(w, r) == [Attempt(a.kind, effect(a.kind))];
      }
    }
  }

  /** The step of `RunRecordsCompletion` where the attempt at position n completed at time t. */
  lemma CompletedFirst(n: nat, k0: ActionType, t: int, w': Walk, r: Walk)
    requires |w'.attempts| == n + 1 <= |r.attempts| && r.attempts[..n + 1] == w'.attempts
    requires w'.attempts[n] == Attempt(k0, Completed(t))
    requires CompletionsRecorded(Added(w', r), r.stamps)
    requires SameEntry(w'.stamps, r.stamps, k0) && k0 in w'.stamps && w'.stamps[k0] == t
    ensures CompletionsRecorded(r.attempts[n..], r.stamps)
  {
    assert r.attempts[n] == w'.attempts[n];
    assert r.attempts[n..] == [r.attempts[n]] + Added(w', r);
  }

  /** Each type whose attempt threw has the same timestamp, or none, in both maps. */
  ghost predicate ThrowersKept(attempts: seq<Attempt>, before: map<ActionType, int>, after: map<ActionType, int>) {
    forall k, e :: Attempt(k, Threw(e)) in attempts ==> SameEntry(before, after, k)
  }

  /** With distinct types in the table, a throwing effect leaves its type's timestamp as it was. */
  lemma {:induction false} RunThrowerKeepsStamp(actions: seq<RecoveryAction>, m: Metrics, effect: ActionType -> EffectOutcome, w: Walk)
    requires Distinct(Kinds(actions))
    ensures var r := Run(actions, m, effect, w);
            |w.attempts| <= |r.attempts| && ThrowersKept(Added(w, r), w.stamps, r.stamps)
    decreases |actions|
  {
    var r := Run(actions, m, effect, w);
    RunExtends(actions, m, effect, w);
    if actions != [] {
      var a := actions[0];
      DistinctTail(actions);
      if ShouldExecute(a, m) && CooldownElapsed(w.stamps, a.kind, w.clock) && effect(a.kind).Completed? {
        var t := effect(a.kind).finishedAt;
        var w' := w.(stamps := w.stamps[a.kind := t], clock := t,
                     attempts := w.attempts + [Attempt(a.kind, Completed(t))]);
        RunThrowerKeepsStamp(actions[1..], m, effect, w');
        RunLeavesOtherTypes(actions[1..], m, effect, w', a.kind);
        RunExtends(actions[1..], m, effect, w');
        assert Added(w, r) == [Attempt(a.kind, Completed(t))] + Added(w', r);
        forall k, e | Attempt(k, Threw(e)) in Added(w, r) ensures SameEntry(w.stamps, r.stamps, k) {
          assert Attempt(k, Threw(e)) in Added(w', r);
          var i :| 0 <= i < |Added(w', r)| && Added(w', r)[i] == Attempt(k, Threw(e));
          assert AttemptKinds(Added(w', r))[i] == k;
          assert k != a.kind;
          assert SameEntry(w.stamps, w'.stamps, k);
          assert SameEntry(w'.stamps, r.stamps, k);
        }
      } else if !(ShouldExecute(a, m) && CooldownElapsed(w.stamps, a.kind, w.clock)) {
        RunThrowerKeepsStamp(actions[1..], m, effect, w);
      } else {
        assert Added(w, r) == [Attempt(a.kind, effect(a.kind))];
      }
    }
  }

  // ---------------------------------------------------------------------------
  // Checks of the controller's table

  /** Below the distress gate nothing runs and nothing changes. */
  lemma QuietSnapshotChangesNothing(m: Metrics, now: int, effect: ActionType -> EffectOutcome,
                                    stamps: map<ActionType, int>, log: seq<string>)
    requires !InDistress(m)
    ensures Check(ActionTable(), m, now, effect, stamps, log) == Tick(stamps, log, [])
  {
  }

  /**
   * One check over any table: the effects run are in table order, each for a
   * type whose condition holds.
   */
  lemma CheckOrderFor(actions: seq<RecoveryAction>, m: Metrics, now: int, effect: ActionType -> EffectOutcome,
                      stamps: map<ActionType, int>, log: seq<string>)
    requires forall a :: a in actions ==> (ShouldExecute(a, m) <==> Triggered(a.kind, m))
    ensures var c := Check(actions, m, now, effect, stamps, log);
            && IsSubsequence(AttemptKinds(c.attempts), Kinds(actions))
            && (forall x :: x in c.attempts ==> Triggered(x.kind, m))
  {
    if InDistress(m) {
      var w := Walk(stamps, now, [], None);
      var r := Run(actions, m, effect, w);
      RunInTableOrder(actions, m, effect, w);
      RunOnlyTriggered(actions, m, effect, w);
      assert Added(w, r) == r.attempts;
      forall x | x in r.attempts ensures Triggered(x.kind, m) {
        var a :| a in actions && a.kind == x.kind && ShouldExecute(a, m);
      }
    } else {
      assert AttemptKinds([]) == [];
    }
  }

  /**
   * One check: every effect run but the last completed, and the notification
   * log grows by the last one's error exactly when it threw.
   */
  lemma CheckNotifiesFor(actions: seq<RecoveryAction>, m: Metrics, now: int, effect: ActionType -> EffectOutcome,
                         stamps: map<ActionType, int>, log: seq<string>)
    ensures var c := Check(actions, m, now, effect, stamps, log);
            var n := |c.attempts|;
            && (forall i :: 0 <= i < n - 1 ==> c.attempts[i].outcome.Completed?)
            && c.notifications == (if n > 0 && c.attempts[n - 1].outcome.Threw?
                                   then log + [c.attempts[n - 1].outcome.error] else log)
  {
    if InDistress(m) {
      var w := Walk(stamps, now, [], None);
      var r := Run(actions, m, effect, w);
      RunStopsAtThrow(actions, m, effect, w);
      assert Added(w, r) == r.attempts;
    }
  }

  /**
   * One check over a table with distinct types: a type not run keeps its
   * timestamp, so its readiness is unchanged; a completed effect leaves its
   * completion time as its type's timestamp and a throwing one leaves its
   * type's timestamp as it was.
   */
  lemma CheckStampsFor(actions: seq<RecoveryAction>, m: Metrics, now: int, effect: ActionType -> EffectOutcome,
                       stamps: map<ActionType, int>, log: seq<string>)
    requires Distinct(Kinds(actions))
    ensures var c := Check(actions, m, now, effect, stamps, log);
            && (forall k :: k !in AttemptKinds(c.attempts) ==> SameEntry(stamps, c.stamps, k))
            && CompletionsRecorded(c.attempts, c.stamps)
            && ThrowersKept(c.attempts, stamps, c.stamps)
  {
    if InDistress(m) {
      var w := Walk(stamps, now, [], None);
      var r := Run(actions, m, effect, w);
      RunStampFrame(actions, m, effect, w);
      RunRecordsCompletion(actions, m, effect, w);
      RunThrowerKeepsStamp(actions, m, effect, w);
      assert Added(w, r) == r.attempts;
    }
  }

  /**
   * What one check promises, given the timestamps and log it started from and
   * the types of its table in order: the effects run are in table order, each
   * for a type whose condition holds; every one but the last completed; the
   * notification log grows by the last one's error exactly when it threw; a
   * type not run keeps its timestamp, so its readiness is unchanged; a
   * completed effect leaves its completion time as its type's timestamp and a
   * throwing one leaves it as it was.
   */
  ghost predicate WellBehavedCheck(c: Tick, m: Metrics, stamps: map<ActionType, int>, log: seq<string>, order: seq<ActionType>) {
    var n := |c.attempts|;
    && IsSubsequence(AttemptKinds(c.attempts), order)
    && (forall x :: x in c.attempts ==> Triggered(x.kind, m))
    && (forall i :: 0 <= i < n - 1 ==> c.attempts[i].outcome.Completed?)
    && c.notifications == (if n > 0 && c.attempts[n - 1].outcome.Threw?
                           then log + [c.attempts[n - 1].outcome.error] else log)
    && (forall k :: k !in AttemptKinds(c.attempts) ==> SameEntry(stamps, c.stamps, k))
    && CompletionsRecorded(c.attempts, c.stamps)
    && ThrowersKept(c.attempts, stamps, c.stamps)
  }

  /** Every check over a table with distinct types and a faithful dispatch behaves well. */
  lemma CheckSummaryFor(actions: seq<RecoveryAction>, m: Metrics, now: int, effect: ActionType -> EffectOutcome,
                        stamps: map<ActionType, int>, log: seq<string>)
    requires Distinct(Kinds(actions))
    requires forall a :: a in actions ==> (ShouldExecute(a, m) <==> Triggered(a.kind, m))
    ensures WellBehavedCheck(Check(actions, m, now, effect, stamps, log), m, stamps, log, Kinds(actions))
  {
    CheckOrderFor(actions, m, now, effect, stamps, log);
    CheckNotifiesFor(actions, m, now, effect, stamps, log);
    CheckStampsFor(actions, m, now, effect, stamps, log);
  }

  /** Every check of the controller behaves well, with Restart, Scale, Cleanup, Optimize, Backup as the order. */
  lemma CheckSummary(m: Metrics, now: int, effect: ActionType -> EffectOutcome,
                     stamps: map<ActionType, int>, log: seq<string>)
    ensures WellBehavedCheck(Check(ActionTable(), m, now, effect, stamps, log), m, stamps, log,
                             [Restart, Scale, Cleanup, Optimize, Backup])
  {
    TableKindsDistinct();
    TableDispatch(m);
    CheckSummaryFor(ActionTable(), m, now, effect, stamps, log);
  }

  /** A check whose clock stays inside a type's cooldown window neither runs that type nor touches its timestamp. */
  lemma CheckRespectsCooldown(m: Metrics, now: int, effect: ActionType -> EffectOutcome,
                              stamps: map<ActionType, int>, log: seq<string>, k: ActionType)
    requires now < LastExecution(stamps, k) + CooldownPeriod
    requires forall j :: effect(j).Completed? ==> effect(j).finishedAt < LastExecution(stamps, k) + CooldownPeriod
    ensures var c := Check(ActionTable(), m, now, effect, stamps, log);
            k !in AttemptKinds(c.attempts) && SameEntry(stamps, c.stamps, k)
  {
    if InDistress(m) {
      var w := Walk(stamps, now, [], None);
      RunRespectsCooldown(ActionTable(), m, effect, w, k);
      assert Added(w, Run(ActionTable(), m, effect, w)) == Run(ActionTable(), m, effect, w).attempts;
    }
  }

  /** When the first remaining action passes both tests, its effect is the next one run. */
  lemma RunHeadFirst(actions: seq<RecoveryAction>, m: Metrics, effect: ActionType -> EffectOutcome, w: Walk)
    requires actions != [] && ShouldExecute(actions[0], m) && CooldownElapsed(w.stamps, actions[0].kind, w.clock)
    ensures var r := Run(actions, m, effect, w);
            |w.attempts| < |r.attempts| && r.attempts[|w.attempts|] == Attempt(actions[0].kind, effect(actions[0].kind))
  {
    var a := actions[0];
    if effect(a.kind).Completed? {
      var f := effect(a.kind).finishedAt;
      var w' := w.(stamps := w.stamps[a.kind := f], clock := f,
                   attempts := w.attempts + [Attempt(a.kind, Completed(f))]);
      RunExtends(actions[1..], m, effect, w');
    }
  }

  /** Restart heads the table: when the CPU is above 90 and its cooldown has elapsed, it is the first effect run. */
  lemma CheckRunsReadyRestartFirst(m: Metrics, now: int, effect: ActionType -> EffectOutcome,
                                   stamps: map<ActionType, int>, log: seq<string>)
    requires m.cpuUsage > 90.0 && CooldownElapsed(stamps, Restart, now)
    ensures var c := Check(ActionTable(), m, now, effect, stamps, log);
            |c.attempts| >= 1 && c.attempts[0] == Attempt(Restart, effect(Restart))
  {
    RunHeadFirst(ActionTable(), m, effect, Walk(stamps, now, [], None));
  }

  /**
   * The snapshot {cpu 95, memory 50, disk 50, response time 100} with an empty
   * history at a time of at least 300000 runs the restart effect and nothing else.
   */
  lemma CpuSpikeRunsOnlyRestart(now: int, effect: ActionType -> EffectOutcome, log: seq<string>)
    requires now >= CooldownPeriod
    ensures var c := Check(ActionTable(), Metrics(95.0, 50.0, 50.0, 100.0), now, effect, map[], log);
            c.attempts == [Attempt(Restart, effect(Restart))] &&
            c.stamps == (if effect(Restart).Completed? then map[Restart := effect(Restart).finishedAt] else map[]) &&
            c.notifications == (if effect(Restart).Threw? then log + [effect(Restart).error] else log)
  {
    var t := ActionTable();
    assert t[1..][1..][1..][1..][1..] == [];
  }

  /** A check that runs a ready Restart whose effect completes at `done` leaves `done` as Restart's timestamp. */
  lemma CheckStampsReadyRestart(m: Metrics, now: int, effect: ActionType -> EffectOutcome,
                                stamps: map<ActionType, int>, log: seq<string>, done: int)
    requires m.cpuUsage > 90.0 && CooldownElapsed(stamps, Restart, now)
    requires effect(Restart) == Completed(done)
    ensures var c := Check(ActionTable(), m, now, effect, stamps, log);
            Restart in c.stamps && c.stamps[Restart] == done
  {
    var c := Check(ActionTable(), m, now, effect, stamps, log);
    CheckRunsReadyRestartFirst(m, now, effect, stamps, log);
    TableKindsDistinct();
    CheckStampsFor(ActionTable(), m, now, effect, stamps, log);
    assert c.attempts[0] in c.attempts;
  }

  /**
   * Two checks with the same CPU spike: after the first runs the restart and
   * it completes at `done`, a second check (with effects of its own) starting
   * less than 300000 ms after `done` does not run the restart again and keeps
   * its timestamp; one starting at least 300000 ms after `done` runs it first.
   * Restart heads the table, so only the second check's starting time matters.
   */
  lemma RestartCooldownAcrossChecks(m: Metrics, now1: int, now2: int, effect: ActionType -> EffectOutcome,
                                    effect2: ActionType -> EffectOutcome, stamps: map<ActionType, int>,
                                    log: seq<string>, done: int, first: Tick, second: Tick)
    requires m.cpuUsage > 90.0 && CooldownElapsed(stamps, Restart, now1)
    requires effect(Restart) == Completed(done)
    requires first == Check(ActionTable(), m, now1, effect, stamps, log)
    requires second == Check(ActionTable(), m, now2, effect2, first.stamps, first.notifications)
    ensures Restart in first.stamps && first.stamps[Restart] == done
    ensures now2 < done + CooldownPeriod ==>
              Restart !in AttemptKinds(second.attempts) && Restart in second.stamps && second.stamps[Restart] == done
    ensures now2 >= done + CooldownPeriod ==>
              |second.attempts| >= 1 && second.attempts[0] == Attempt(Restart, effect2(Restart))
  {
    CheckStampsReadyRestart(m, now1, effect, stamps, log, done);
    if now2 < done + CooldownPeriod {
      var t := ActionTable();
      var w := Walk(first.stamps, now2, [], None);
      assert !CooldownElapsed(first.stamps, Restart, now2);
      assert Run(t, m, effect2, w) == Run(t[1..], m, effect2, w);
      TableKindsDistinct();
      DistinctTail(t);
      RunLeavesOtherTypes(t[1..], m, effect2, w, Restart);
      assert Added(w, Run(t, m, effect2, w)) == second.attempts;
    } else {
      CheckRunsReadyRestartFirst(m, now2, effect2, first.stamps, first.notifications);
    }
  }
}
