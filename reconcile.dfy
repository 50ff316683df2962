/** What one reconciliation pass does, as values: the status the controller
    wants an autoscaler to have, the writes and events of each controller
    operation, and the whole pass for one work-queue key. The class in
    module Controller performs these effects on its store; the lemmas here
    are about the effects themselves. */
module Reconcile {
  import opened Types
  import Keys
  import Policy

  /** The objects the controller can read: fleets and autoscalers by identity. */
  datatype Store = Store(fleets: map<ObjectMeta, Fleet>, autoscalers: map<ObjectMeta, FleetAutoscaler>)

  /** Every object is stored under its own identity. */
  ghost predicate WellKeyed(s: Store)
  {
    (forall k :: k in s.fleets ==> s.fleets[k].meta == k) &&
    (forall k :: k in s.autoscalers ==> s.autoscalers[k].meta == k)
  }

  /** What an operation does outside itself: the fleet it writes, the
      autoscaler whose status it writes (each at most once) and the events
      it records, in order. */
  datatype Effect = Effect(fleetWrite: Option<Fleet>, statusWrite: Option<FleetAutoscaler>, events: seq<EventKind>)

  const NoEffect := Effect(None, None, [])

  function FleetWrites(e: Effect): nat { if e.fleetWrite.Some? then 1 else 0 }

  function StatusWrites(e: Effect): nat { if e.statusWrite.Some? then 1 else 0 }

  /** The store once the writes of `e` have been accepted. */
  function Apply(s: Store, e: Effect): Store
  {
    Store(
      match e.fleetWrite
      case None => s.fleets
      case Some(f) => s.fleets[f.meta := f],
      match e.statusWrite
      case None => s.autoscalers
      case Some(a) => s.autoscalers[a.meta := a])
  }

  /** Writing an object under its own identity keeps the store well keyed. */
  lemma ApplyKeepsWellKeyed(s: Store, e: Effect)
    requires WellKeyed(s)
    ensures WellKeyed(Apply(s, e))
  {
  }

  // ---------------------------------------------------------------- scaleFleet

  /** Scaling a fleet to `replicas`: when the count differs from the fleet's
      spec, the same fleet with only its spec replicas changed is written and
      an AutoScalingFleet event is recorded; otherwise nothing happens. */
  function ScaleFleetEffect(f: Fleet, replicas: nat): (e: Effect)
    ensures e.statusWrite.None?
    ensures e.fleetWrite.Some? <==> replicas != f.specReplicas
    ensures e.fleetWrite.Some? ==>
      var g := e.fleetWrite.value;
      g.specReplicas == replicas && g.meta == f.meta && g.status == f.status
    ensures e.events == (if replicas != f.specReplicas then [AutoScalingFleet] else [])
  {
    if replicas != f.specReplicas then
      Effect(Some(f.(specReplicas := replicas)), None, [AutoScalingFleet])
    else
      NoEffect
  }

  // -------------------------------------------------------------- updateStatus

  /** The status the controller wants after deciding on the counts: able to
      scale, the given limited flag and counts, and a scale time stamped with
      `now` only when `scaled`, otherwise the one already recorded. */
  function NextStatus(s: FleetAutoscalerStatus, currentReplicas: nat, desiredReplicas: nat,
                      scaled: bool, scalingLimited: bool, now: Time): (n: FleetAutoscalerStatus)
    ensures n.ableToScale
    ensures n.lastScaleTime != s.lastScaleTime ==> scaled
  {
    FleetAutoscalerStatus(currentReplicas, desiredReplicas, true, scalingLimited,
                          if scaled then Some(now) else s.lastScaleTime)
  }

  /** Without a scale, the wanted status equals the stored one exactly when
      the stored one is already able to scale with the same flag and counts;
      the `scaled` argument is not compared with `ableToScale`. */
  lemma NextStatusUnchangedIff(s: FleetAutoscalerStatus, currentReplicas: nat, desiredReplicas: nat,
                               scalingLimited: bool, now: Time)
    ensures NextStatus(s, currentReplicas, desiredReplicas, false, scalingLimited, now) == s <==>
      s.ableToScale && s.scalingLimited == scalingLimited &&
      s.currentReplicas == currentReplicas && s.desiredReplicas == desiredReplicas
  {
  }

  /** The scale time moves only on a scale, and a scale at a new time always
      moves it. */
  lemma ScaleTimeLaw(s: FleetAutoscalerStatus, currentReplicas: nat, desiredReplicas: nat,
                     scaled: bool, scalingLimited: bool, now: Time)
    ensures var n := NextStatus(s, currentReplicas, desiredReplicas, scaled, scalingLimited, now);
      (n.lastScaleTime != s.lastScaleTime <==> scaled && s.lastScaleTime != Some(now)) &&
      (scaled ==> n.lastScaleTime.Some?)
  {
  }

  /** Updating the status writes the autoscaler with the wanted status only
      when that differs from the stored one, and then records a
      ScalingLimited event when the scaling was limited. */
  function UpdateStatusEffect(fas: FleetAutoscaler, currentReplicas: nat, desiredReplicas: nat,
                              scaled: bool, scalingLimited: bool, now: Time): (e: Effect)
    ensures e.fleetWrite.None?
    ensures e.statusWrite.Some? <==>
      NextStatus(fas.status, currentReplicas, desiredReplicas, scaled, scalingLimited, now) != fas.status
    ensures e.statusWrite.Some? ==>
      e.statusWrite.value.meta == fas.meta && e.statusWrite.value.spec == fas.spec &&
      e.statusWrite.value.status == NextStatus(fas.status, currentReplicas, desiredReplicas, scaled, scalingLimited, now)
    ensures e.events == (if e.statusWrite.Some? && scalingLimited then [ScalingLimited] else [])
  {
    var next := NextStatus(fas.status, currentReplicas, desiredReplicas, scaled, scalingLimited, now);
    if next != fas.status then
      Effect(None, Some(fas.(status := next)), if scalingLimited then [ScalingLimited] else [])
    else
      NoEffect
  }

  /** Updating the status is idempotent: once the wanted status is stored, a
      second update with the same counts and flag and no scale writes nothing
      and records nothing, at any time. */
  lemma UpdateStatusIdempotent(fas: FleetAutoscaler, currentReplicas: nat, desiredReplicas: nat,
                               scaled: bool, scalingLimited: bool, now: Time, later: Time)
    ensures var stored := fas.(status := NextStatus(fas.status, currentReplicas, desiredReplicas, scaled, scalingLimited, now));
      UpdateStatusEffect(stored, currentReplicas, desiredReplicas, false, scalingLimited, later) == NoEffect
  {
  }

  // ------------------------------------------------- updateStatusUnableToScale

  /** The status of an autoscaler whose fleet cannot be scaled. */
  const UnableToScaleStatus := EmptyStatus

  /** Resetting the status writes the autoscaler with the unable-to-scale
      status only when it is not already stored, and records no event. */
  function UnableToScaleEffect(fas: FleetAutoscaler): (e: Effect)
    ensures e.fleetWrite.None? && e.events == []
    ensures e.statusWrite.Some? <==> fas.status != UnableToScaleStatus
    ensures e.statusWrite.Some? ==>
      e.statusWrite.value.meta == fas.meta && e.statusWrite.value.spec == fas.spec &&
      e.statusWrite.value.status == UnableToScaleStatus
  {
    if fas.status != UnableToScaleStatus then Effect(None, Some(fas.(status := UnableToScaleStatus)), [])
    else NoEffect
  }

  /** The reset is idempotent. */
  lemma UnableToScaleIdempotent(fas: FleetAutoscaler)
    ensures UnableToScaleEffect(fas.(status := UnableToScaleStatus)) == NoEffect
    ensures var e := UnableToScaleEffect(fas);
      e.statusWrite.Some? ==> UnableToScaleEffect(e.statusWrite.value) == NoEffect
  {
  }

  // ------------------------------------------------------ syncFleetAutoscaler

  /** The effect of one pass and the error it reports to the work queue. */
  datatype PassResult = PassResult(effect: Effect, err: Option<EvalError>)

  /** Where the pass looks for the autoscaler's fleet: the key's namespace
      and the fleet name in the autoscaler's spec. */
  function FleetKey(k: ObjectMeta, fas: FleetAutoscaler): ObjectMeta
  {
    ObjectMeta(k.namespace, fas.spec.fleetName)
  }

  /** One reconciliation pass for `key`. A malformed key and a missing
      autoscaler end the pass quietly. A missing fleet records FailedGetFleet
      and resets the status, and the pass still succeeds. A policy that
      cannot be evaluated records FailedEvaluation, resets the status and
      reports the error. Otherwise the fleet is scaled to the evaluated count
      and the status is updated with the fleet's current replicas, that
      count, and a scale flag that is set when the count differs from the
      fleet's spec. */
  function Pass(s: Store, key: string, now: Time, webhookReply: Option<nat>): (p: PassResult)
    ensures p.err.Some? ==>
      p.effect.fleetWrite.None? &&
      (p.effect.statusWrite.Some? ==> p.effect.statusWrite.value.status == UnableToScaleStatus)
    ensures p.effect.fleetWrite.Some? ==> p.err.None? && |p.effect.events| > 0 && p.effect.events[0] == AutoScalingFleet
    ensures ScalingLimited !in p.effect.events
  {
    match Keys.SplitMetaNamespaceKey(key)
    case None => PassResult(NoEffect, None)
    case Some(k) =>
      if k !in s.autoscalers then PassResult(NoEffect, None)
      else
        var fas := s.autoscalers[k];
        var fk := FleetKey(k, fas);
        if fk !in s.fleets then
          var u := UnableToScaleEffect(fas);
          PassResult(Effect(None, u.statusWrite, [FailedGetFleet] + u.events), None)
        else
          var f := s.fleets[fk];
          match Policy.Evaluate(fas.spec.policy, f, webhookReply)
          case Err(err) =>
            var u := UnableToScaleEffect(fas);
            PassResult(Effect(None, u.statusWrite, [FailedEvaluation] + u.events), Some(err))
          case Ok(desired) =>
            var sf := ScaleFleetEffect(f, desired);
            var us := UpdateStatusEffect(fas, f.status.replicas, desired, desired != f.specReplicas, false, now);
            PassResult(Effect(sf.fleetWrite, us.statusWrite, sf.events + us.events), None)
  }

  /** When the key names a stored autoscaler whose fleet is stored and whose
      policy evaluates to `desired`, the pass scales the fleet to `desired`
      and updates the status with the fleet's current replicas and
      `desired`, stamping the scale time exactly when the fleet's spec
      changes; it reports no error. */
  lemma PassScalesFoundFleet(s: Store, key: string, now: Time, webhookReply: Option<nat>,
                             k: ObjectMeta, desired: nat)
    requires Keys.SplitMetaNamespaceKey(key) == Some(k) && k in s.autoscalers
    requires FleetKey(k, s.autoscalers[k]) in s.fleets
    requires Policy.Evaluate(s.autoscalers[k].spec.policy, s.fleets[FleetKey(k, s.autoscalers[k])], webhookReply) == Ok(desired)
    ensures var fas := s.autoscalers[k];
      var f := s.fleets[FleetKey(k, fas)];
      var sf := ScaleFleetEffect(f, desired);
      var us := UpdateStatusEffect(fas, f.status.replicas, desired, desired != f.specReplicas, false, now);
      Pass(s, key, now, webhookReply) == PassResult(Effect(sf.fleetWrite, us.statusWrite, sf.events + us.events), None)
  {
  }

  /** A pass touches only the autoscaler named by its key and that
      autoscaler's fleet: the fleet it writes is the one it read with only
      its spec replicas changed, and the autoscaler it writes keeps its spec. */
  lemma PassFrame(s: Store, key: string, now: Time, webhookReply: Option<nat>)
    requires WellKeyed(s)
    ensures var p := Pass(s, key, now, webhookReply);
      (p.effect.statusWrite.Some? || p.effect.fleetWrite.Some? || p.effect.events != [] || p.err.Some?) ==>
        var k := Keys.SplitMetaNamespaceKey(key);
        k.Some? && k.value in s.autoscalers &&
        (p.effect.statusWrite.Some? ==>
           p.effect.statusWrite.value.meta == k.value &&
           p.effect.statusWrite.value.spec == s.autoscalers[k.value].spec) &&
        (p.effect.fleetWrite.Some? ==>
           var fk := FleetKey(k.value, s.autoscalers[k.value]);
           fk in s.fleets && p.effect.fleetWrite.value == s.fleets[fk].(specReplicas := p.effect.fleetWrite.value.specReplicas))
  {
  }

  /** A key that names a stored autoscaler whose fleet is not stored: the
      pass records FailedGetFleet, resets the autoscaler's status when it is
      not reset already, leaves the fleets alone and succeeds. */
  lemma PassMissingFleet(s: Store, key: string, now: Time, webhookReply: Option<nat>, k: ObjectMeta)
    requires Keys.SplitMetaNamespaceKey(key) == Some(k) && k in s.autoscalers
    requires FleetKey(k, s.autoscalers[k]) !in s.fleets
    ensures var p := Pass(s, key, now, webhookReply);
      p.err.None? && p.effect.fleetWrite.None? &&
      p.effect.statusWrite == UnableToScaleEffect(s.autoscalers[k]).statusWrite &&
      p.effect.events == [FailedGetFleet]
  {
  }

  /** A key that names a stored autoscaler whose fleet is stored but whose
      policy cannot be evaluated: the pass records FailedEvaluation, resets
      the autoscaler's status when it is not reset already, leaves the fleet
      alone and reports the evaluation's error. */
  lemma PassEvaluationFails(s: Store, key: string, now: Time, webhookReply: Option<nat>, k: ObjectMeta)
    requires Keys.SplitMetaNamespaceKey(key) == Some(k) && k in s.autoscalers
    requires FleetKey(k, s.autoscalers[k]) in s.fleets
    requires Policy.Evaluate(s.autoscalers[k].spec.policy, s.fleets[FleetKey(k, s.autoscalers[k])], webhookReply).Err?
    ensures var p := Pass(s, key, now, webhookReply);
      p.err == Some(Policy.Evaluate(s.autoscalers[k].spec.policy, s.fleets[FleetKey(k, s.autoscalers[k])], webhookReply).error) &&
      p.effect.fleetWrite.None? &&
      p.effect.statusWrite == UnableToScaleEffect(s.autoscalers[k]).statusWrite &&
      p.effect.events == [FailedEvaluation]
  {
  }

  /** A pass reports an error exactly when the key names a stored autoscaler
      whose fleet is stored and whose policy cannot be evaluated, and the
      error it reports is the evaluation's. */
  lemma PassErrIff(s: Store, key: string, now: Time, webhookReply: Option<nat>)
    ensures var p := Pass(s, key, now, webhookReply);
      var k := Keys.SplitMetaNamespaceKey(key);
      var found := k.Some? && k.value in s.autoscalers && FleetKey(k.value, s.autoscalers[k.value]) in s.fleets;
      (p.err.Some? <==>
         found && Policy.Evaluate(s.autoscalers[k.value].spec.policy,
                                  s.fleets[FleetKey(k.value, s.autoscalers[k.value])], webhookReply).Err?) &&
      (p.err.Some? ==>
         found && p.err == Some(Policy.Evaluate(s.autoscalers[k.value].spec.policy,
                                                s.fleets[FleetKey(k.value, s.autoscalers[k.value])], webhookReply).error))
  {
  }

  /** Reconciliation is idempotent: on a well-keyed store whose fleets'
      observed counts do not move, a second pass for the same key, at any
      later time and with the same webhook answer, writes nothing, reports
      the same error and records the same events, except that the fleet is
      not scaled again. */
  lemma SecondPassWritesNothing(s: Store, key: string, now: Time, later: Time, webhookReply: Option<nat>)
    requires WellKeyed(s)
    ensures var p1 := Pass(s, key, now, webhookReply);
      var p2 := Pass(Apply(s, p1.effect), key, later, webhookReply);
      p2.effect.fleetWrite.None? && p2.effect.statusWrite.None? && p2.err == p1.err &&
      p2.effect.events == (if p1.effect.events == [AutoScalingFleet] then [] else p1.effect.events)
  {
    var p1 := Pass(s, key, now, webhookReply);
    var s1 := Apply(s, p1.effect);
    match Keys.SplitMetaNamespaceKey(key)
    case None =>
    case Some(k) =>
      if k in s.autoscalers {
        var fas := s.autoscalers[k];
        var fk := FleetKey(k, fas);
        assert k in s1.autoscalers && s1.autoscalers[k].spec == fas.spec;
        if fk in s.fleets {
          var f := s.fleets[fk];
          assert fk in s1.fleets && s1.fleets[fk].status == f.status;
          match Policy.Evaluate(fas.spec.policy, f, webhookReply)
          case Err(_) =>
            assert s1.autoscalers[k].status == UnableToScaleStatus;
            assert s1.fleets[fk].status == f.status;
            assert [FailedEvaluation][0] != [AutoScalingFleet][0];
          case Ok(desired) =>
            assert s1.fleets[fk].specReplicas == desired;
            UpdateStatusIdempotent(fas, f.status.replicas, desired, desired != f.specReplicas, false, now, later);
        } else {
          assert fk !in s1.fleets;
          assert s1.autoscalers[k].status == UnableToScaleStatus;
          assert [FailedGetFleet][0] != [AutoScalingFleet][0];
        }
      }
  }

  /** Runs one pass per entry of `nows`, each on the store the previous one
      left, and counts the fleet writes and status writes they made. */
  function Run(s: Store, key: string, nows: seq<Time>, webhookReply: Option<nat>): (r: (Store, nat, nat))
    decreases |nows|
  {
    if nows == [] then (s, 0, 0)
    else
      var p := Pass(s, key, nows[0], webhookReply);
      var r := Run(Apply(s, p.effect), key, nows[1..], webhookReply);
      (r.0, FleetWrites(p.effect) + r.1, StatusWrites(p.effect) + r.2)
  }

  /** Every pass after the first is a no-op on the store. */
  lemma {:induction false} RunAfterPassIsStable(s: Store, key: string, now: Time, nows: seq<Time>,
                                                webhookReply: Option<nat>)
    requires WellKeyed(s)
    ensures var s1 := Apply(s, Pass(s, key, now, webhookReply).effect);
      Run(s1, key, nows, webhookReply) == (s1, 0, 0)
    decreases |nows|
  {
    if nows != [] {
      var s1 := Apply(s, Pass(s, key, now, webhookReply).effect);
      SecondPassWritesNothing(s, key, now, nows[0], webhookReply);
      assert Apply(s1, Pass(s1, key, nows[0], webhookReply).effect) == s1;
      RunAfterPassIsStable(s, key, now, nows[1..], webhookReply);
    }
  }

  /** However many passes run for one key over a stable fleet, together they
      write the fleet at most once and the autoscaler status at most once,
      and the store ends as the first pass left it. */
  lemma RepeatedPassesWriteAtMostOnce(s: Store, key: string, nows: seq<Time>, webhookReply: Option<nat>)
    requires WellKeyed(s)
    requires nows != []
    ensures var r := Run(s, key, nows, webhookReply);
      r.1 <= 1 && r.2 <= 1 &&
      r.0 == Apply(s, Pass(s, key, nows[0], webhookReply).effect)
  {
    RunAfterPassIsStable(s, key, nows[0], nows[1..], webhookReply);
  }
}
