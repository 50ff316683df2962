/** The default fleet and autoscalers of the controller's tests, and the
    outcomes those tests expect, stated about the model. */
module Fixtures {
  import opened Types
  import opened Admission
  import opened Reconcile

  const DefaultFleet := Fleet(ObjectMeta("default", "fleet-1"), 8, FleetStatus(5, 3, 3, 2))

  /** A buffer autoscaler for "fleet-1": buffer 5, at most 100 replicas. */
  const DefaultAutoscaler := FleetAutoscaler(
    ObjectMeta("default", "fas-1"),
    FleetAutoscalerSpec("fleet-1",
      FleetAutoscalerPolicy(BufferPolicyType, Some(BufferPolicy(5, 0, 100)), None)),
    EmptyStatus)

  /** The same autoscaler with a webhook policy naming a service and a path. */
  const DefaultWebhookAutoscaler := DefaultAutoscaler.(spec := DefaultAutoscaler.spec.(policy :=
    FleetAutoscalerPolicy(WebhookPolicyType, None,
      Some(WebhookPolicy(Some(ServiceReference("fleetautoscaler-service", Some("/autoscaler"))), None)))))

  /** A review of `fas` whose response starts out allowed. */
  function ReviewOf(fas: FleetAutoscaler): AdmissionReview
  {
    AdmissionReview(fas, AdmissionResponse(true, None))
  }

  function WithBufferSize(fas: FleetAutoscaler, size: nat): FleetAutoscaler
    requires fas.spec.policy.buffer.Some?
  {
    fas.(spec := fas.spec.(policy := fas.spec.policy.(buffer := Some(fas.spec.policy.buffer.value.(bufferSize := size)))))
  }

  /** A store holding `fas` and, when given, the fleet `f`. */
  function StoreOf(f: Option<Fleet>, fas: FleetAutoscaler): Store
  {
    Store(if f.Some? then map[f.value.meta := f.value] else map[], map[fas.meta := fas])
  }

  /** Both default autoscalers are admitted; removing the variant their type
      names gets them denied with status Failure, reason Invalid and details. */
  lemma AdmissionOfFixtures()
    ensures ValidationHandler(ReviewOf(DefaultAutoscaler)).response.allowed
    ensures ValidationHandler(ReviewOf(DefaultWebhookAutoscaler)).response.allowed
    ensures var bad := DefaultAutoscaler.(spec := DefaultAutoscaler.spec.(policy := DefaultAutoscaler.spec.policy.(buffer := None)));
      var r := ValidationHandler(ReviewOf(bad)).response;
      !r.allowed && r.result.Some? && r.result.value.status == StatusFailure &&
      r.result.value.reason == StatusReasonInvalid && r.result.value.causes != []
    ensures var bad := DefaultWebhookAutoscaler.(spec := DefaultWebhookAutoscaler.spec.(policy := DefaultWebhookAutoscaler.spec.policy.(webhook := None)));
      var r := ValidationHandler(ReviewOf(bad)).response;
      !r.allowed && r.result.Some? && r.result.value.status == StatusFailure &&
      r.result.value.reason == StatusReasonInvalid && r.result.value.causes != []
  {
  }

  lemma KeyOfDefaultAutoscaler()
    ensures Keys.SplitMetaNamespaceKey("default/fas-1") == Some(ObjectMeta("default", "fas-1"))
    ensures Keys.SplitMetaNamespaceKey("fas-1") == Some(ObjectMeta("", "fas-1"))
  {
    var m := ObjectMeta("default", "fas-1");
    assert '/' !in m.namespace && '/' !in m.name;
    assert Keys.MetaNamespaceKey(m) == "default/fas-1";
    Keys.SplitJoinRoundTrip(m);
    assert '/' !in "fas-1";
  }

  /** Scaling up: 5 allocated plus a buffer of 7 scales the fleet from 5 to
      12 (its 3 reserved replicas play no part), stamps the scale time, and
      records one AutoScalingFleet event and nothing else. */
  lemma ScalingUp(now: Time)
    ensures var fas := WithBufferSize(DefaultAutoscaler, 7);
      var f := DefaultFleet.(specReplicas := 5, status := FleetStatus(5, 0, 3, 5));
      var p := Pass(StoreOf(Some(f), fas), "default/fas-1", now, None);
      p.err.None? &&
      p.effect.fleetWrite == Some(f.(specReplicas := 12)) &&
      p.effect.statusWrite == Some(fas.(status := FleetAutoscalerStatus(5, 12, true, false, Some(now)))) &&
      p.effect.events == [AutoScalingFleet]
  {
    var fas := WithBufferSize(DefaultAutoscaler, 7);
    var f := DefaultFleet.(specReplicas := 5, status := FleetStatus(5, 0, 3, 5));
    var s := StoreOf(Some(f), fas);
    KeyOfDefaultAutoscaler();
    assert FleetKey(fas.meta, fas) == f.meta;
    assert s.autoscalers[fas.meta] == fas && s.fleets[f.meta] == f;
    assert Policy.Evaluate(fas.spec.policy, f, None) == Ok(12);
    PassScalesFoundFleet(s, "default/fas-1", now, None, fas.meta, 12);
    assert ScaleFleetEffect(f, 12).events == [AutoScalingFleet];
    assert UpdateStatusEffect(fas, f.status.replicas, 12, true, false, now).events == [];
  }

  /** Scaling down: 5 allocated plus a buffer of 8 scales a fleet of 20 (15
      of them ready) down to 13. */
  lemma ScalingDown(now: Time)
    ensures var fas := WithBufferSize(DefaultAutoscaler, 8);
      var f := DefaultFleet.(specReplicas := 20, status := FleetStatus(20, 15, 3, 5));
      var p := Pass(StoreOf(Some(f), fas), "default/fas-1", now, None);
      p.err.None? &&
      p.effect.fleetWrite == Some(f.(specReplicas := 13)) &&
      p.effect.statusWrite == Some(fas.(status := FleetAutoscalerStatus(20, 13, true, false, Some(now)))) &&
      p.effect.events == [AutoScalingFleet]
  {
    var fas := WithBufferSize(DefaultAutoscaler, 8);
    var f := DefaultFleet.(specReplicas := 20, status := FleetStatus(20, 15, 3, 5));
    var s := StoreOf(Some(f), fas);
    KeyOfDefaultAutoscaler();
    assert FleetKey(fas.meta, fas) == f.meta;
    assert s.autoscalers[fas.meta] == fas && s.fleets[f.meta] == f;
    assert Policy.Evaluate(fas.spec.policy, f, None) == Ok(13);
    PassScalesFoundFleet(s, "default/fas-1", now, None, fas.meta, 13);
    assert ScaleFleetEffect(f, 13).events == [AutoScalingFleet];
    assert UpdateStatusEffect(fas, f.status.replicas, 13, true, false, now).events == [];
  }

  /** A key without a namespace names no stored autoscaler: the pass writes
      nothing, records nothing and succeeds. As in the "no scaling" test, no
      fleet is listed. */
  lemma KeyWithoutNamespace(now: Time)
    ensures var fas := WithBufferSize(DefaultAutoscaler, 5).(status := FleetAutoscalerStatus(10, 10, false, false, None));
      Pass(StoreOf(None, fas), "fas-1", now, None) == PassResult(NoEffect, None)
  {
    KeyOfDefaultAutoscaler();
  }

  /** A missing fleet resets the autoscaler's counts to zero, records
      FailedGetFleet and still succeeds. */
  lemma FleetNotAvailable(now: Time)
    ensures var fas := DefaultAutoscaler.(status := FleetAutoscalerStatus(5, 10, false, false, None));
      var p := Pass(StoreOf(None, fas), "default/fas-1", now, None);
      p.err.None? &&
      p.effect.fleetWrite.None? &&
      p.effect.statusWrite.Some? &&
      p.effect.statusWrite.value.status.currentReplicas == 0 &&
      p.effect.statusWrite.value.status.desiredReplicas == 0 &&
      p.effect.events == [FailedGetFleet]
  {
    KeyOfDefaultAutoscaler();
  }

  /** scaleFleet writes the fleet when asked for 5 more replicas than its
      spec, and does nothing when asked for its spec count. */
  lemma ScaleFleetCases()
    ensures ScaleFleetEffect(DefaultFleet, 13) == Effect(Some(DefaultFleet.(specReplicas := 13)), None, [AutoScalingFleet])
    ensures ScaleFleetEffect(DefaultFleet, 8) == NoEffect
  {
  }

  /** updateStatus: a fresh autoscaler gets current 10, desired 20 and a
      scale time with no event; the same status without a scale is not
      written again; a limited update records ScalingLimited. */
  lemma UpdateStatusCases(now: Time)
    ensures UpdateStatusEffect(DefaultAutoscaler, 10, 20, true, false, now) ==
      Effect(None, Some(DefaultAutoscaler.(status := FleetAutoscalerStatus(10, 20, true, false, Some(now)))), [])
    ensures var fas := DefaultAutoscaler.(status := FleetAutoscalerStatus(10, 20, true, false, None));
      UpdateStatusEffect(fas, 10, 20, false, false, now) == NoEffect
    ensures UpdateStatusEffect(DefaultAutoscaler, 10, 20, true, true, now).events == [ScalingLimited]
  {
  }

  /** updateStatusUnableToScale writes the reset status once and then no
      more, never recording an event. */
  lemma UnableToScaleCases()
    ensures var fas := DefaultAutoscaler.(status := EmptyStatus.(desiredReplicas := 10));
      UnableToScaleEffect(fas) == Effect(None, Some(fas.(status := FleetAutoscalerStatus(0, 0, false, false, None))), [])
    ensures UnableToScaleEffect(DefaultAutoscaler) == NoEffect
  {
  }

  /** The fixture of the "no scaling" test, queued under its full key, is
      not a no-op either: that test lists no fleet, so the pass takes the
      missing-fleet path, records FailedGetFleet and resets the status from
      10/10 to 0/0. */
  lemma NoScalingFixtureUnderFullKeyMissesFleet(now: Time)
    ensures var fas := WithBufferSize(DefaultAutoscaler, 5).(status := FleetAutoscalerStatus(10, 10, false, false, None));
      var p := Pass(StoreOf(None, fas), "default/fas-1", now, None);
      p.err.None? && p.effect.fleetWrite.None? &&
      p.effect.statusWrite == Some(fas.(status := UnableToScaleStatus)) &&
      p.effect.events == [FailedGetFleet]
  {
    KeyOfDefaultAutoscaler();
  }

  /** A fleet already at its target, with the status already recording it,
      queued under its full key: the pass writes nothing and records
      nothing. */
  lemma FleetAtTargetIsNoOp(now: Time)
    ensures var fas := WithBufferSize(DefaultAutoscaler, 5).(status := FleetAutoscalerStatus(10, 10, true, false, None));
      var f := DefaultFleet.(specReplicas := 10, status := FleetStatus(10, 5, 0, 5));
      Pass(StoreOf(Some(f), fas), "default/fas-1", now, None) == PassResult(NoEffect, None)
  {
    var fas := WithBufferSize(DefaultAutoscaler, 5).(status := FleetAutoscalerStatus(10, 10, true, false, None));
    var f := DefaultFleet.(specReplicas := 10, status := FleetStatus(10, 5, 0, 5));
    var s := StoreOf(Some(f), fas);
    KeyOfDefaultAutoscaler();
    assert FleetKey(fas.meta, fas) == f.meta;
    assert s.autoscalers[fas.meta] == fas && s.fleets[f.meta] == f;
    assert Policy.Evaluate(fas.spec.policy, f, None) == Ok(10);
    PassScalesFoundFleet(s, "default/fas-1", now, None, fas.meta, 10);
  }
}
