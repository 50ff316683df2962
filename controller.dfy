/** The fleet autoscaler controller as a stateful object. It holds the
    objects it can read and write (the fleets and autoscalers of the
    cluster), counts the writes it issues to each kind, and keeps the events
    it records in order. Each operation performs the effect that module
    Reconcile describes for it. */
module Controller {
  import opened Types
  import Keys
  import Policy
  import opened Reconcile

  class Controller {
    var fleets: map<ObjectMeta, Fleet>
    var autoscalers: map<ObjectMeta, FleetAutoscaler>
    /** Number of fleet updates issued. */
    var fleetUpdates: nat
    /** Number of autoscaler status updates issued. */
    var statusUpdates: nat
    /** Reasons of the recorded events, oldest first. */
    var events: seq<EventKind>

    function State(): Store
      reads this
    {
      Store(fleets, autoscalers)
    }

    /** The class invariant: every fleet and autoscaler is stored under its
        own namespace and name. */
    ghost predicate Valid()
      reads this
    {
      WellKeyed(State())
    }

    constructor (s: Store)
      requires WellKeyed(s)
      ensures Valid()
      ensures State() == s
      ensures fleetUpdates == 0 && statusUpdates == 0 && events == []
    {
      fleets := s.fleets;
      autoscalers := s.autoscalers;
      fleetUpdates, statusUpdates := 0, 0;
      events := [];
    }

    /** Scales the fleet `f` (as the autoscaler `fas` last read it) to
        `replicas`: writes it and records AutoScalingFleet when the count
        differs from its spec, and does nothing otherwise. */
    method ScaleFleet(fas: FleetAutoscaler, f: Fleet, replicas: nat)
      requires Valid()
      modifies this
      ensures Valid()
      ensures replicas != f.specReplicas ==>
        fleets == old(fleets)[f.meta := f.(specReplicas := replicas)] &&
        fleetUpdates == old(fleetUpdates) + 1 &&
        events == old(events) + [AutoScalingFleet]
      ensures replicas == f.specReplicas ==>
        fleets == old(fleets) && fleetUpdates == old(fleetUpdates) && events == old(events)
      ensures autoscalers == old(autoscalers) && statusUpdates == old(statusUpdates)
      ensures var e := ScaleFleetEffect(f, replicas);
        State() == Apply(old(State()), e) && events == old(events) + e.events &&
        fleetUpdates == old(fleetUpdates) + FleetWrites(e)
    {
      if replicas != f.specReplicas {
        var updated := f.(specReplicas := replicas);
        fleets := fleets[updated.meta := updated];
        fleetUpdates := fleetUpdates + 1;
        events := events + [AutoScalingFleet];
      }
    }

    /** Builds the wanted status of `fas` and writes it only when it differs
        from the status `fas` holds, recording ScalingLimited on such a write
        when the scaling was limited. */
    method UpdateStatus(fas: FleetAutoscaler, currentReplicas: nat, desiredReplicas: nat,
                        scaled: bool, scalingLimited: bool, now: Time)
      requires Valid()
      modifies this
      ensures Valid()
      ensures var next := NextStatus(fas.status, currentReplicas, desiredReplicas, scaled, scalingLimited, now);
        (next != fas.status ==>
           autoscalers == old(autoscalers)[fas.meta := fas.(status := next)] &&
           statusUpdates == old(statusUpdates) + 1 &&
           events == old(events) + (if scalingLimited then [ScalingLimited] else [])) &&
        (next == fas.status ==>
           autoscalers == old(autoscalers) && statusUpdates == old(statusUpdates) && events == old(events))
      ensures fleets == old(fleets) && fleetUpdates == old(fleetUpdates)
      ensures var e := UpdateStatusEffect(fas, currentReplicas, desiredReplicas, scaled, scalingLimited, now);
        State() == Apply(old(State()), e) && events == old(events) + e.events &&
        statusUpdates == old(statusUpdates) + StatusWrites(e)
    {
      var next := FleetAutoscalerStatus(currentReplicas, desiredReplicas, true, scalingLimited,
                                        if scaled then Some(now) else fas.status.lastScaleTime);
      if next != fas.status {
        if scalingLimited {
          events := events + [ScalingLimited];
        }
        var updated := fas.(status := next);
        autoscalers := autoscalers[updated.meta := updated];
        statusUpdates := statusUpdates + 1;
      }
    }

    /** Resets the status of `fas` to unable-to-scale, writing only when it
        is not in that state already. */
    method UpdateStatusUnableToScale(fas: FleetAutoscaler)
      requires Valid()
      modifies this
      ensures Valid()
      ensures fas.status != UnableToScaleStatus ==>
        autoscalers == old(autoscalers)[fas.meta := fas.(status := UnableToScaleStatus)] &&
        statusUpdates == old(statusUpdates) + 1
      ensures fas.status == UnableToScaleStatus ==>
        autoscalers == old(autoscalers) && statusUpdates == old(statusUpdates)
      ensures fleets == old(fleets) && fleetUpdates == old(fleetUpdates) && events == old(events)
      ensures var e := UnableToScaleEffect(fas);
        State() == Apply(old(State()), e) && statusUpdates == old(statusUpdates) + StatusWrites(e)
    {
      if fas.status != UnableToScaleStatus {
        var updated := fas.(status := UnableToScaleStatus);
        autoscalers := autoscalers[updated.meta := updated];
        statusUpdates := statusUpdates + 1;
      }
    }

    /** One reconciliation pass for the work-queue `key`, at time `now`, with
        `webhookReply` standing for the webhook collaborator's answer. It
        changes the store, the counters and the event log exactly as
        Reconcile.Pass says, and returns the error that pass reports. */
    method SyncFleetAutoscaler(key: string, now: Time, webhookReply: Option<nat>) returns (err: Option<EvalError>)
      requires Valid()
      modifies this
      ensures Valid()
      ensures var p := Pass(old(State()), key, now, webhookReply);
        State() == Apply(old(State()), p.effect) &&
        fleetUpdates == old(fleetUpdates) + FleetWrites(p.effect) &&
        statusUpdates == old(statusUpdates) + StatusWrites(p.effect) &&
        events == old(events) + p.effect.events &&
        err == p.err
    {
      var split := Keys.SplitMetaNamespaceKey(key);
      if split.None? {
        return None;
      }
      var k := split.value;
      if k !in autoscalers {
        return None;
      }
      var fas := autoscalers[k];
      var fk := ObjectMeta(k.namespace, fas.spec.fleetName);
      if fk !in fleets {
        events := events + [FailedGetFleet];
        UpdateStatusUnableToScale(fas);
        return None;
      }
      var f := fleets[fk];
      var desired := Policy.Evaluate(fas.spec.policy, f, webhookReply);
      if desired.Err? {
        events := events + [FailedEvaluation];
        UpdateStatusUnableToScale(fas);
        return Some(desired.error);
      }
      var currentReplicas := f.status.replicas;
      ScaleFleet(fas, f, desired.value);
      UpdateStatus(fas, currentReplicas, desired.value, desired.value != f.specReplicas, false, now);
      err := None;
    }
  }
}
