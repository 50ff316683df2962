# Fleet autoscaler controller: a Dafny model

This project models the decision core of the Agones fleet autoscaler controller. The controller reconciles a `FleetAutoscaler` against the `Fleet` it targets. It computes the fleet's desired replica count from the autoscaler's policy. It writes the fleet's spec replicas only when that count differs from them. It then writes the autoscaler's status (`AbleToScale`, `ScalingLimited`, `CurrentReplicas`, `DesiredReplicas`, `LastScaleTime`), but only when the status changes. It records events (`AutoScalingFleet`, `ScalingLimited`, `FailedGetFleet`) as it goes. A validating admission handler rejects autoscalers whose policy type names a variant that is not populated.

The repository's controller file is not part of this model. What the controller does is taken from its test file, `pkg/fleetautoscalers/controller_test.go`. That file pins down `syncFleetAutoscaler`, `scaleFleet`, `updateStatus`, `updateStatusUnableToScale` and `validationHandler`, along with their fixtures.

Layout:

- `types.dfy` (module `Types`): fleets, autoscalers, policies, statuses and event kinds, as datatypes.
- `keys.dfy` (module `Keys`): splits a work-queue key such as `default/fas-1` (or a bare `fas-1`) into a namespace and a name.
- `policy.dfy` (module `Policy`): the buffer arithmetic (allocated replicas plus the absolute buffer size) and a dispatch on the policy type.
- `admission.dfy` (module `Admission`): validation of the policy variant that the type names, and the allow/deny verdict.
- `reconcile.dfy` (module `Reconcile`): each controller operation as an `Effect` value. An effect lists the fleet it writes, the autoscaler status it writes and the events it records. The module also holds one whole pass (`Pass`) and the lemmas about these effects: write-only-on-change, idempotence, and "every pass after the first is a no-op".
- `controller.dfy` (module `Controller`): the class `Controller`. It holds the fleets and autoscalers, a fleet-update counter, a status-update counter and the event log. Its methods change these in place, and each method's postcondition says the result equals its `Effect` applied to the old state.
- `fixtures.dfy` (module `Fixtures`): the tests' default fixtures, and the outcome each test expects, stated as lemmas.

The model follows the controller's tests on these points:

- Stamping `LastScaleTime`: `updateStatus` stamps it when its fourth argument (`scaled`) is true (test lines 359 and 383). It does not compare current and desired replicas. A pass sets `scaled` when the evaluated count differs from the fleet's spec replicas. That comparison is the model's choice: the sync tests give the fleet equal spec and status replicas (lines 127-128 and 180-181), so they do not tell it apart from a comparison with the status replicas.
- Validation dispatches on the policy type and checks only the named variant (see `Admission.Validate` under Left out).
- The `scaleFleet` test looks for `ScalingFleet` in the event (line 316), and the sync tests look for `AutoScalingFleet`. The test helper matches substrings, so the model records a single reason, `AutoScalingFleet`, which both tests accept.
- The "no scaling" test (lines 228-260) queues the key `fas-1`, which has no namespace. It therefore exercises the autoscaler-not-found path, not a fleet already at its target (see Findings).

## Model

| member | source | states |
|---|---|---|
| `Keys.SplitMetaNamespaceKey` | pkg/fleetautoscalers/controller_test.go:257 | A key without '/' names an object in the empty namespace. A key with one '/' is split there, and namespace + "/" + name gives the key back. A key with two or more '/' is malformed (None). |
| `Keys.SplitJoinRoundTrip` | pkg/fleetautoscalers/controller_test.go:470-474 | Splitting the key of an object whose namespace and name contain no '/' gives back exactly its namespace and name. |
| `Policy.Evaluate` | pkg/fleetautoscalers/controller_test.go:125-159 | A buffer policy yields allocated + bufferSize exactly when the buffer variant is present. A webhook policy yields the webhook's answer exactly when the variant is present and an answer came back. Otherwise it yields an error. |
| `Policy.BufferIgnoresReadyAndReserved` | pkg/fleetautoscalers/controller_test.go:174-212 | Fleets with equal allocated counts get equal desired counts, whatever their ready, reserved or total counts. The desired count exceeds the allocated count by exactly the buffer. |
| `Admission.ValidateBufferPolicy` | pkg/fleetautoscalers/controller_test.go:478-482 | A missing buffer gives exactly one cause, on field "buffer". A present buffer is accepted when minReplicas <= maxReplicas and bufferSize > 0, as the 5/0/100 fixture is; these two field rules are the model's own selection. |
| `Admission.ValidateWebhookPolicy` | pkg/fleetautoscalers/controller_test.go:495-500 | A missing webhook gives exactly one cause, on field "webhook". A present webhook is accepted when it names a service or a URL, as the service-with-path fixture is; this field rule is the model's own selection. |
| `Admission.Validate` | pkg/fleetautoscalers/controller_test.go:57-114 | Validation checks only the variant the policy type names; an object with no cause has that variant populated. The missing-variant causes are stated by `Admission.ValidRequiresNamedVariant`. |
| `Admission.ValidRequiresNamedVariant` | pkg/fleetautoscalers/controller_test.go:57-114 | A valid autoscaler has the variant its type names. A Buffer-typed policy without a buffer, or a Webhook-typed one without a webhook, gets exactly the one "missing" cause. |
| `Admission.AdmittedPolicyEvaluates` | pkg/fleetautoscalers/controller_test.go:475-483 | For an admitted autoscaler, policy evaluation fails only when the policy is a webhook one and the webhook gave no answer. |
| `Admission.ValidationHandler` | pkg/fleetautoscalers/controller_test.go:66-74 | A valid object leaves the review unchanged. An invalid one is denied with status Failure, reason Invalid and its non-empty causes as details. Allowed iff it was allowed on entry and validation found no cause. |
| `Reconcile.ApplyKeepsWellKeyed` | pkg/fleetautoscalers/controller_test.go:139-161 | If every object is stored under its own identity, that stays true after any effect's writes. |
| `Reconcile.ScaleFleetEffect` | pkg/fleetautoscalers/controller_test.go:297-332 | The fleet is written iff the requested count differs from its spec. The written fleet has only its spec replicas changed. AutoScalingFleet is recorded iff the fleet is written. |
| `Reconcile.NextStatus` | pkg/fleetautoscalers/controller_test.go:338-395 | The status `updateStatus` wants always has AbleToScale set, and its scale time differs from the stored one only on a scale. Equality with the stored status and the stamping are stated by `Reconcile.NextStatusUnchangedIff` and `Reconcile.ScaleTimeLaw`. |
| `Reconcile.NextStatusUnchangedIff` | pkg/fleetautoscalers/controller_test.go:365-386 | With `scaled` false, the wanted status equals the stored one iff the stored status is able to scale and has the same flag and counts. `scaled` false is not compared with `AbleToScale`. |
| `Reconcile.ScaleTimeLaw` | pkg/fleetautoscalers/controller_test.go:338-363 | The scale time moves iff the update scales at a new time. A scaling update always leaves a scale time set. |
| `Reconcile.UpdateStatusEffect` | pkg/fleetautoscalers/controller_test.go:338-395 | The autoscaler is written iff the wanted status (AbleToScale true, the given flag and counts, stamped iff scaled) differs from the stored one. The write keeps the spec. ScalingLimited is recorded iff there is a write and scaling is limited. |
| `Reconcile.UpdateStatusIdempotent` | pkg/fleetautoscalers/controller_test.go:365-386 | Once the wanted status is stored, the same update without a scale writes nothing and records nothing, at any later time. |
| `Reconcile.UnableToScaleEffect` | pkg/fleetautoscalers/controller_test.go:401-448 | The status is written iff it is not already 0/0, AbleToScale false, ScalingLimited false, no scale time. The write holds exactly that reset status. No event is recorded. |
| `Reconcile.UnableToScaleIdempotent` | pkg/fleetautoscalers/controller_test.go:429-448 | Resetting an already reset status writes nothing, so the reset is idempotent. |
| `Reconcile.Pass` | pkg/fleetautoscalers/controller_test.go:117-292 | A pass that reports an error never writes the fleet, and any status it writes is the reset one. A pass that writes the fleet reports no error and records AutoScalingFleet first. Without clamping, no pass records ScalingLimited. |
| `Reconcile.PassMissingFleet` | pkg/fleetautoscalers/controller_test.go:262-291 | For any store and key that names a stored autoscaler whose fleet is not stored: FailedGetFleet is the only event, the fleet is not written, the status write is the unable-to-scale reset (if any), and no error is reported. |
| `Reconcile.PassEvaluationFails` | pkg/fleetautoscalers/controller_test.go:117-292 | For any store and key that names a stored autoscaler whose fleet is stored but whose policy fails to evaluate: FailedEvaluation is the only event, the fleet is not written, the status write is the unable-to-scale reset (made whenever the status is not already reset), and the evaluation's error is reported. |
| `Reconcile.PassErrIff` | pkg/fleetautoscalers/controller_test.go:117-292 | A pass reports an error exactly when the key names a stored autoscaler whose fleet is stored and whose policy fails to evaluate; the error reported is the evaluation's. |
| `Reconcile.PassScalesFoundFleet` | pkg/fleetautoscalers/controller_test.go:121-225 | When the autoscaler and its fleet are found and the policy evaluates to `desired`: the fleet is scaled to `desired`, and the status is updated with current = the fleet's status replicas, desired, stamped iff the spec changes. No error is reported. |
| `Reconcile.PassFrame` | pkg/fleetautoscalers/controller_test.go:139-161 | A pass writes only the autoscaler its key names (keeping its spec) and that autoscaler's own fleet (changing only spec replicas). It acts or errs only if the key names a stored autoscaler. |
| `Reconcile.SecondPassWritesNothing` | pkg/fleetautoscalers/controller_test.go:319-386 | On a well-keyed store, a second pass for the same key, with the same webhook answer, writes nothing and reports the same error. It records the same events, except that AutoScalingFleet is not recorded again. |
| `Reconcile.RunAfterPassIsStable` | pkg/fleetautoscalers/controller_test.go:319-386 | With the same webhook answer each time, any number of passes after a first one leave the store as the first left it, with zero fleet writes and zero status writes. |
| `Reconcile.RepeatedPassesWriteAtMostOnce` | pkg/fleetautoscalers/controller_test.go:319-386 | Any non-empty run of passes for one key, all with the same webhook answer, writes the fleet at most once and the status at most once, and ends in the store the first pass produced. |
| `Controller.Controller.ScaleFleet` | pkg/fleetautoscalers/controller_test.go:294-333 | If the count differs from the fleet's spec, the fleet is stored with the new spec replicas, one fleet update is counted and AutoScalingFleet is appended. Otherwise nothing changes. Autoscalers are never touched. |
| `Controller.Controller.UpdateStatus` | pkg/fleetautoscalers/controller_test.go:335-396 | If the wanted status differs from the autoscaler's, it is stored, one status update is counted, and ScalingLimited is appended when limited. Otherwise nothing changes. Fleets are never touched. |
| `Controller.Controller.UpdateStatusUnableToScale` | pkg/fleetautoscalers/controller_test.go:398-449 | If the status is not already reset, the reset status is stored and one status update is counted. Otherwise nothing changes. No event, and fleets are never touched. |
| `Controller.Controller.SyncFleetAutoscaler` | pkg/fleetautoscalers/controller_test.go:117-292 | Store, both counters and the event log change exactly as `Reconcile.Pass` of the old store says, and the returned error is the pass's. Every object stays stored under its own identity. |
| `Fixtures.AdmissionOfFixtures` | pkg/fleetautoscalers/controller_test.go:40-115 | Both default autoscalers are allowed. With their named variant removed, each is denied with Failure, Invalid and non-empty details. |
| `Fixtures.KeyOfDefaultAutoscaler` | pkg/fleetautoscalers/controller_test.go:166 | "default/fas-1" splits to (default, fas-1), and "fas-1" splits to ("", fas-1). |
| `Fixtures.ScalingUp` | pkg/fleetautoscalers/controller_test.go:121-172 | Allocated 5 + buffer 7: the fleet is written with 12, and the status with 5/12, able, not limited, stamped. The only event is AutoScalingFleet, and there is no error. |
| `Fixtures.ScalingDown` | pkg/fleetautoscalers/controller_test.go:174-226 | Allocated 5 + buffer 8 with 15 ready: the fleet is written with 13, and the status with 20/13, stamped. The only event is AutoScalingFleet. |
| `Fixtures.KeyWithoutNamespace` | pkg/fleetautoscalers/controller_test.go:228-260 | Key "fas-1" finds no autoscaler (the store, as in the test, lists no fleet), so the pass writes nothing, records nothing and succeeds. |
| `Fixtures.FleetNotAvailable` | pkg/fleetautoscalers/controller_test.go:262-291 | A missing fleet writes the status with 0/0, records FailedGetFleet and succeeds. |
| `Fixtures.ScaleFleetCases` | pkg/fleetautoscalers/controller_test.go:294-333 | Spec + 5 is written and recorded. The spec count is a no-op. |
| `Fixtures.UpdateStatusCases` | pkg/fleetautoscalers/controller_test.go:335-396 | 10/20 with a scale is written stamped, with no event. An equal status without a scale is not written. A limited update records ScalingLimited. |
| `Fixtures.UnableToScaleCases` | pkg/fleetautoscalers/controller_test.go:398-449 | Desired 10 is reset to 0/0, false, false, no time, with no event. An already reset status is not written. |
| `Fixtures.NoScalingFixtureUnderFullKeyMissesFleet` | pkg/fleetautoscalers/controller_test.go:228-260 | The "no scaling" fixture queued as "default/fas-1", with no fleet listed as in that test: the pass records FailedGetFleet and writes the status from 10/10 to the 0/0 reset, so the test's "no update" and "no event" assertions would fail. No error is reported. |
| `Fixtures.FleetAtTargetIsNoOp` | pkg/fleetautoscalers/controller_test.go:228-260 | A fleet at its target (5 allocated + buffer 5 = 10), with the status already recording 10/10 and able to scale, queued as "default/fas-1": the pass is a no-op. |

## Findings

| source | as written | input that shows it | evidently intended | confidence | as-written member | corrected member |
|---|---|---|---|---|---|---|
| pkg/fleetautoscalers/controller_test.go:228-260 | The "no scaling no update" test syncs key `fas.ObjectMeta.Name` ("fas-1"). That key has no namespace, so no autoscaler is found and nothing happens. Under its real key "default/fas-1" the test would fail: it lists no fleet, so the pass would record FailedGetFleet and write the status from 10/10 to 0/0. | key "fas-1"; the same fixture under "default/fas-1" | Sync "default/fas-1" on a fleet already at allocated + buffer, with the status already recording it, and observe no writes and no events | not executed | `Fixtures.KeyWithoutNamespace`, `Fixtures.NoScalingFixtureUnderFullKeyMissesFleet` | `Fixtures.FleetAtTargetIsNoOp` |

## Left out

- The Kubernetes fake clientset, its reactors, informers, listers and `StartInformers` are replaced by the two maps in `Controller.Controller`, plus write counters and an event log.
- Store write failures and update conflicts are not modelled. The fake clientset in the tests accepts every write, so `ScaleFleet`, `UpdateStatus` and `UpdateStatusUnableToScale` return no error.
- Admission.ValidateBufferPolicy: the field rules for a present buffer (min <= max, positive buffer size) are the model's own selection. The production validator is not part of this model, and its other buffer rules are not modelled.
- Admission.ValidateWebhookPolicy: the field rule for a present webhook (a service or a URL) is the model's own selection. The production validator's other rules, for example on a webhook naming both a service and a URL, are not modelled.
- Admission.Validate: a policy that populates both variants is admitted when its named variant is valid, even when the unnamed variant is itself invalid (a Buffer-typed policy carrying a webhook with neither service nor URL, say). No test in the controller's test file covers this case, so the model's answer is its own.
- Percentage buffer sizes are not modelled: only an absolute buffer size exists.
- The min/max clamping of the desired count is not modelled. `Controller.Controller.SyncFleetAutoscaler` and `Reconcile.Pass` therefore always pass `scalingLimited = false`. Only a direct `UpdateStatus` call can record ScalingLimited.
- The webhook policy's HTTP call is a foreign call. Its answer is the `webhookReply` parameter, with None for any failure.
- The health-check handler and the webhook mux are foreign plumbing and are not modelled.
- The name of the event recorded when evaluation fails (`FailedEvaluation`) is the model's own. The controller file that records it is not part of this model.
- JSON encoding and decoding of the `AdmissionReview` is not modelled, so neither is the decode-failure path. Validation works on the decoded autoscaler.
- Only the status, reason and causes of a denial are kept. The message strings, and the name, group and kind in the status details, are left out.
- Event messages and event types (Normal or Warning) are left out. Only the event reason is recorded.
- Policy types other than Buffer and Webhook cannot be expressed.
- Wall-clock time is the `now` parameter. `LastScaleTime` is an optional time that is compared for equality only.
- Replica counts are 32-bit in the source and unbounded naturals here. The overflow of allocated + buffer beyond 2^31 - 1 is not modelled.
- Test parallelism (`t.Parallel`) is not modelled. Each pass is sequential.
