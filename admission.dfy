/** The validating admission check run before a fleet autoscaler is stored. */
module Admission {
  import opened Types
  import Policy

  /** One violated rule: the field it concerns and a message. */
  datatype StatusCause = StatusCause(field: string, message: string)

  datatype StatusReason = StatusReasonInvalid

  const StatusFailure := "Failure"

  datatype Status = Status(status: string, message: string, reason: StatusReason, causes: seq<StatusCause>)

  datatype AdmissionResponse = AdmissionResponse(allowed: bool, result: Option<Status>)

  /** The decoded object under review and the response built so far. */
  datatype AdmissionReview = AdmissionReview(obj: FleetAutoscaler, response: AdmissionResponse)

  function ValidateBufferPolicy(b: Option<BufferPolicy>): (causes: seq<StatusCause>)
    ensures b.None? ==> |causes| == 1 && causes[0].field == "buffer"
    ensures b.Some? ==> (causes == [] <==> b.value.minReplicas <= b.value.maxReplicas && b.value.bufferSize > 0)
  {
    match b
    case None => [StatusCause("buffer", "Buffer policy config params are missing")]
    case Some(p) =>
      (if p.minReplicas > p.maxReplicas
       then [StatusCause("minReplicas", "minReplicas is bigger than maxReplicas")] else []) +
      (if p.bufferSize == 0
       then [StatusCause("bufferSize", "bufferSize must be bigger than 0")] else [])
  }

  function ValidateWebhookPolicy(w: Option<WebhookPolicy>): (causes: seq<StatusCause>)
    ensures w.None? ==> |causes| == 1 && causes[0].field == "webhook"
    ensures w.Some? ==> (causes == [] <==> w.value.service.Some? || w.value.url.Some?)
  {
    match w
    case None => [StatusCause("webhook", "webhook policy config params are missing")]
    case Some(p) =>
      if p.service.None? && p.url.None?
      then [StatusCause("url", "service was not provided, either URL or service must be provided")]
      else []
  }

  /** The rules of the variant the policy type names; the other variant is
      not looked at. */
  function Validate(fas: FleetAutoscaler): (causes: seq<StatusCause>)
    ensures causes == [] ==>
      (fas.spec.policy.policyType == BufferPolicyType ==> fas.spec.policy.buffer.Some?) &&
      (fas.spec.policy.policyType == WebhookPolicyType ==> fas.spec.policy.webhook.Some?)
  {
    match fas.spec.policy.policyType
    case BufferPolicyType => ValidateBufferPolicy(fas.spec.policy.buffer)
    case WebhookPolicyType => ValidateWebhookPolicy(fas.spec.policy.webhook)
  }

  /** An object passes validation only if the variant its type names is
      populated, and a missing variant is reported by its own cause. */
  lemma ValidRequiresNamedVariant(fas: FleetAutoscaler)
    ensures Validate(fas) == [] ==>
      match fas.spec.policy.policyType
      case BufferPolicyType => fas.spec.policy.buffer.Some?
      case WebhookPolicyType => fas.spec.policy.webhook.Some?
    ensures fas.spec.policy.policyType == BufferPolicyType && fas.spec.policy.buffer.None? ==>
      Validate(fas) == [StatusCause("buffer", "Buffer policy config params are missing")]
    ensures fas.spec.policy.policyType == WebhookPolicyType && fas.spec.policy.webhook.None? ==>
      Validate(fas) == [StatusCause("webhook", "webhook policy config params are missing")]
  {
  }

  /** What admission guarantees the controller: a buffer autoscaler that was
      admitted can always be evaluated, and a webhook one fails to evaluate
      only when the webhook gives no answer. */
  lemma AdmittedPolicyEvaluates(fas: FleetAutoscaler, f: Fleet, reply: Option<nat>)
    requires Validate(fas) == []
    ensures Policy.Evaluate(fas.spec.policy, f, reply).Err? ==>
      fas.spec.policy.policyType == WebhookPolicyType && reply.None?
  {
    ValidRequiresNamedVariant(fas);
  }

  /** Leaves the incoming response alone when the object is valid; otherwise
      denies it with status Failure, reason Invalid and the violated rules as
      details. */
  function ValidationHandler(review: AdmissionReview): (out: AdmissionReview)
    ensures out.obj == review.obj
    ensures Validate(review.obj) == [] ==> out == review
    ensures Validate(review.obj) != [] ==>
      !out.response.allowed &&
      out.response.result.Some? &&
      out.response.result.value.status == StatusFailure &&
      out.response.result.value.reason == StatusReasonInvalid &&
      out.response.result.value.causes == Validate(review.obj) &&
      |out.response.result.value.causes| > 0
    ensures out.response.allowed <==> review.response.allowed && Validate(review.obj) == []
  {
    var causes := Validate(review.obj);
    if |causes| != 0 then
      review.(response := AdmissionResponse(
        false, Some(Status(StatusFailure, "FleetAutoscaler is invalid", StatusReasonInvalid, causes))))
    else
      review
  }
}
