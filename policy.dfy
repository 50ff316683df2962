/** Turning a fleet's observed state and an autoscaler policy into the
    number of replicas the fleet should have. */
module Policy {
  import opened Types

  /** A buffer policy keeps `bufferSize` replicas on top of those allocated. */
  function BufferDesired(b: BufferPolicy, f: Fleet): (desired: nat)
  {
    f.status.allocatedReplicas + b.bufferSize
  }

  /** The buffer arithmetic looks at the allocated count alone: two fleets
      that agree on it get the same desired count whatever their ready,
      reserved, total or spec counts, and that count exceeds the allocated
      one by exactly the buffer. */
  lemma BufferIgnoresReadyAndReserved(b: BufferPolicy, f: Fleet, g: Fleet)
    requires f.status.allocatedReplicas == g.status.allocatedReplicas
    ensures BufferDesired(b, f) == BufferDesired(b, g)
    ensures BufferDesired(b, f) - f.status.allocatedReplicas == b.bufferSize
  {
  }

  /** Dispatches on the policy type. `webhookReply` is what the webhook
      collaborator answered for this fleet: a desired count, or None when it
      could not be reached or its answer could not be used. */
  function Evaluate(p: FleetAutoscalerPolicy, f: Fleet, webhookReply: Option<nat>): (r: Result<nat>)
    ensures p.policyType == BufferPolicyType ==>
      (r.Ok? <==> p.buffer.Some?) &&
      (r.Ok? ==> r.value == f.status.allocatedReplicas + p.buffer.value.bufferSize)
    ensures p.policyType == WebhookPolicyType ==>
      (r.Ok? <==> p.webhook.Some? && webhookReply.Some?) &&
      (r.Ok? ==> r.value == webhookReply.value)
    ensures r.Err? && p.webhook.Some? && p.policyType == WebhookPolicyType ==> r.error == WebhookUnavailable
  {
    match p.policyType
    case BufferPolicyType =>
      if p.buffer.None? then Err(MissingPolicy) else Ok(BufferDesired(p.buffer.value, f))
    case WebhookPolicyType =>
      if p.webhook.None? then Err(MissingPolicy)
      else if webhookReply.None? then Err(WebhookUnavailable)
      else Ok(webhookReply.value)
  }
}
