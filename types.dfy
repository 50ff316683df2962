/** The objects the fleet autoscaler controller reads and writes: fleets,
    fleet autoscalers with their policy and status, and the kinds of event
    the controller records. */
module Types {

  datatype Option<T> = None | Some(value: T)

  datatype Result<T> = Ok(value: T) | Err(error: EvalError)

  /** Why a policy could not produce a desired replica count. */
  datatype EvalError =
    | MissingPolicy        // the variant named by the policy type is not populated
    | WebhookUnavailable   // the webhook collaborator gave no usable answer

  /** A point in time; only equality and "set or not" matter to the controller. */
  type Time = nat

  /** Namespace and name: the identity of a stored object. */
  datatype ObjectMeta = ObjectMeta(namespace: string, name: string)

  datatype FleetStatus = FleetStatus(
    replicas: nat,
    readyReplicas: nat,
    reservedReplicas: nat,
    allocatedReplicas: nat)

  datatype Fleet = Fleet(meta: ObjectMeta, specReplicas: nat, status: FleetStatus)

  datatype PolicyType = BufferPolicyType | WebhookPolicyType

  /** A buffer policy with an absolute buffer size. */
  datatype BufferPolicy = BufferPolicy(bufferSize: nat, minReplicas: nat, maxReplicas: nat)

  datatype ServiceReference = ServiceReference(name: string, path: Option<string>)

  datatype WebhookPolicy = WebhookPolicy(service: Option<ServiceReference>, url: Option<string>)

  /** The policy names its variant by `policyType`; the variants are optional
      records, as the nil-able pointer fields of the controller's API types are. */
  datatype FleetAutoscalerPolicy = FleetAutoscalerPolicy(
    policyType: PolicyType,
    buffer: Option<BufferPolicy>,
    webhook: Option<WebhookPolicy>)

  datatype FleetAutoscalerSpec = FleetAutoscalerSpec(fleetName: string, policy: FleetAutoscalerPolicy)

  datatype FleetAutoscalerStatus = FleetAutoscalerStatus(
    currentReplicas: nat,
    desiredReplicas: nat,
    ableToScale: bool,
    scalingLimited: bool,
    lastScaleTime: Option<Time>)

  datatype FleetAutoscaler = FleetAutoscaler(
    meta: ObjectMeta,
    spec: FleetAutoscalerSpec,
    status: FleetAutoscalerStatus)

  /** The reasons of the events the controller records. */
  datatype EventKind =
    | AutoScalingFleet   // the fleet's replicas were changed
    | ScalingLimited     // the status was written with scalingLimited set
    | FailedGetFleet     // the autoscaler's fleet does not exist
    | FailedEvaluation   // the policy could not produce a desired count

  /** The status of an autoscaler that was never reconciled. */
  const EmptyStatus := FleetAutoscalerStatus(0, 0, false, false, None)
}
