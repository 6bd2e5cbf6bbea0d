/** The cloud provider as the provisioning scripts see it.

    Every external call (IAM, AWS Config, Kinesis Data Firehose, CloudFormation)
    is a `Call` value. What the provider answers is not known to the scripts: it
    is a `World`, an arbitrary function from the calls made so far and the call
    being made to a `Response`. A run is then described by the trace of the
    calls it attempted, in order. */
module Provider {

  datatype Option<T> = None | Some(value: T)

  /** A provider answer: the call's result value, or a `ClientError` with its error code. */
  datatype Response = Ok(value: string) | Err(code: string)

  datatype RecordingGroup = RecordingGroup(allSupported: bool, includeGlobalResourceTypes: bool)

  datatype ConfigurationRecorder = ConfigurationRecorder(name: string, roleArn: string, recordingGroup: RecordingGroup)

  datatype DeliveryChannel = DeliveryChannel(
    name: string,
    s3BucketName: string,
    deliveryFrequency: string,
    streamArn: string)

  datatype CopyCommand = CopyCommand(dataTableName: string, copyOptions: string)

  datatype RedshiftDestination = RedshiftDestination(
    roleArn: string,
    clusterJdbcUrl: string,
    copyCommand: CopyCommand,
    username: string,
    password: string)

  /** One statement of an IAM trust policy: `Effect`, the single `Principal.Service`, and `Action`. */
  datatype Statement = Statement(effect: string, principalService: string, action: string)

  datatype TrustPolicy = TrustPolicy(version: string, statements: seq<Statement>)

  datatype StackParameter = StackParameter(key: string, value: string)

  /** The calls the provisioning code issues. `WriteTemplateFile` is the local file
      write of the template generator; it is recorded for ordering only and no
      provider answer is consulted for it. */
  datatype Call =
    | PutConfigurationRecorder(region: string, recorder: ConfigurationRecorder)
    | StartConfigurationRecorder(region: string, recorderName: string)
    | PutDeliveryChannel(region: string, channel: DeliveryChannel)
    | CreateDeliveryStream(region: string, streamName: string, streamType: string, destination: RedshiftDestination)
    | CreateRole(roleName: string, trustPolicy: TrustPolicy)
    | AttachRolePolicy(roleName: string, policyArn: string)
    | WriteTemplateFile(path: string)
    | CreateStack(stackName: string, templateFile: string, parameters: seq<StackParameter>, capabilities: seq<string>)

  /** The provider's behaviour: the answer to a call, given the calls issued before it. */
  type World = (seq<Call>, Call) -> Response
}
