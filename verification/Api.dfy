/** The custom resource, the Step Functions request and response shapes, and the
    error values that the controller code inspects. A Go pointer that may be nil
    is an Option. */
module Api {
  import opened Wrappers

  /** An element of a []*Tag list: the pointer itself may be nil. */
  datatype Tag = Nil | Tag(key: Option<string>, value: Option<string>)

  datatype LogGroup = LogGroup(logGroupArn: Option<string>)
  datatype LogDestination = LogDestination(cloudWatchLogsLogGroup: Option<LogGroup>)
  datatype LoggingConfiguration = LoggingConfiguration(
    destinations: Option<seq<LogDestination>>,
    includeExecutionData: Option<bool>,
    level: Option<string>)
  datatype TracingConfiguration = TracingConfiguration(enabled: Option<bool>)

  datatype ReferenceFrom = ReferenceFrom(name: Option<string>, namespace: Option<string>)
  datatype Reference = Reference(from: Option<ReferenceFrom>)

  datatype Spec = Spec(
    definition: Option<string>,
    logging: Option<LoggingConfiguration>,
    name: Option<string>,
    publish: Option<bool>,
    roleArn: Option<string>,
    roleRef: Option<Reference>,
    tags: seq<Tag>,
    tracing: Option<TracingConfiguration>,
    typ: Option<string>)

  datatype ConditionType = Terminal | Recoverable | ResourceSynced | OtherCondition(name: string)
  datatype ConditionStatus = True | False | Unknown
  datatype Condition = Condition(typ: ConditionType, status: ConditionStatus, message: Option<string>)

  datatype Metadata = Metadata(
    arn: Option<string>,
    region: Option<string>,
    partition: Option<string>,
    ownerAccountId: Option<string>)

  /** A version ARN is represented by its version number, a date by a count of
      clock ticks. */
  datatype Status = Status(
    metadata: Option<Metadata>,
    conditions: seq<Condition>,
    creationDate: Option<nat>,
    revisionId: Option<nat>,
    versionArn: Option<nat>)

  /** The value held by a StateMachine object. */
  datatype Resource = Resource(spec: Spec, status: Status)

  datatype SdkTag = SdkTag(key: Option<string>, value: Option<string>)
  datatype SdkLogGroup = SdkLogGroup(logGroupArn: Option<string>)
  datatype SdkLogDestination = SdkLogDestination(cloudWatchLogsLogGroup: Option<SdkLogGroup>)
  datatype SdkLogging = SdkLogging(
    destinations: Option<seq<SdkLogDestination>>,
    includeExecutionData: bool,
    level: string)
  datatype SdkTracing = SdkTracing(enabled: bool)

  datatype CreateInput = CreateInput(
    definition: Option<string>,
    logging: Option<SdkLogging>,
    name: Option<string>,
    publish: bool,
    roleArn: Option<string>,
    tags: seq<SdkTag>,
    tracing: Option<SdkTracing>,
    typ: string)

  datatype CreateOutput = CreateOutput(
    creationDate: Option<nat>,
    stateMachineArn: Option<string>,
    versionArn: Option<nat>)

  datatype UpdateInput = UpdateInput(
    definition: Option<string>,
    logging: Option<SdkLogging>,
    publish: bool,
    roleArn: Option<string>,
    stateMachineArn: Option<string>,
    tracing: Option<SdkTracing>)

  datatype UpdateOutput = UpdateOutput(versionArn: Option<nat>)

  datatype DescribeOutput = DescribeOutput(
    creationDate: Option<nat>,
    definition: Option<string>,
    logging: Option<SdkLogging>,
    name: Option<string>,
    revisionId: Option<nat>,
    roleArn: Option<string>,
    stateMachineArn: Option<string>,
    tracing: Option<SdkTracing>,
    typ: string)

  /** Errors, told apart only as far as the code tells them apart. `AwsError`
      carries the service's code, the text of the whole chain and the text of
      the service error inside it. */
  datatype Error =
    | NotFound
    | TerminalSentinel
    | SecretTypeNotSupported
    | SecretNotFound
    | TerminalError(text: string)
    | AwsError(code: string, text: string, awsText: string)
    | PlainError(text: string)

  /** Set, and set to true. */
  predicate IsTrue(b: Option<bool>) {
    b.Some? && b.value
  }

  const STATE_MACHINE_DOES_NOT_EXIST := "StateMachineDoesNotExist"

  predicate IsMissing(e: Error) {
    e.AwsError? && e.code == STATE_MACHINE_DOES_NOT_EXIST
  }
}
