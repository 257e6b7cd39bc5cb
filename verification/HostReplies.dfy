/**
 What a request handler produces: the commits it makes in order, its reply or
 typed failure, and what the server does with the reply.
 */
module HostReplies {
  import opened Wrappers
  import opened Identity
  import opened HostRecords
  import opened HostCommits

  datatype ResponseAction = Send | Drop | Malformed | Crash

  /** Error codes of the frozen runtime-v3 contract. */
  datatype RuntimeCode =
    | StaleLease | ActiveSession | OperationConflict | StaleGeneration | IllegalAction
    | ActiveOperation | RuntimeCapacity | OperationNotFound | PrestateChanged | QueueMissing
    | OperationRejected | OperationUnknown | EffectWitnessMissing | EpisodeStopped

  datatype RuntimeReply =
    | Observed(observation: Observation)
    | Accepted(operation: Id, observation: Observation)
    | Rejected(operation: Id, code: RuntimeCode, observation: Observation)
    | Uncertain(code: RuntimeCode, generation: int)
    | Completed(operation: Id, result: RuntimeResult)
    | Recovered(observation: Observation)
    | Cancelled(observation: Observation)

  datatype Reply =
    | Answer(status: Status)
    | BootReply(boot: BootDocument, fence: FenceDocument)
    | FenceReply(fence: FenceDocument)
    | LeaseReply(lease: LeaseDocument)
    | RuntimeAnswer(runtime: RuntimeReply)

  datatype Outcome = Outcome(
    steps: seq<Step>, result: Result<Reply, FixtureError>, action: ResponseAction)

  function Fail(error: FixtureError): Outcome { Outcome([], Err(error), Send) }

  function Say(steps: seq<Step>, reply: Reply): Outcome { Outcome(steps, Ok(reply), Send) }

  /** Faults a test server may arm; each fires at most once. */
  datatype FaultPoint =
    | NoFault | BeforeAdmission | AfterAdmission | BeforeMutation | AfterMutation
    | BeforeReceipt | AfterReceipt | ResponseLoss | MalformedResponse

  function FaultAction(point: FaultPoint): Option<ResponseAction> {
    match point
    case NoFault => None
    case ResponseLoss => Some(Drop)
    case MalformedResponse => Some(Malformed)
    case _ => Some(Crash)
  }
}
