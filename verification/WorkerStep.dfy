/** One observation step of `reconcile_execution`: which row the worker wants to save,
    or which side effect it arms, given what CloudStack answered. */
module WorkerStep {
  import opened Model

  datatype Power = StoppedVm | RunningVm | OtherPower

  /** The External inventory restricted to the execution's own UUID. */
  datatype Sighting =
    | Absent
    | Several
    | Mismatched
    | Exact(power: Power, instance: string)

  datatype Observation =
    | Saw(vms: Sighting)
    | JobPending
    | JobFailed(vms: Sighting)
    | JobDone(vms: Sighting)
    | ActivationPending

  datatype Reaction =
    | Save(row: Execution)
    | ArmDeployment
    | ArmStarting
    | ReleaseUnbound
    | Nothing

  /** `_save`: move on, record the error and give the worker lease back. */
  function Saved(row: Execution, state: ExecState, error: Option<ErrorCode>): Execution {
    row.(state := state, error := error, lease := None)
  }

  function Deployed(row: Execution, id: Id, instance: string): Execution {
    Saved(row, DeploySucceeded, None).(vmRef := Some(id), instance := Some(instance))
  }

  function GiveUp(row: Execution, error: ErrorCode): Reaction {
    Save(Saved(row, CleanupRequired, Some(error)))
  }

  function React(row: Execution, id: Id, seen: Observation): Reaction {
    match row.state
    case Planned =>
      (match seen
       case Saw(Absent) => ArmDeployment
       case Saw(Exact(StoppedVm, instance)) => Save(Deployed(row, id, instance))
       case Saw(Exact(_, _)) =>
         Save(Saved(row, SubmissionUnknown, Some(DeployVmNotYetStopped)))
       case Saw(_) => GiveUp(row, CloudStackVmIdentityMismatch)
       case _ => Nothing)
    case DeploySubmitting => ReactToUnknownSubmission(row, id, seen)
    case SubmissionUnknown => ReactToUnknownSubmission(row, id, seen)
    case DeploySubmitted =>
      (match seen
       case JobPending => Save(Saved(row, DeploySubmitted, None))
       case JobFailed(Absent) => Save(Saved(row, Failed, Some(DeployJobFailed)))
       case JobFailed(_) => GiveUp(row, DeployJobFailedWithVm)
       case JobDone(Exact(StoppedVm, instance)) => Save(Deployed(row, id, instance))
       case JobDone(Exact(_, _)) => GiveUp(row, DeployedVmNotStopped)
       case JobDone(_) => GiveUp(row, DeployedVmVerificationFailed)
       case _ => Nothing)
    case DeploySucceeded =>
      (match seen
       case Saw(Exact(StoppedVm, _)) => ArmStarting
       case Saw(Exact(_, _)) => GiveUp(row, PreStartVmNotStopped)
       case Saw(_) => GiveUp(row, PreStartVmVerificationFailed)
       case _ => Nothing)
    case StartSubmitting => ReactToUnknownStart(row, seen)
    case StartUnknown => ReactToUnknownStart(row, seen)
    case StartSubmitted =>
      (match seen
       case JobPending => Save(Saved(row, StartSubmitted, None))
       case JobFailed(_) => Save(Saved(row, StartUnknown, Some(StartJobFailed)))
       case JobDone(_) => Save(Saved(row, Verifying, None))
       case _ => Nothing)
    case Verifying =>
      if seen == ActivationPending
      then Save(Saved(row, Verifying, Some(PendingActivation)))
      else Nothing
    case CleanupSubmitting => ReactToPendingDelete(row, seen)
    case CleanupAuthorized => ReactToPendingDelete(row, seen)
    case CleanupSubmitted =>
      (match seen
       case JobPending => Save(Saved(row, CleanupSubmitted, None))
       case JobFailed(_) => GiveUp(row, CleanupJobFailed)
       case JobDone(Absent) => ReleaseUnbound
       case JobDone(_) => GiveUp(row, CleanupJobSucceededButVmPresent)
       case _ => Nothing)
    case _ => Nothing
  }

  function ReactToUnknownSubmission(row: Execution, id: Id, seen: Observation): Reaction {
    match seen
    case Saw(Several) => GiveUp(row, CloudStackVmAmbiguous)
    case Saw(Mismatched) => GiveUp(row, CloudStackVmIdentityMismatch)
    case Saw(Exact(StoppedVm, instance)) => Save(Deployed(row, id, instance))
    case Saw(Exact(_, _)) =>
      Save(Saved(row, SubmissionUnknown, Some(DeployVmNotYetStopped)))
    case Saw(Absent) =>
      Save(Saved(row, SubmissionUnknown, Some(DeploySubmissionUnknown)))
    case _ => Nothing
  }

  function ReactToUnknownStart(row: Execution, seen: Observation): Reaction {
    match seen
    case Saw(Exact(RunningVm, _)) => Save(Saved(row, Verifying, None))
    case Saw(_) => Save(Saved(row, StartUnknown, Some(StartSubmissionUnknown)))
    case _ => Nothing
  }

  function ReactToPendingDelete(row: Execution, seen: Observation): Reaction {
    match seen
    case Saw(Absent) => ReleaseUnbound
    case Saw(Exact(_, _)) =>
      Save(Saved(row, CleanupSubmitting,
        if row.error.Some? then row.error
        else Some(CleanupPendingUnknownJob)))
    case Saw(_) => GiveUp(row, CleanupIdentityMismatch)
    case _ => Nothing
  }

  predicate Stopped(vms: Sighting) {
    vms.Exact? && vms.power == StoppedVm
  }

  predicate Becomes(row: Execution, id: Id, seen: Observation, s: ExecState) {
    React(row, id, seen).Save? && React(row, id, seen).row.state == s
  }

  /** The answer to a deploy or start request: a job, or no usable answer. */
  datatype Reply = Job(id: string) | NoReply(error: ErrorCode)

  function AfterDeploy(row: Execution, reply: Reply): Execution {
    match reply
    case Job(id) => Saved(row, DeploySubmitted, None).(deployJob := Some(id))
    case NoReply(error) => Saved(row, SubmissionUnknown, Some(error))
  }

  function AfterStart(row: Execution, reply: Reply): Execution {
    match reply
    case Job(id) => Saved(row, StartSubmitted, None).(startJob := Some(id))
    case NoReply(error) => Saved(row, StartUnknown, Some(error))
  }

  /** The write after the destroy call keeps whatever lease the row has. */
  function AfterDestroy(row: Execution, reply: Reply): Execution {
    match reply
    case Job(id) => row.(state := CleanupSubmitted, cleanupJob := Some(id))
    case NoReply(error) => row.(state := CleanupSubmitting, error := Some(error))
  }

  /** Flushing an object of the session writes only the columns that differ from the
      copy it was loaded with; every other column keeps its current value. */
  function Column<T(==)>(current: T, loaded: T, wanted: T): T {
    if wanted == loaded then current else wanted
  }

  function Flush(current: Execution, loaded: Execution, wanted: Execution): Execution {
    current.(
      state := Column(current.state, loaded.state, wanted.state),
      deployJob := Column(current.deployJob, loaded.deployJob, wanted.deployJob),
      startJob := Column(current.startJob, loaded.startJob, wanted.startJob),
      cleanupJob := Column(current.cleanupJob, loaded.cleanupJob, wanted.cleanupJob),
      vmRef := Column(current.vmRef, loaded.vmRef, wanted.vmRef),
      instance := Column(current.instance, loaded.instance, wanted.instance),
      error := Column(current.error, loaded.error, wanted.error),
      lease := Column(current.lease, loaded.lease, wanted.lease))
  }
}
