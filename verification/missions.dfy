/** Missions and the transition table that every change of a mission's state must obey. */
module Missions {
  datatype MissionState =
    | Proposed | Ready | Assigned | Running | ResultSubmitted | Validating | ReviewRequired
    | Approved | Integrated | Completed | Paused | Blocked | Retrying | Cancelled | Failed

  datatype Mission = Mission(id: string, projectId: string, priority: int, createdAt: string, state: MissionState)

  datatype Dependency = Dependency(missionId: string, dependsOnMissionId: string)

  function Exits(state: MissionState): set<MissionState> {
    match state
    case Proposed => {Ready, Paused, Cancelled}
    case Ready => {Assigned, Paused, Blocked, Cancelled}
    case Assigned => {Running, Ready, Paused, Blocked, Cancelled}
    case Running => {ResultSubmitted, Paused, Blocked, Retrying, Cancelled, Failed}
    case ResultSubmitted => {Validating, Paused, Cancelled}
    case Validating => {ReviewRequired, Retrying, Blocked, Failed, Paused, Cancelled}
    case ReviewRequired => {Approved, Retrying, Blocked, Failed, Paused, Cancelled}
    case Approved => {Integrated, Blocked, Paused, Cancelled}
    case Integrated => {Completed, Failed, Paused}
    case Completed => {}
    case Paused =>
      {Proposed, Ready, Assigned, Running, ResultSubmitted, Validating, ReviewRequired, Approved, Integrated, Blocked, Cancelled}
    case Blocked => {Ready, ReviewRequired, Paused, Cancelled, Failed}
    case Retrying => {Assigned, Paused, Failed, Cancelled}
    case Cancelled => {}
    case Failed => {Retrying, Paused}
  }

  predicate CanTransition(before: MissionState, after: MissionState) {
    after in Exits(before)
  }

  /** The states that a pause of the project suspends. */
  predicate Pauseable(state: MissionState) {
    state !in {Completed, Paused, Cancelled, Failed}
  }

  /** Where a suspended mission goes on; what was executing starts again through the scheduler. */
  function ResumeTarget(pausedFrom: MissionState): MissionState {
    match pausedFrom
    case Proposed => Proposed
    case ResultSubmitted => Validating
    case Validating => Validating
    case ReviewRequired => ReviewRequired
    case Approved => Approved
    case Integrated => Integrated
    case Blocked => Blocked
    case _ => Ready
  }
}
