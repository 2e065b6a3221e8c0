/** The values exchanged by the queue feature (src/internal/queue/types.go). */
module Queue {
  import opened Wrappers

  datatype QueueConfig = QueueConfig(enabled: bool, monitorCreationEnabled: bool, learningCycles: int)

  datatype Credentials = Credentials(apiKey: string)

  type LabelRegistry = map<string, seq<string>>

  datatype Snapshot = Snapshot(
    provider: string, externalID: string, displayName: string, projectID: string, topicID: string,
    isDLQ: bool, tenantID: int,
    backlog: int, ageSec: int, pullRate: real, ackRate: real, deadLetters: int,
    labels: map<string, string>, hasDLQConfigured: bool,
    hasMonitorBacklog: bool, hasMonitorAge: bool, hasMonitorDLQ: bool)

  datatype Thresholds = Thresholds(
    backlogWarning: int, backlogCritical: int, ageWarningSec: int, ageCriticalSec: int)

  const NO_THRESHOLDS := Thresholds(0, 0, 0, 0)

  /** The lifecycle states of titlis-api; any other string is ignored by the dispatch. */
  datatype LifecycleState = Discovering | Learning | Monitoring | Unrecognised(text: string)

  datatype Lifecycle = Lifecycle(state: LifecycleState, observationCount: int, thresholds: Option<Thresholds>)

  /** Which monitors exist after a queue's monitors were ensured. */
  datatype MonitorStatus = MonitorStatus(backlog: bool, age: bool, dlq: bool)
}
