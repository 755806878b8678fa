/** The normalised container row every adapter returns, and the observations that travel with it. */
module ContainerRuntime {
  import opened Prelude

  datatype RuntimeKind = Docker | Lxc | Podman | Nspawn

  datatype RestartPolicy = No | OnFailure | UnlessStopped | Always {
    predicate DesiresRunning() {
      UnlessStopped? || Always?
    }
  }

  datatype ContainerState =
    | Created | Starting | Running | Paused | Stopping | Exited | Dead | Unknown

  datatype Liveness = NotApplicable | Live | Wedged | Unknown

  /** What the breaker and wedge stores are keyed by. */
  datatype Key = Key(host: string, runtime: RuntimeKind, id: string)

  datatype Container = Container(
    id: string,
    name: string,
    runtime: RuntimeKind,
    host: string,
    state: ContainerState,
    restartPolicy: RestartPolicy,
    labels: seq<(string, string)>,
    mountSources: seq<string>,
    restartCount: U32,
    exitCode: Option<int>
  ) {
    function RecordKey(): Key {
      Key(host, runtime, id)
    }

    predicate HasLabel(key: string, value: string) {
      (key, value) in labels
    }

    /** Exited with a code other than zero: the docker-style tentative gate. */
    predicate ExitedNonZero() {
      state.Exited? && exitCode.Some? && exitCode.value != 0
    }
  }

  datatype HostObservation = HostObservation(
    journalTail: Option<string>,
    previousState: Option<ContainerState>
  )
}
