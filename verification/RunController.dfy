/** The TerraformRun controller: its conditions, its seven states and what one reconciliation writes. */
module RunController {
  import opened Resources

  /** What the API server answers during one reconciliation. */
  datatype RunChoice = RunChoice(
    bundleOk: bool,               // the revision's bundle is in the datastore
    locked: bool,                 // CreateLock succeeded
    room: bool,                   // pods could be listed and the limit is not reached
    created: bool,                // the pod could be created
    pod: PodName,                 // its generated name
    logs: map<PodName, LogOutcome>)

  datatype LogOutcome = Unreadable | NotStored | LogsStored

  datatype RunInfo = RunInfo(retries: nat, lastRun: Stamp, runnerPod: Option<PodName>, newPod: bool)

  function PhaseOf(pods: map<PodName, Pod>, pod: Option<PodName>): PodPhase {
    if pod.Some? && pod.value in pods then pods[pod.value].phase else PodUnknown
  }

  predicate HasReachedRetryLimit(ctx: Context, st: RunStatus) {
    st.retries >= MaxRetries(ctx)
  }

  predicate IsRunning(st: RunStatus, phase: PodPhase) {
    && (st.state == Initial || st.state == Retrying || st.state == Running)
    && (phase == PodPending || phase == PodRunning)
  }

  predicate IsInFailureGracePeriod(ctx: Context, st: RunStatus, phase: PodPhase, now: int) {
    phase == PodFailed && st.lastRun.At? && st.lastRun.time + ctx.settings.backoff(st.retries) > now
  }

  function GetState(ctx: Context, st: RunStatus, phase: PodPhase, now: int): RunState {
    var reached := HasReachedRetryLimit(ctx, st);
    var running := IsRunning(st, phase);
    var grace := IsInFailureGracePeriod(ctx, st, phase, now);
    if st.state == NoStatus then Initial
    else if phase == PodSucceeded then Succeeded
    else if grace && !reached && !running then FailureGracePeriod
    else if grace && reached && !running then Failed
    else if !running && !reached then Retrying
    else if running then Running
    else Failed
  }

  function GetRunInfo(st: RunStatus): RunInfo {
    RunInfo(st.retries, st.lastRun, st.runnerPod, false)
  }

  const EMPTY_INFO := RunInfo(0, Absent, None, false)

  function Handle(state: RunState, st: RunStatus, now: int, ch: RunChoice): RunInfo {
    match state
    case Initial =>
      if ch.locked && ch.room && ch.created then RunInfo(0, At(now), Some(ch.pod), true) else EMPTY_INFO
    case Retrying =>
      if ch.room && ch.created then RunInfo(st.retries + 1, At(now), Some(ch.pod), true) else GetRunInfo(st)
    case _ => GetRunInfo(st)
  }

  predicate Finished(pods: map<PodName, Pod>, pod: PodName) {
    pod in pods && (pods[pod].phase == PodSucceeded || pods[pod].phase == PodFailed)
  }

  /** The logs of a finished attempt are still to be stored, and can be read. */
  predicate ToStore(pods: map<PodName, Pod>, logs: map<PodName, LogOutcome>, a: Attempt) {
    !a.logsUploaded && Finished(pods, a.podName) && a.podName in logs && logs[a.podName] != Unreadable
  }

  /** Marks the attempts whose logs reach the datastore; the first one that cannot be stored ends the pass. */
  function UploadLogs(pods: map<PodName, Pod>, logs: map<PodName, LogOutcome>, attempts: seq<Attempt>)
    : (r: seq<Attempt>)
    ensures |r| == |attempts|
    ensures forall i :: 0 <= i < |r| ==> r[i].podName == attempts[i].podName && r[i].number == attempts[i].number
    ensures forall i :: 0 <= i < |r| ==>
      (r[i].logsUploaded != attempts[i].logsUploaded ==> r[i].logsUploaded && Finished(pods, r[i].podName))
  {
    if attempts == [] then []
    else
      var a := attempts[0];
      if !ToStore(pods, logs, a) then [a] + UploadLogs(pods, logs, attempts[1..])
      else if logs[a.podName] == NotStored then attempts
      else [a.(logsUploaded := true)] + UploadLogs(pods, logs, attempts[1..])
  }

  /** The attempt's logs are not stored yet, its pod has succeeded or failed, and its logs can be read. */
  ghost predicate Due(pods: map<PodName, Pod>, logs: map<PodName, LogOutcome>, a: Attempt) {
    && !a.logsUploaded && a.podName in pods && pods[a.podName].phase in {PodSucceeded, PodFailed}
    && a.podName in logs && logs[a.podName] in {NotStored, LogsStored}
  }

  ghost predicate Refused(pods: map<PodName, Pod>, logs: map<PodName, LogOutcome>, a: Attempt) {
    Due(pods, logs, a) && logs[a.podName] == NotStored
  }

  /** The attempt's logs are in the datastore after the pass: they were before, or they are due and nothing up to
      them is refused. */
  ghost predicate IsUploaded(pods: map<PodName, Pod>, logs: map<PodName, LogOutcome>, attempts: seq<Attempt>, i: nat)
    requires i < |attempts|
  {
    || attempts[i].logsUploaded
    || (Due(pods, logs, attempts[i]) && forall j :: 0 <= j <= i ==> !Refused(pods, logs, attempts[j]))
  }

  /** The pass marks exactly the attempts to be stored that come before the first one that is refused. */
  lemma {:induction false} UploadMarksIff(
    pods: map<PodName, Pod>, logs: map<PodName, LogOutcome>, attempts: seq<Attempt>, i: nat)
    requires i < |attempts|
    ensures UploadLogs(pods, logs, attempts)[i] ==
            attempts[i].(logsUploaded := IsUploaded(pods, logs, attempts, i))
  {
    assert !Refused(pods, logs, attempts[0]) || !IsUploaded(pods, logs, attempts, i) || attempts[i].logsUploaded;
    if i > 0 && !Refused(pods, logs, attempts[0]) {
      UploadMarksIff(pods, logs, attempts[1..], i - 1);
      RefusedShift(pods, logs, attempts, i);
    }
  }

  lemma RefusedShift(pods: map<PodName, Pod>, logs: map<PodName, LogOutcome>, attempts: seq<Attempt>, i: nat)
    requires 0 < i < |attempts| && !Refused(pods, logs, attempts[0])
    ensures IsUploaded(pods, logs, attempts, i) <==> IsUploaded(pods, logs, attempts[1..], i - 1)
  {
    var rest := attempts[1..];
    assert forall j :: 0 < j <= i ==> rest[j - 1] == attempts[j];
    if IsUploaded(pods, logs, attempts, i) {
      forall j | 0 <= j < i && !attempts[i].logsUploaded ensures !Refused(pods, logs, rest[j]) {
        assert rest[j] == attempts[j + 1];
      }
    }
  }

  /** The pods after the handler: a new one when the handler made one. */
  function PodsAfter(pods: map<PodName, Pod>, run: RunName, info: RunInfo): map<PodName, Pod> {
    if info.newPod && info.runnerPod.Some? then
      pods[info.runnerPod.value := Pod(run, info.retries, PodPending, Started)]
    else pods
  }

  /** The status written back: the new pod, if any, is one more attempt. */
  function StatusAfter(
    st: RunStatus, state: RunState, info: RunInfo, pods: map<PodName, Pod>, logs: map<PodName, LogOutcome>): RunStatus
  {
    var attempts :=
      if info.newPod && info.runnerPod.Some? then st.attempts + [Attempt(info.runnerPod.value, info.retries, false)]
      else st.attempts;
    RunStatus(state, info.retries, info.lastRun, info.runnerPod, UploadLogs(pods, logs, attempts))
  }

  /** One reconciliation of the run called name. */
  function ReconcileRun(ctx: Context, w: World, name: RunName, ch: RunChoice): World {
    if name !in w.runs || Terminal(w.runs[name].status.state) || !ch.bundleOk then w
    else
      var st := w.runs[name].status;
      var state := GetState(ctx, st, PhaseOf(w.pods, st.runnerPod), w.now);
      var info := Handle(state, st, w.now, ch);
      var pods := PodsAfter(w.pods, name, info);
      var st' := StatusAfter(st, state, info, pods, ch.logs);
      w.(runs := w.runs[name := w.runs[name].(status := st')],
         pods := pods,
         podNames := if info.newPod then w.podNames + {ch.pod} else w.podNames)
  }
}
