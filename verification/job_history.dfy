/** The job-history handler: the read side that turns persisted scheduler
    jobs and their attempts into the API's `JobRead`, `AttemptRead` and
    `JobInfoRead` views. Persistence, the log-tail reader, the scope helper
    and the enum conversions are collaborators passed in as functions. */
module JobHistory {
  import opened Wrappers
  import Seqs

  /** Number of trailing log lines attached to each attempt of a job. */
  const LOG_TAIL_SIZE: nat := 100

  // Scheduler-side enumerations (`JobStatus`, `AttemptStatus`,
  // `JobConfig.ConfigType`); their members are not part of this model.
  type JobStatusCode(==)
  type AttemptStatusCode(==)
  type ConfigTypeCode(==)

  // API-side enumerations (`api.model.JobStatus`, `AttemptStatus`, `JobConfigType`).
  type ApiJobStatus(==)
  type ApiAttemptStatus(==)
  type ApiConfigType(==)

  /** An `IOException` raised by a collaborator. */
  datatype IoError = IoError(message: string)

  /** How a handler call fails: an `IOException` from persistence escapes
      as is, one from the log reader is rethrown inside a `RuntimeException`. */
  datatype HandlerError =
    | PersistenceIo(cause: IoError)
    | LogReadRuntime(cause: IoError)

  // ---- Persisted scheduler state ----

  datatype StandardSyncSummary = StandardSyncSummary(recordsSynced: int, bytesSynced: int)

  /** Each link of the output chain may be missing (Java `null`). */
  datatype StandardSyncOutput = StandardSyncOutput(standardSyncSummary: Option<StandardSyncSummary>)

  datatype JobOutput = JobOutput(sync: Option<StandardSyncOutput>)

  datatype Attempt = Attempt(
    id: int,
    jobId: int,
    status: AttemptStatusCode,
    logPath: string,
    output: Option<JobOutput>,
    createdAtInSecond: int,
    updatedAtInSecond: int,
    endedAtInSecond: Option<int>)

  datatype JobConfig = JobConfig(configType: ConfigTypeCode)

  /** A job with its attempts in stored order. */
  datatype Job = Job(
    id: int,
    scope: string,
    config: JobConfig,
    status: JobStatusCode,
    attempts: seq<Attempt>,
    createdAtInSecond: int,
    updatedAtInSecond: int)

  // ---- API views ----

  /** `endedAt`, `recordsSynced` and `bytesSynced` are unset unless the
      attempt supplies them. */
  datatype AttemptRead = AttemptRead(
    id: int,
    status: ApiAttemptStatus,
    createdAt: int,
    updatedAt: int,
    endedAt: Option<int>,
    recordsSynced: Option<int>,
    bytesSynced: Option<int>)

  datatype LogRead = LogRead(logLines: seq<string>)

  datatype AttemptInfoRead = AttemptInfoRead(attempt: AttemptRead, logs: LogRead)

  datatype JobRead = JobRead(
    id: int,
    configId: string,
    configType: ApiConfigType,
    createdAt: int,
    updatedAt: int,
    status: ApiJobStatus,
    attempts: seq<AttemptRead>)

  datatype JobInfoRead = JobInfoRead(job: JobRead, attempts: seq<AttemptInfoRead>)

  datatype JobReadList = JobReadList(jobs: seq<JobRead>)

  datatype JobListRequestBody = JobListRequestBody(configType: ApiConfigType, configId: string)

  datatype JobIdRequestBody = JobIdRequestBody(id: int)

  // ---- Collaborators ----

  /** The enum conversions (`Enums.convertTo`, one function per pair of
      enumerations) and `ScopeHelper.getConfigId`. */
  datatype Conversions = Conversions(
    jobStatus: JobStatusCode -> ApiJobStatus,
    attemptStatus: AttemptStatusCode -> ApiAttemptStatus,
    configTypeToApi: ConfigTypeCode -> ApiConfigType,
    configTypeFromApi: ApiConfigType -> ConfigTypeCode,
    configIdOfScope: string -> string)

  /** The persistence queries the handler issues, as seen at one snapshot. */
  datatype JobPersistence = JobPersistence(
    listJobs: (ConfigTypeCode, string) -> Result<seq<Job>, IoError>,
    getJob: int -> Result<Job, IoError>)

  /** `IOs.getTail(numLines, path)`: some lines of the file, or an `IOException`. */
  type TailReader = (nat, string) -> Result<seq<string>, IoError>

  // ---- Projections ----

  /** Projects one attempt. The sync counters are set only when the whole
      output, sync and summary chain is present, and then both come from
      that summary; no zero stands in for a missing count. */
  function GetAttemptRead(conv: Conversions, a: Attempt): (r: AttemptRead)
    ensures r.id == a.id
    ensures r.status == conv.attemptStatus(a.status)
    ensures r.createdAt == a.createdAtInSecond && r.updatedAt == a.updatedAtInSecond
    ensures r.endedAt.Some? <==> a.endedAtInSecond.Some?
    ensures r.endedAt.Some? ==> r.endedAt.value == a.endedAtInSecond.value
    ensures r.recordsSynced.Some? <==>
              a.output.Some? && a.output.value.sync.Some?
              && a.output.value.sync.value.standardSyncSummary.Some?
    ensures r.bytesSynced.Some? <==> r.recordsSynced.Some?
    ensures r.recordsSynced.Some? ==>
              var summary := a.output.value.sync.value.standardSyncSummary.value;
              r.recordsSynced.value == summary.recordsSynced
              && r.bytesSynced.value == summary.bytesSynced
  {
    var attemptRead := AttemptRead(a.id, conv.attemptStatus(a.status),
                                   a.createdAtInSecond, a.updatedAtInSecond, None, None, None);
    var withEnd := match a.endedAtInSecond
                   case Some(t) => attemptRead.(endedAt := Some(t))
                   case None => attemptRead;
    match SyncSummary(a)
    case Some(summary) =>
      withEnd.(recordsSynced := Some(summary.recordsSynced), bytesSynced := Some(summary.bytesSynced))
    case None => withEnd
  }

  /** The attempt's sync summary, present only when the output, its sync
      and the sync's summary are all present. */
  function SyncSummary(a: Attempt): Option<StandardSyncSummary>
  {
    match a.output
    case None => None
    case Some(output) =>
      match output.sync
      case None => None
      case Some(sync) => sync.standardSyncSummary
  }

  /** Projects a job and, in stored order, each of its attempts. */
  function GetJobRead(conv: Conversions, job: Job): (r: JobRead)
    ensures r.id == job.id
    ensures r.configId == conv.configIdOfScope(job.scope)
    ensures r.configType == conv.configTypeToApi(job.config.configType)
    ensures r.status == conv.jobStatus(job.status)
    ensures r.createdAt == job.createdAtInSecond && r.updatedAt == job.updatedAtInSecond
    ensures |r.attempts| == |job.attempts|
    ensures forall i :: 0 <= i < |job.attempts| ==> r.attempts[i] == GetAttemptRead(conv, job.attempts[i])
  {
    JobRead(
      job.id,
      conv.configIdOfScope(job.scope),
      conv.configTypeToApi(job.config.configType),
      job.createdAtInSecond,
      job.updatedAtInSecond,
      conv.jobStatus(job.status),
      Seqs.Map((a: Attempt) => GetAttemptRead(conv, a), job.attempts))
  }

  /** Reads the last `LOG_TAIL_SIZE` lines of the attempt's own log file;
      an `IOException` becomes a `RuntimeException`. */
  function GetLogRead(tail: TailReader, a: Attempt): (r: Result<LogRead, HandlerError>)
    ensures r.Success? <==> tail(LOG_TAIL_SIZE, a.logPath).Success?
    ensures r.Success? ==> r.value.logLines == tail(LOG_TAIL_SIZE, a.logPath).value
    ensures r.Failure? ==> r.error == LogReadRuntime(tail(LOG_TAIL_SIZE, a.logPath).error)
  {
    match tail(LOG_TAIL_SIZE, a.logPath)
    case Success(lines) => Success(LogRead(lines))
    case Failure(e) => Failure(LogReadRuntime(e))
  }

  /** The attempt's projection paired with its log tail. */
  function GetAttemptInfoRead(conv: Conversions, tail: TailReader, a: Attempt): (r: Result<AttemptInfoRead, HandlerError>)
    ensures r.Success? <==> tail(LOG_TAIL_SIZE, a.logPath).Success?
    ensures r.Success? ==> r.value.attempt == GetAttemptRead(conv, a)
    ensures r.Success? ==> r.value.logs == LogRead(tail(LOG_TAIL_SIZE, a.logPath).value)
    ensures r.Failure? ==> r.error == LogReadRuntime(tail(LOG_TAIL_SIZE, a.logPath).error)
  {
    var attemptRead := GetAttemptRead(conv, a);
    var logs :- GetLogRead(tail, a);
    Success(AttemptInfoRead(attemptRead, logs))
  }

  /** Every attempt's log tail can be read. */
  ghost predicate LogsReadable(tail: TailReader, attempts: seq<Attempt>)
  {
    forall i :: 0 <= i < |attempts| ==> tail(LOG_TAIL_SIZE, attempts[i].logPath).Success?
  }

  /** Attempt `k` is the first whose log tail cannot be read. */
  ghost predicate FirstUnreadableLog(tail: TailReader, attempts: seq<Attempt>, k: int)
  {
    && 0 <= k < |attempts|
    && tail(LOG_TAIL_SIZE, attempts[k].logPath).Failure?
    && forall j :: 0 <= j < k ==> tail(LOG_TAIL_SIZE, attempts[j].logPath).Success?
  }

  /** Projects the attempts in order with their log tails. The stream stops
      at the first failing read, whose error is the result: no partial list. */
  function GetAttemptInfoReads(conv: Conversions, tail: TailReader, attempts: seq<Attempt>)
    : (r: Result<seq<AttemptInfoRead>, HandlerError>)
    ensures r.Success? <==> LogsReadable(tail, attempts)
    ensures r.Success? ==> |r.value| == |attempts|
    ensures r.Success? ==> forall i :: 0 <= i < |attempts| ==>
              r.value[i] == AttemptInfoRead(GetAttemptRead(conv, attempts[i]),
                                            LogRead(tail(LOG_TAIL_SIZE, attempts[i].logPath).value))
    ensures r.Failure? ==> exists k :: FirstUnreadableLog(tail, attempts, k)
                                       && r.error == LogReadRuntime(tail(LOG_TAIL_SIZE, attempts[k].logPath).error)
    decreases |attempts|
  {
    if |attempts| == 0 then Success([])
    else
      match GetAttemptInfoRead(conv, tail, attempts[0])
      case Failure(e) =>
        assert FirstUnreadableLog(tail, attempts, 0);
        Failure(e)
      case Success(first) =>
        var rest := GetAttemptInfoReads(conv, tail, attempts[1..]);
        match rest
        case Failure(e) =>
          assert exists k :: FirstUnreadableLog(tail, attempts, k)
                             && e == LogReadRuntime(tail(LOG_TAIL_SIZE, attempts[k].logPath).error) by {
            var k :| FirstUnreadableLog(tail, attempts[1..], k)
                     && e == LogReadRuntime(tail(LOG_TAIL_SIZE, attempts[1..][k].logPath).error);
            assert FirstUnreadableLog(tail, attempts, k + 1) by {
              forall j | 0 <= j < k + 1 ensures tail(LOG_TAIL_SIZE, attempts[j].logPath).Success? {
                if j > 0 { assert attempts[j] == attempts[1..][j - 1]; }
              }
            }
          }
          Failure(e)
        case Success(others) =>
          assert LogsReadable(tail, attempts) by {
            forall i | 0 <= i < |attempts| ensures tail(LOG_TAIL_SIZE, attempts[i].logPath).Success? {
              if i > 0 { assert attempts[i] == attempts[1..][i - 1]; }
            }
          }
          Success([first] + others)
  }

  // ---- Entry points ----

  /** `getJobInfo`: the job's `JobRead` together with every attempt and its
      log tail. It fails, with nothing returned, when the job cannot be
      fetched or when any one log read fails. */
  function GetJobInfo(conv: Conversions, db: JobPersistence, tail: TailReader, request: JobIdRequestBody)
    : (r: Result<JobInfoRead, HandlerError>)
    ensures db.getJob(request.id).Failure? ==> r == Failure(PersistenceIo(db.getJob(request.id).error))
    ensures db.getJob(request.id).Success? ==>
              var job := db.getJob(request.id).value;
              && (r.Success? <==> LogsReadable(tail, job.attempts))
              && (r.Success? ==> r.value.job == GetJobRead(conv, job))
              && (r.Success? ==> |r.value.attempts| == |job.attempts|)
              && (r.Success? ==> forall i :: 0 <= i < |job.attempts| ==>
                    && r.value.attempts[i].attempt == GetAttemptRead(conv, job.attempts[i])
                    && r.value.attempts[i].logs.logLines == tail(LOG_TAIL_SIZE, job.attempts[i].logPath).value)
              && (r.Failure? ==>
                    exists k :: FirstUnreadableLog(tail, job.attempts, k)
                                && r.error == LogReadRuntime(tail(LOG_TAIL_SIZE, job.attempts[k].logPath).error))
  {
    match db.getJob(request.id)
    case Failure(e) => Failure(PersistenceIo(e))
    case Success(job) =>
      var jobRead := GetJobRead(conv, job);
      var attempts :- GetAttemptInfoReads(conv, tail, job.attempts);
      Success(JobInfoRead(jobRead, attempts))
  }

  /** `listJobsFor`: one `JobRead` per job persistence lists for the
      request's config type and id, in persistence order. It takes no log
      reader: listing never reads a log. */
  function ListJobsFor(conv: Conversions, db: JobPersistence, request: JobListRequestBody)
    : (r: Result<JobReadList, HandlerError>)
    ensures var listed := db.listJobs(conv.configTypeFromApi(request.configType), request.configId);
            && (r.Success? <==> listed.Success?)
            && (r.Success? ==> |r.value.jobs| == |listed.value|)
            && (r.Success? ==> forall i :: 0 <= i < |listed.value| ==>
                  r.value.jobs[i] == GetJobRead(conv, listed.value[i]))
            && (r.Failure? ==> r.error == PersistenceIo(listed.error))
  {
    var configType := conv.configTypeFromApi(request.configType);
    match db.listJobs(configType, request.configId)
    case Failure(e) => Failure(PersistenceIo(e))
    case Success(jobs) => Success(JobReadList(Seqs.Map((job: Job) => GetJobRead(conv, job), jobs)))
  }

  // ---- Properties relating the views ----

  /** In a `JobInfoRead`, attempt `i` of the detailed list is exactly
      attempt `i` of the embedded `JobRead`. */
  lemma InfoAttemptsMatchJobRead(conv: Conversions, db: JobPersistence, tail: TailReader, request: JobIdRequestBody)
    requires GetJobInfo(conv, db, tail, request).Success?
    ensures var info := GetJobInfo(conv, db, tail, request).value;
            |info.attempts| == |info.job.attempts|
            && forall i :: 0 <= i < |info.attempts| ==> info.attempts[i].attempt == info.job.attempts[i]
  {
  }

  /** The job a detail request fetches is shown the same way in a listing
      that contains it. */
  lemma ListAndDetailAgree(conv: Conversions, db: JobPersistence, tail: TailReader,
                           listRequest: JobListRequestBody, i: nat)
    requires ListJobsFor(conv, db, listRequest).Success?
    requires var listed := db.listJobs(conv.configTypeFromApi(listRequest.configType), listRequest.configId);
             i < |listed.value| && db.getJob(listed.value[i].id) == Success(listed.value[i])
    requires GetJobInfo(conv, db, tail, JobIdRequestBody(db.listJobs(conv.configTypeFromApi(listRequest.configType), listRequest.configId).value[i].id)).Success?
    ensures var listed := db.listJobs(conv.configTypeFromApi(listRequest.configType), listRequest.configId);
            GetJobInfo(conv, db, tail, JobIdRequestBody(listed.value[i].id)).value.job
            == ListJobsFor(conv, db, listRequest).value.jobs[i]
  {
  }

  /** A single log that cannot be read fails the whole detail request,
      whatever the other attempts' logs hold. */
  lemma OneUnreadableLogFailsJobInfo(conv: Conversions, db: JobPersistence, tail: TailReader,
                                     request: JobIdRequestBody, k: nat)
    requires db.getJob(request.id).Success?
    requires k < |db.getJob(request.id).value.attempts|
    requires tail(LOG_TAIL_SIZE, db.getJob(request.id).value.attempts[k].logPath).Failure?
    ensures GetJobInfo(conv, db, tail, request).Failure?
    ensures GetJobInfo(conv, db, tail, request).error.LogReadRuntime?
  {
  }

  /** The attempt projection ignores the log path and job id: two attempts
      that agree on what is copied project to the same view. */
  lemma AttemptReadIgnoresLogPath(conv: Conversions, a: Attempt, b: Attempt)
    requires a.id == b.id && a.status == b.status && a.output == b.output
    requires a.createdAtInSecond == b.createdAtInSecond && a.updatedAtInSecond == b.updatedAtInSecond
    requires a.endedAtInSecond == b.endedAtInSecond
    ensures GetAttemptRead(conv, a) == GetAttemptRead(conv, b)
  {
  }
}
