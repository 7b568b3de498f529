/** The paid-job front end of the CognitoSync agent: jobs are created against
    a payment request, run by the crew, and looked up by id. The payment
    service and the crew are outside the model; what they answer is passed in. */
module JobService {
  import opened Common

  /** The `status` of a job record. */
  datatype JobState = AwaitingPayment | Completed | Failed

  /** A payment amount as the payment service takes it: digits and a unit. */
  datatype Amount = Amount(amount: string, unit: string)

  /** The price of every job: 10 ADA. */
  const JobPrice: seq<Amount> := [Amount("10000000", "lovelace")]

  /** The payment handle made for one job; the service adds the blockchain
      identifiers it is waiting on to `paymentIds`. */
  class Payment {
    const identifierFromPurchaser: string
    const inputData: map<string, string>
    const amounts: seq<Amount>
    var paymentIds: set<string>

    constructor (identifierFromPurchaser: string, inputData: map<string, string>, amounts: seq<Amount>)
      ensures this.identifierFromPurchaser == identifierFromPurchaser
      ensures this.inputData == inputData && this.amounts == amounts
      ensures paymentIds == {}
    {
      this.identifierFromPurchaser := identifierFromPurchaser;
      this.inputData := inputData;
      this.amounts := amounts;
      paymentIds := {};
    }
  }

  /** The `StartJobRequest` body. */
  datatype StartJobRequest = StartJobRequest(identifierFromPurchaser: string, inputData: map<string, string>)

  /** What `start_job` answers on success. */
  datatype StartJobResponse = StartJobResponse(
    jobId: string,
    blockchainIdentifier: string,
    agentIdentifier: Option<string>,
    amounts: seq<Amount>)

  /** A stored job record, holding the payment handle it was created with. */
  datatype Job = Job(
    status: JobState,
    paymentStatus: string,
    inputData: map<string, string>,
    result: Option<string>,
    blockchainIdentifier: string,
    paymentInstance: Payment)

  /** What `job_status` shows of a record: everything but the payment handle. */
  datatype JobView = JobView(
    status: JobState,
    paymentStatus: string,
    inputData: map<string, string>,
    result: Option<string>,
    blockchainIdentifier: string)

  /** The record a crew run leaves: a result moves the job to completed with
      that result, an exception to failed with its message; nothing else of
      the record changes. */
  function Settle(job: Job, outcome: Result<string, string>): (r: Job)
    ensures r.status != AwaitingPayment
    ensures r.status == Completed <==> outcome.Ok?
    ensures outcome.Ok? ==> r.result == Some(outcome.value)
    ensures outcome.Err? ==> r.result == Some("Task failed: " + outcome.error)
    ensures r.(status := job.status, result := job.result) == job
  {
    match outcome
    case Ok(output) => job.(result := Some(output), status := Completed)
    case Err(message) => job.(status := Failed, result := Some("Task failed: " + message))
  }

  class JobStore {
    /** `AGENT_IDENTIFIER` from the environment, if set. */
    const agentIdentifier: Option<string>
    var jobs: map<string, Job>
    var paymentInstances: map<string, Payment>

    /** Every job has its payment handle stored under the same id, and that
        handle is waiting on the job's blockchain identifier. */
    ghost predicate Valid()
      reads this, paymentInstances.Values
    {
      && jobs.Keys == paymentInstances.Keys
      && forall id | id in jobs ::
           && jobs[id].paymentInstance == paymentInstances[id]
           && jobs[id].blockchainIdentifier in paymentInstances[id].paymentIds
    }

    constructor (agentIdentifier: Option<string>)
      ensures Valid()
      ensures this.agentIdentifier == agentIdentifier
      ensures jobs == map[] && paymentInstances == map[]
    {
      this.agentIdentifier := agentIdentifier;
      jobs := map[];
      paymentInstances := map[];
    }

    /** `start_job` as written: a payment handle is made for the request and
        asked for a payment request; its blockchain identifier is recorded and
        the job is stored awaiting payment. If the payment request raises, the
        handler fails with a server error and nothing is stored. */
    method StartJob(jobId: string, request: StartJobRequest, paymentRequest: Result<string, string>)
      returns (r: Result<StartJobResponse, HttpError>)
      requires Valid()
      modifies this
      ensures Valid()
      ensures paymentRequest.Err? ==>
                r == Err(HttpError(500, "Internal Server Error"))
                && jobs == old(jobs) && paymentInstances == old(paymentInstances)
      ensures paymentRequest.Ok? ==>
                var blockchainId := paymentRequest.value;
                && r == Ok(StartJobResponse(jobId, blockchainId, agentIdentifier, JobPrice))
                && jobId in paymentInstances
                && var payment := paymentInstances[jobId];
                && fresh(payment)
                && payment.identifierFromPurchaser == request.identifierFromPurchaser
                && payment.inputData == request.inputData
                && payment.amounts == JobPrice
                && payment.paymentIds == {blockchainId}
                && paymentInstances == old(paymentInstances)[jobId := payment]
                && jobs == old(jobs)[jobId := Job(AwaitingPayment, "pending", request.inputData, None, blockchainId, payment)]
    {
      var payment := new Payment(request.identifierFromPurchaser, request.inputData, JobPrice);
      if paymentRequest.Err? {
        return Err(HttpError(500, "Internal Server Error"));
      }
      var blockchainId := paymentRequest.value;
      payment.paymentIds := payment.paymentIds + {blockchainId};
      paymentInstances := paymentInstances[jobId := payment];
      jobs := jobs[jobId := Job(AwaitingPayment, "pending", request.inputData, None, blockchainId, payment)];
      r := Ok(StartJobResponse(jobId, blockchainId, agentIdentifier, JobPrice));
    }

    /** `execute_crew_task`: `outcome` is what the crew's kickoff returned or
        raised. For an unknown id the record lookup raises and nothing changes;
        `found` says which happened. */
    method ExecuteCrewTask(jobId: string, outcome: Result<string, string>) returns (found: bool)
      requires Valid()
      modifies this
      ensures Valid()
      ensures found <==> jobId in old(jobs)
      ensures paymentInstances == old(paymentInstances)
      ensures found ==> jobs == old(jobs)[jobId := Settle(old(jobs)[jobId], outcome)]
      ensures !found ==> jobs == old(jobs)
    {
      if jobId !in jobs {
        return false;
      }
      var job := jobs[jobId];
      match outcome {
        case Ok(output) =>
          job := job.(result := Some(output));
          job := job.(status := Completed);
        case Err(message) =>
          job := job.(status := Failed);
          job := job.(result := Some("Task failed: " + message));
      }
      jobs := jobs[jobId := job];
      found := true;
    }

    /** `job_status`: a copy of the record without its payment handle, or 404. */
    function JobStatus(jobId: string): (r: Result<JobView, HttpError>)
      reads this
      ensures r.Err? <==> jobId !in jobs
      ensures r.Err? ==> r.error == HttpError(404, "Job not found")
      ensures r.Ok? ==>
                var job := jobs[jobId];
                r.value == JobView(job.status, job.paymentStatus, job.inputData, job.result, job.blockchainIdentifier)
    {
      if jobId !in jobs then Err(HttpError(404, "Job not found"))
      else
        var job := jobs[jobId];
        Ok(JobView(job.status, job.paymentStatus, job.inputData, job.result, job.blockchainIdentifier))
    }

    /** `start_job` as its comments intend: the job is created and the crew
        task then runs on it, so a job whose payment request succeeded always
        ends completed or failed. */
    method StartJobAndProcess(jobId: string, request: StartJobRequest, paymentRequest: Result<string, string>,
                              outcome: Result<string, string>)
      returns (r: Result<StartJobResponse, HttpError>)
      requires Valid()
      modifies this
      ensures Valid()
      ensures r.Ok? <==> paymentRequest.Ok?
      ensures paymentRequest.Err? ==> jobs == old(jobs) && paymentInstances == old(paymentInstances)
      ensures paymentRequest.Ok? ==>
                && r.value.jobId == jobId
                && jobId in jobs
                && jobs[jobId].status != AwaitingPayment
                && jobs[jobId] == Settle(Job(AwaitingPayment, "pending", request.inputData, None,
                                             paymentRequest.value, paymentInstances[jobId]), outcome)
                && (forall id | id in old(jobs) && id != jobId :: id in jobs && jobs[id] == old(jobs)[id])
    {
      r := StartJob(jobId, request, paymentRequest);
      if r.Ok? {
        var found := ExecuteCrewTask(jobId, outcome);
      }
    }
  }

  /** What a client polling a freshly started job sees when `start_job` runs
      as written: the crew task is never scheduled, so the job stays unpaid
      and without a result. */
  method StartedJobStaysUnpaid(jobId: string, request: StartJobRequest, blockchainId: string)
    returns (view: Result<JobView, HttpError>)
    ensures view == Ok(JobView(AwaitingPayment, "pending", request.inputData, None, blockchainId))
  {
    var store := new JobStore(None);
    var started := store.StartJob(jobId, request, Ok(blockchainId));
    view := store.JobStatus(jobId);
  }

  /** The same poll after `StartJobAndProcess`: the job has settled with the
      crew's outcome. */
  method StartedJobIsSettled(jobId: string, request: StartJobRequest, blockchainId: string,
                             outcome: Result<string, string>)
    returns (view: Result<JobView, HttpError>)
    ensures view.Ok? && view.value.status != AwaitingPayment
    ensures view.value.status == Completed <==> outcome.Ok?
    ensures outcome.Ok? ==> view.value.result == Some(outcome.value)
    ensures outcome.Err? ==> view.value.result == Some("Task failed: " + outcome.error)
    ensures view.value.blockchainIdentifier == blockchainId
  {
    var store := new JobStore(None);
    var started := store.StartJobAndProcess(jobId, request, Ok(blockchainId), outcome);
    view := store.JobStatus(jobId);
  }
}
