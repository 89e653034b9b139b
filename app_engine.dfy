/** app_engine.go: the jobs that travel between the stages, the interactor
    records they carry, and the bounded, non-blocking job queue each stage owns.

    The external collaborators (traffic, cab and notification services, the
    booking-time strategy, the cron facility) are total functions from the
    request they are handed to the outcome they report. */
module AppEngine {
  import opened Common
  import opened Domain

  type TrafficService = TrafficRequest -> Result<TrafficResponse>
  type CabService = CabRequest -> Result<Duration>
  type BestBookingTimeFinder = Option<TrafficResponseDTO> -> Result<Time>
  type NotificationService = CabBookingResponse -> Outcome
  /** `CronEngine.Add`: registers a callback to fire at the given time. */
  type CronEngine = (Time, CronJob) -> Outcome

  /** The aggregated traffic result the booking stage works from. */
  datatype TrafficResponseDTO = TrafficResponseDTO(
    userRequest: Option<UserRequest>,
    travelTime: seq<Duration>,
    bestCase: seq<Time>,
    worstCase: seq<Time>)

  datatype TrafficInteractor = TrafficInteractor(trafficService: TrafficService)

  datatype CabInteractor = CabInteractor(cabService: CabService, strategy: BestBookingTimeFinder)

  datatype CabEngineInteractor = CabEngineInteractor(appEngine: Engine, logger: Logger)

  datatype NotificationInteractor = NotificationInteractor(appEngine: Engine)

  datatype NotificationServiceInteractor = NotificationServiceInteractor(notificationService: NotificationService)

  /** The closure `TrafficResponseProcessor` returns: the cab-engine interactor it
      belongs to and the arguments it captured. */
  datatype CronJob = TrafficResponseProcessor(
    owner: CabEngineInteractor,
    trafficResponse: Option<TrafficResponseDTO>,
    cab: CabInteractor,
    notification: NotificationInteractor,
    notificationService: Option<NotificationServiceInteractor>)

  /** The three kinds of unit of work, one per stage. */
  datatype Job =
    | UserRequestJob(
        userRequest: UserRequest,
        traffic: TrafficInteractor,
        cab: CabInteractor,
        cabEngine: CabEngineInteractor,
        notification: NotificationInteractor,
        notificationService: Option<NotificationServiceInteractor>,
        cron: CronEngine)
    | CabRequestJob(
        trafficResponse: Option<TrafficResponseDTO>,
        cab: CabInteractor,
        notification: NotificationInteractor,
        notificationService: Option<NotificationServiceInteractor>)
    | NotificationJob(
        response: CabBookingResponse,
        notificationService: Option<NotificationServiceInteractor>)

  /** `NewUserRequestJob`: stores what it is given and leaves the
      notification-service interactor unset. */
  function NewUserRequestJob(
    ur: UserRequest, tsI: TrafficInteractor, cabI: CabInteractor, cabEngI: CabEngineInteractor,
    n: NotificationInteractor, c: CronEngine): (job: Job)
    ensures job.UserRequestJob? && job.notificationService == None
    ensures job.userRequest == ur && job.traffic == tsI && job.cab == cabI
    ensures job.cabEngine == cabEngI && job.notification == n && job.cron == c
  {
    UserRequestJob(ur, tsI, cabI, cabEngI, n, None, c)
  }

  /** `NewCabRequestJob`. */
  function NewCabRequestJob(
    t: Option<TrafficResponseDTO>, c: CabInteractor, nI: NotificationInteractor,
    nsI: Option<NotificationServiceInteractor>): (job: Job)
    ensures job.CabRequestJob? && job.trafficResponse == t && job.cab == c
    ensures job.notification == nI && job.notificationService == nsI
  {
    CabRequestJob(t, c, nI, nsI)
  }

  /** `NewNotificationJob`. */
  function NewNotificationJob(c: CabBookingResponse, n: Option<NotificationServiceInteractor>): (job: Job)
    ensures job.NotificationJob? && job.response == c && job.notificationService == n
  {
    NotificationJob(c, n)
  }

  /** The slot `offset` places after `start` in a circular buffer of `n` slots. */
  function Slot(start: nat, offset: nat, n: nat): (k: nat)
    requires start < n && offset <= n
    ensures k < n
  {
    if start + offset < n then start + offset else start + offset - n
  }

  /** One stage's engine (`TrafficAppEngine`, `CabAppEngine`,
      `NotificationAppEngine`): a buffered channel of jobs whose capacity is fixed
      when it is made. The buffer is circular, as a Go channel's is: jobs are
      received from slot `recvx` and sent into slot `sendx`. */
  class Engine {
    const kind: EngineKind
    const capacity: nat
    const buf: array<Option<Job>>
    var recvx: nat
    var sendx: nat
    var count: nat
    /** The queued jobs, oldest first. */
    ghost var Contents: seq<Job>

    ghost predicate Valid()
      reads this, buf
    {
      && buf.Length == capacity
      && count == |Contents| <= capacity
      && (capacity == 0 ==> recvx == 0 && sendx == 0)
      && (capacity > 0 ==> recvx < capacity && sendx == Slot(recvx, count, capacity))
      && forall i :: 0 <= i < count ==> buf[Slot(recvx, i, capacity)] == Some(Contents[i])
    }

    /** `NewTrafficAppEngine`; Go refuses a negative length when making the channel. */
    constructor Traffic(maxQueueLength: int)
      requires maxQueueLength >= 0
      ensures Valid() && fresh(buf)
      ensures kind == EngineKind.Traffic && capacity == maxQueueLength && Contents == []
    {
      kind, capacity := EngineKind.Traffic, maxQueueLength;
      buf := new Option<Job>[maxQueueLength];
      recvx, sendx, count := 0, 0, 0;
      Contents := [];
    }

    /** `NewCabAppEngine`. */
    constructor Cab(maxQueueLength: int)
      requires maxQueueLength >= 0
      ensures Valid() && fresh(buf)
      ensures kind == EngineKind.Cab && capacity == maxQueueLength && Contents == []
    {
      kind, capacity := EngineKind.Cab, maxQueueLength;
      buf := new Option<Job>[maxQueueLength];
      recvx, sendx, count := 0, 0, 0;
      Contents := [];
    }

    /** `NewNotificationAppEngine`. */
    constructor Notification(maxQueueLength: int)
      requires maxQueueLength >= 0
      ensures Valid() && fresh(buf)
      ensures kind == EngineKind.Notification && capacity == maxQueueLength && Contents == []
    {
      kind, capacity := EngineKind.Notification, maxQueueLength;
      buf := new Option<Job>[maxQueueLength];
      recvx, sendx, count := 0, 0, 0;
      Contents := [];
    }

    /** `AddJob`: a send that never blocks. With a free slot the job joins the back
        of the queue; on a full queue the queue is left as it was and the call
        reports that this engine's queue is full. */
    method AddJob(j: Job) returns (err: Outcome)
      requires Valid()
      modifies this, buf
      ensures Valid()
      ensures err == if |old(Contents)| < capacity then Pass else Fail(QueueFull(kind))
      ensures Contents == if err.Pass? then old(Contents) + [j] else old(Contents)
      ensures err.Fail? ==> unchanged(this, buf)
    {
      if count < capacity {
        buf[sendx] := Some(j);
        sendx := if sendx + 1 == capacity then 0 else sendx + 1;
        count := count + 1;
        Contents := Contents + [j];
        err := Pass;
      } else {
        err := Fail(QueueFull(kind));
      }
    }

    /** What a worker's receive does, taken one step at a time and without
        waiting: the oldest job leaves the queue; an empty queue yields nothing. */
    method Receive() returns (j: Option<Job>)
      requires Valid()
      modifies this, buf
      ensures Valid()
      ensures old(Contents) == [] ==> j == None && Contents == []
      ensures old(Contents) != [] ==> j == Some(old(Contents)[0]) && Contents == old(Contents)[1..]
    {
      if count == 0 {
        return None;
      }
      j := buf[recvx];
      buf[recvx] := None;
      recvx := if recvx + 1 == capacity then 0 else recvx + 1;
      count := count - 1;
      Contents := Contents[1..];
    }
  }

  /** Two jobs offered back to back to a one-slot queue that nobody drains: the
      first is admitted, the second refused. */
  method OneSlotAdmission(first: Job, second: Job) returns (firstErr: Outcome, secondErr: Outcome)
    ensures firstErr == Pass
    ensures secondErr == Fail(QueueFull(EngineKind.Traffic))
  {
    var e := new Engine.Traffic(1);
    firstErr := e.AddJob(first);
    secondErr := e.AddJob(second);
  }

  /** A zero-capacity channel with no receiver waiting admits nothing. */
  method ZeroCapacityRefusesAll(j: Job) returns (err: Outcome)
    ensures err == Fail(QueueFull(EngineKind.Notification))
  {
    var e := new Engine.Notification(0);
    err := e.AddJob(j);
  }

  /** Jobs leave the queue in the order they were admitted, also when the
      circular buffer wraps around. */
  method FirstInFirstOut(a: Job, b: Job, c: Job) returns (out1: Option<Job>, out2: Option<Job>, out3: Option<Job>, out4: Option<Job>)
    ensures out1 == Some(a) && out2 == Some(b) && out3 == Some(c) && out4 == None
  {
    var e := new Engine.Cab(2);
    var _ := e.AddJob(a);
    var _ := e.AddJob(b);
    out1 := e.Receive();
    var _ := e.AddJob(c);
    out2 := e.Receive();
    out3 := e.Receive();
    out4 := e.Receive();
  }
}
