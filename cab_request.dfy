/** cab_request.go: the cab interactor (ETA lookups and booking decisions) and
    the cab-engine interactor, which turns a traffic result into a queued
    `CabRequestJob` when the cron facility fires its callback. */
module CabUseCase {
  import opened Common
  import opened Domain
  import opened AppEngine

  /** `GetBaseEta`: asks the cab service about exactly the given trip; returns its
      ETA, or a zero duration and the service's error wrapped. */
  function GetBaseEta(ci: CabInteractor, source: Location, destination: Location, bookingTime: Time,
                      cab: string, cabType: string): (r: Reply<Duration>)
    ensures var answer := ci.cabService(CabRequest(source, destination, bookingTime, cab, cabType));
      && (r.err.Pass? <==> answer.Ok?)
      && (answer.Ok? ==> r.value == answer.value)
      && (answer.Err? ==> r.value == 0 && r.err == Fail(Wrapped(BaseEtaFetch, answer.error)))
  {
    var cabReq := NewCabRequest(source, destination, bookingTime, cab, cabType);
    match ci.cabService(cabReq)
    case Err(e) => Reply(0, Fail(Wrapped(BaseEtaFetch, e)))
    case Ok(eta) => Reply(eta, Pass)
  }

  /** `GetBookingResponse`: the strategy picks the booking time; on success the
      response carries the traffic result's user request and that time. A nil
      traffic result that the strategy accepts would be dereferenced, so the
      caller must not pass one. */
  function GetBookingResponse(ci: CabInteractor, tr: Option<TrafficResponseDTO>): (r: Reply<Option<CabBookingResponse>>)
    requires tr.Some? || ci.strategy(tr).Err?
    ensures r.err.Pass? <==> ci.strategy(tr).Ok?
    ensures r.err.Fail? ==> r.value == None && r.err.error == Wrapped(BookingStrategy, ci.strategy(tr).error)
    ensures r.err.Pass? ==> r.value == Some(CabBookingResponse(0, tr.value.userRequest, ci.strategy(tr).value))
  {
    match ci.strategy(tr)
    case Err(e) => Reply(None, Fail(Wrapped(BookingStrategy, e)))
    case Ok(best) => Reply(Some(NewCabBookingResponse(tr.value.userRequest, best)), Pass)
  }

  /** `CabEngineInteractor.sendQueue`: offers one `CabRequestJob` holding the
      given arguments to the cab engine; fails exactly when the engine refuses. */
  method SendQueue(c: CabEngineInteractor, tr: Option<TrafficResponseDTO>, cs: CabInteractor,
                   nI: NotificationInteractor, nsI: Option<NotificationServiceInteractor>) returns (err: Outcome)
    requires c.appEngine.Valid()
    modifies c.appEngine, c.appEngine.buf
    ensures c.appEngine.Valid()
    ensures var room := |old(c.appEngine.Contents)| < c.appEngine.capacity;
      && (err.Pass? <==> room)
      && (err.Fail? ==> err.error == Wrapped(CabJobEnqueue, QueueFull(c.appEngine.kind)))
    ensures c.appEngine.Contents ==
      if err.Pass? then old(c.appEngine.Contents) + [CabRequestJob(tr, cs, nI, nsI)] else old(c.appEngine.Contents)
  {
    var job := NewCabRequestJob(tr, cs, nI, nsI);
    var e := c.appEngine.AddJob(job);
    match e
    case Fail(cause) => err := Fail(Wrapped(CabJobEnqueue, cause));
    case Pass => err := Pass;
  }

  /** The callback `TrafficResponseProcessor` hands to the cron facility, run once:
      it enqueues a `CabRequestJob` from the captured arguments and, when the
      engine refuses it, logs that error once. It reports nothing to its caller. */
  method RunTrafficResponseProcessor(job: CronJob)
    requires job.owner.appEngine.Valid()
    modifies job.owner.appEngine, job.owner.appEngine.buf, job.owner.logger
    ensures job.owner.appEngine.Valid()
    ensures var engine := job.owner.appEngine;
      var queued := NewCabRequestJob(job.trafficResponse, job.cab, job.notification, job.notificationService);
      if |old(engine.Contents)| < engine.capacity then
        && engine.Contents == old(engine.Contents) + [queued]
        && job.owner.logger.errors == old(job.owner.logger.errors)
      else
        && engine.Contents == old(engine.Contents)
        && job.owner.logger.errors == old(job.owner.logger.errors) + [Wrapped(CabJobEnqueue, QueueFull(engine.kind))]
  {
    var err := SendQueue(job.owner, job.trafficResponse, job.cab, job.notification, job.notificationService);
    if err.Fail? {
      job.owner.logger.LogError(err.error);
    }
  }

  /** A callback fired against a one-slot cab engine that is already full leaves
      the queue alone and logs exactly the refusal. */
  method ProcessorOnFullEngine(logger: Logger, first: Job, cs: CabInteractor, nI: NotificationInteractor)
    returns (queued: nat, logged: seq<Error>)
    requires logger.errors == []
    modifies logger
    ensures queued == 1
    ensures logged == [Wrapped(CabJobEnqueue, QueueFull(EngineKind.Cab))]
  {
    var engine := new Engine.Cab(1);
    var _ := engine.AddJob(first);
    var callback := TrafficResponseProcessor(CabEngineInteractor(engine, logger), None, cs, nI, None);
    RunTrafficResponseProcessor(callback);
    queued, logged := engine.count, logger.errors;
  }
}
