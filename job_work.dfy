/** The `DoWork` method of each job kind (app_engine.go). Each is a fixed chain
    of collaborator calls that returns at the first error, wrapping it.

    `UserRequestJob.DoWork` only calls out, so it is a function of the job and of
    the three clock readings it takes; its result lists the calls it made, in
    order, each with the outcome it saw. `CabRequestJob.DoWork` pushes onto the
    notification engine and is a method. */
module JobWork {
  import opened Common
  import opened Domain
  import opened AppEngine
  import opened TrafficUseCase
  import opened CabUseCase
  import opened NotificationUseCase
  import opened UserUseCase

  /** The readings of the wall clock `UserRequestJob.DoWork` takes: before the
      travel-time lookup, before the ETA lookup, and inside `GetTriggerTime`. */
  datatype Readings = Readings(atTravelTime: Time, atEta: Time, atTrigger: Time)

  /** A call made by `UserRequestJob.DoWork`, with the arguments it was given. */
  datatype Step =
    | BaseTravelTimeStep(source: Location, destination: Location, at: Time)
    | BaseEtaStep(source: Location, destination: Location, at: Time, cab: string, cabType: string)
    | FinalTrafficResponseStep(baseTravelTime: Duration)
    | TriggerTimeStep(baseEta: Duration)
    | CronAddStep(at: Time, callback: CronJob)

  datatype Attempt = Attempt(step: Step, outcome: Outcome)

  /** The calls made, in order, and the error `DoWork` returned. */
  datatype Run = Run(attempts: seq<Attempt>, err: Outcome)

  /** Where a step stands in the fixed order of `UserRequestJob.DoWork`. */
  function Position(s: Step): nat
  {
    match s
    case BaseTravelTimeStep(_, _, _) => 0
    case BaseEtaStep(_, _, _, _, _) => 1
    case FinalTrafficResponseStep(_) => 2
    case TriggerTimeStep(_) => 3
    case CronAddStep(_, _) => 4
  }

  /** The wrap site `DoWork` uses for a failure of the given step; the trigger-time
      step cannot fail. */
  function SiteOf(s: Step): Site
    requires !s.TriggerTimeStep?
  {
    match s
    case BaseTravelTimeStep(_, _, _) => UserJobBaseTravelTime
    case BaseEtaStep(_, _, _, _, _) => UserJobBaseEta
    case FinalTrafficResponseStep(_) => UserJobFinalTrafficResponse
    case CronAddStep(_, _) => UserJobCronAdd
  }

  /** `UserRequestJob.DoWork`: base travel time, base ETA, final traffic response,
      trigger time, then registration of the cab-engine callback with the cron
      facility. The steps run in that order, every step but the last one made
      succeeded, and the job fails exactly when a step failed, with that step's
      error wrapped at that step's site. */
  function UserRequestJobDoWork(job: Job, readings: Readings): (r: Run)
    requires job.UserRequestJob?
    ensures 1 <= |r.attempts| <= 5
    ensures forall k :: 0 <= k < |r.attempts| ==> Position(r.attempts[k].step) == k
    ensures forall k :: 0 <= k < |r.attempts| - 1 ==> r.attempts[k].outcome.Pass?
    ensures r.err.Pass? <==> |r.attempts| == 5 && r.attempts[4].outcome.Pass?
    ensures r.err.Fail? ==>
      var last := r.attempts[|r.attempts| - 1];
      && last.outcome.Fail? && !last.step.TriggerTimeStep?
      && r.err.error == Wrapped(SiteOf(last.step), last.outcome.error)
    ensures var req := job.userRequest.request;
      var travel := GetBaseTravelTime(job.traffic, req.source, req.destination, readings.atTravelTime);
      var eta := GetBaseEta(job.cab, req.source, req.destination, readings.atEta, req.cab, req.cabType);
      && r.attempts[0] == Attempt(BaseTravelTimeStep(req.source, req.destination, readings.atTravelTime), travel.err)
      && (|r.attempts| > 1 ==>
            r.attempts[1] == Attempt(BaseEtaStep(req.source, req.destination, readings.atEta, req.cab, req.cabType), eta.err))
      && (|r.attempts| > 2 ==>
            r.attempts[2] == Attempt(FinalTrafficResponseStep(travel.value),
                                     GetTrafficFinalResponse(job.traffic, travel.value, job.userRequest).err))
      && (|r.attempts| > 3 ==> r.attempts[3] == Attempt(TriggerTimeStep(eta.value), Pass))
      && (|r.attempts| > 4 ==>
            r.attempts[4] == Attempt(CronAddStep(readings.atTrigger, ExpectedCallback(job)),
                                     job.cron(readings.atTrigger, ExpectedCallback(job))))
  {
    var req := job.userRequest.request;
    var travel := GetBaseTravelTime(job.traffic, req.source, req.destination, readings.atTravelTime);
    var a1 := Attempt(BaseTravelTimeStep(req.source, req.destination, readings.atTravelTime), travel.err);
    match travel.err
    case Fail(e1) => Run([a1], Fail(Wrapped(UserJobBaseTravelTime, e1)))
    case Pass =>
      var eta := GetBaseEta(job.cab, req.source, req.destination, readings.atEta, req.cab, req.cabType);
      var a2 := Attempt(BaseEtaStep(req.source, req.destination, readings.atEta, req.cab, req.cabType), eta.err);
      match eta.err
      case Fail(e2) => Run([a1, a2], Fail(Wrapped(UserJobBaseEta, e2)))
      case Pass =>
        var final := GetTrafficFinalResponse(job.traffic, travel.value, job.userRequest);
        var a3 := Attempt(FinalTrafficResponseStep(travel.value), final.err);
        match final.err
        case Fail(e3) => Run([a1, a2, a3], Fail(Wrapped(UserJobFinalTrafficResponse, e3)))
        case Pass =>
          var trigger := GetTriggerTime(job.traffic, eta.value, final.value, readings.atTrigger);
          var a4 := Attempt(TriggerTimeStep(eta.value), Pass);
          var callback := TrafficResponseProcessor(job.cabEngine, final.value, job.cab, job.notification, job.notificationService);
          var added := job.cron(trigger, callback);
          var a5 := Attempt(CronAddStep(trigger, callback), added);
          match added
          case Fail(e5) => Run([a1, a2, a3, a4, a5], Fail(Wrapped(UserJobCronAdd, e5)))
          case Pass => Run([a1, a2, a3, a4, a5], Pass)
  }

  /** The callback a user-request job registers: it captures the job's cab-engine,
      cab and notification interactors, no final traffic response (none is
      computed yet), and the job's notification-service interactor, which the
      job constructor leaves unset. */
  function ExpectedCallback(job: Job): CronJob
    requires job.UserRequestJob?
  {
    TrafficResponseProcessor(job.cabEngine, None, job.cab, job.notification, job.notificationService)
  }

  /** The cron facility is reached only when both lookups succeeded; it is then
      asked, at the last clock reading, to run the cab-engine callback. */
  lemma CronOnlyAfterLookups(job: Job, readings: Readings)
    requires job.UserRequestJob?
    ensures var r := UserRequestJobDoWork(job, readings);
      var req := job.userRequest.request;
      (exists k :: 0 <= k < |r.attempts| && r.attempts[k].step.CronAddStep?) ==>
        && job.traffic.trafficService(TrafficRequest(req.source, req.destination, readings.atTravelTime)).Ok?
        && job.cab.cabService(CabRequest(req.source, req.destination, readings.atEta, req.cab, req.cabType)).Ok?
        && r.attempts[|r.attempts| - 1].step == CronAddStep(readings.atTrigger, ExpectedCallback(job))
  {
    var r := UserRequestJobDoWork(job, readings);
    if exists k :: 0 <= k < |r.attempts| && r.attempts[k].step.CronAddStep? {
      var k :| 0 <= k < |r.attempts| && r.attempts[k].step.CronAddStep?;
      assert Position(r.attempts[k].step) == 4;
      ReachesCronIffLookupsSucceed(job, readings);
    }
  }

  /** Once both lookups have succeeded, the run reaches the cron step with the
      expected callback; otherwise it stops before it. */
  lemma ReachesCronIffLookupsSucceed(job: Job, readings: Readings)
    requires job.UserRequestJob?
    ensures var r := UserRequestJobDoWork(job, readings);
      var req := job.userRequest.request;
      var travelOk := job.traffic.trafficService(TrafficRequest(req.source, req.destination, readings.atTravelTime)).Ok?;
      var etaOk := job.cab.cabService(CabRequest(req.source, req.destination, readings.atEta, req.cab, req.cabType)).Ok?;
      && (travelOk && etaOk <==> |r.attempts| == 5)
      && (|r.attempts| == 5 ==>
            r.attempts[4] == Attempt(CronAddStep(readings.atTrigger, ExpectedCallback(job)),
                                     job.cron(readings.atTrigger, ExpectedCallback(job))))
  {
    var req := job.userRequest.request;
    var travel := GetBaseTravelTime(job.traffic, req.source, req.destination, readings.atTravelTime);
    if travel.err.Pass? {
      var eta := GetBaseEta(job.cab, req.source, req.destination, readings.atEta, req.cab, req.cabType);
      if eta.err.Pass? {
        var final := GetTrafficFinalResponse(job.traffic, travel.value, job.userRequest);
        assert final == Reply(None, Pass);
        assert GetTriggerTime(job.traffic, eta.value, final.value, readings.atTrigger) == readings.atTrigger;
      }
    }
  }

  /** A failed travel-time lookup ends the job at once: no ETA lookup, no cron
      registration, and the service's error comes back wrapped twice. */
  lemma TravelTimeFailureStopsJob(job: Job, readings: Readings)
    requires job.UserRequestJob?
    ensures var req := job.userRequest.request;
      var answer := job.traffic.trafficService(TrafficRequest(req.source, req.destination, readings.atTravelTime));
      var r := UserRequestJobDoWork(job, readings);
      answer.Err? ==>
        && |r.attempts| == 1
        && r.err == Fail(Wrapped(UserJobBaseTravelTime, Wrapped(BaseTravelTimeFetch, answer.error)))
  {
  }

  /** After a successful travel-time lookup, a failed ETA lookup ends the job:
      two calls made, no cron registration, the cab service's error wrapped. */
  lemma EtaFailureStopsJob(job: Job, readings: Readings)
    requires job.UserRequestJob?
    ensures var req := job.userRequest.request;
      var travelAnswer := job.traffic.trafficService(TrafficRequest(req.source, req.destination, readings.atTravelTime));
      var etaAnswer := job.cab.cabService(CabRequest(req.source, req.destination, readings.atEta, req.cab, req.cabType));
      var r := UserRequestJobDoWork(job, readings);
      travelAnswer.Ok? && etaAnswer.Err? ==>
        && |r.attempts| == 2
        && r.err == Fail(Wrapped(UserJobBaseEta, Wrapped(BaseEtaFetch, etaAnswer.error)))
  {
  }

  /** The pipeline as written: the callback a submitted user request registers
      captures no traffic response and no notification-service interactor. The
      cab job it queues therefore meets `GetBookingResponse`'s requirement only
      when the booking strategy fails on a nil response, and any notification
      job that cab job queues carries no service interactor to call. */
  lemma PipelineCarriesNilsDownstream(ui: UserInteractor, userRequest: UserRequest, readings: Readings)
    ensures var job := JobFor(ui, userRequest);
      var r := UserRequestJobDoWork(job, readings);
      |r.attempts| == 5 ==>
        var callback := r.attempts[4].step.callback;
        var cabJob := NewCabRequestJob(callback.trafficResponse, callback.cab, callback.notification,
                                       callback.notificationService);
        && callback.trafficResponse == None
        && callback.notificationService == None
        && ((cabJob.trafficResponse.Some? || cabJob.cab.strategy(cabJob.trafficResponse).Err?)
              <==> ui.cab.strategy(None).Err?)
        && (forall resp :: NewNotificationJob(resp, cabJob.notificationService).notificationService.None?)
  {
    var job := JobFor(ui, userRequest);
    ReachesCronIffLookupsSucceed(job, readings);
  }

  /** The pipeline with the intended job constructor: the callback a submitted
      request registers carries the user interactor's notification-service
      interactor, every notification job the resulting cab job can queue carries
      it too, and when it is present that job's `DoWork` reports exactly the
      service's verdict on the booking response. */
  lemma IntendedPipelineCarriesService(ui: UserInteractor, userRequest: UserRequest, readings: Readings,
                                       resp: CabBookingResponse)
    ensures var job := IntendedJobFor(ui, userRequest);
      var r := UserRequestJobDoWork(job, readings);
      |r.attempts| == 5 ==>
        var callback := r.attempts[4].step.callback;
        var cabJob := NewCabRequestJob(callback.trafficResponse, callback.cab, callback.notification,
                                       callback.notificationService);
        var notificationJob := NewNotificationJob(resp, cabJob.notificationService);
        && callback.notificationService == ui.notificationService
        && notificationJob.notificationService == ui.notificationService
        && (ui.notificationService.Some? ==>
              (NotificationJobDoWork(notificationJob).Pass? <==>
                 ui.notificationService.value.notificationService(resp).Pass?))
  {
    var job := IntendedJobFor(ui, userRequest);
    ReachesCronIffLookupsSucceed(job, readings);
  }

  /** The job as a whole succeeds exactly when the traffic service, the cab
      service and the cron facility each accept what they are handed. */
  lemma UserRequestJobSucceedsIff(job: Job, readings: Readings)
    requires job.UserRequestJob?
    ensures var req := job.userRequest.request;
      UserRequestJobDoWork(job, readings).err.Pass? <==>
        && job.traffic.trafficService(TrafficRequest(req.source, req.destination, readings.atTravelTime)).Ok?
        && job.cab.cabService(CabRequest(req.source, req.destination, readings.atEta, req.cab, req.cabType)).Ok?
        && job.cron(readings.atTrigger, ExpectedCallback(job)).Pass?
  {
    ReachesCronIffLookupsSucceed(job, readings);
  }

  /** `CabRequestJob.DoWork`: asks for a booking response; when the strategy
      fails, nothing reaches the notification queue and that error is returned
      wrapped; otherwise the job fails exactly when the notification engine
      refuses the response. */
  method CabRequestJobDoWork(job: Job) returns (err: Outcome)
    requires job.CabRequestJob?
    requires job.trafficResponse.Some? || job.cab.strategy(job.trafficResponse).Err?
    requires job.notification.appEngine.Valid()
    modifies job.notification.appEngine, job.notification.appEngine.buf
    ensures job.notification.appEngine.Valid()
    ensures var booking := GetBookingResponse(job.cab, job.trafficResponse);
      booking.err.Fail? ==>
        && err == Fail(Wrapped(CabJobBookingResponse, booking.err.error))
        && job.notification.appEngine.Contents == old(job.notification.appEngine.Contents)
    ensures var booking := GetBookingResponse(job.cab, job.trafficResponse);
      booking.err.Pass? ==>
        && (err.Pass? <==> |old(job.notification.appEngine.Contents)| < job.notification.appEngine.capacity)
        && (err.Pass? ==>
              job.notification.appEngine.Contents ==
              old(job.notification.appEngine.Contents) + [NotificationJob(booking.value.value, job.notificationService)])
        && (err.Fail? ==> job.notification.appEngine.Contents == old(job.notification.appEngine.Contents))
        && (err.Fail? ==>
              err.error == Wrapped(CabJobSendQueue, Wrapped(NotificationJobEnqueue, QueueFull(job.notification.appEngine.kind))))
    ensures job.cab.strategy(job.trafficResponse).Err? ==>
      job.notification.appEngine.Contents == old(job.notification.appEngine.Contents)
  {
    var booking := GetBookingResponse(job.cab, job.trafficResponse);
    if booking.err.Fail? {
      return Fail(Wrapped(CabJobBookingResponse, booking.err.error));
    }
    var e := NotificationUseCase.SendQueue(job.notification, booking.value.value, job.notificationService);
    if e.Fail? {
      return Fail(Wrapped(CabJobSendQueue, e.error));
    }
    err := Pass;
  }

  /** `NotificationJob.DoWork`: fails exactly when the notification service
      rejects the wrapped response, with that error wrapped. The interactor must
      be present, since the method calls through it. */
  function NotificationJobDoWork(job: Job): (r: Outcome)
    requires job.NotificationJob? && job.notificationService.Some?
    ensures var verdict := job.notificationService.value.notificationService(job.response);
      && (r.Pass? <==> verdict.Pass?)
      && (r.Fail? ==> r.error == Wrapped(NotificationJobSend, verdict.error))
  {
    match Send(job.notificationService.value, job.response)
    case Fail(e) => Fail(Wrapped(NotificationJobSend, e))
    case Pass => Pass
  }
}
