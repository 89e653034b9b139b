/** traffic_request.go: the traffic interactor. Each operation builds a request,
    asks the traffic service, and returns or wraps its answer; two of them are
    still placeholders in the source and are modelled as they stand. */
module TrafficUseCase {
  import opened Common
  import opened Domain
  import opened AppEngine

  /** `GetTrafficFinalResponse`: the polling algorithm is not written yet; the
      method returns a nil response and no error whatever it is given. */
  function GetTrafficFinalResponse(ti: TrafficInteractor, baseTravelTime: Duration, ur: UserRequest): (r: Reply<Option<TrafficResponseDTO>>)
    ensures r.value == None && r.err == Pass
  {
    Reply(None, Pass)
  }

  /** `GetBaseTravelTime`: asks the traffic service about exactly the given
      source, destination and time of day; returns its travel time, or a zero
      duration and the service's error wrapped. */
  function GetBaseTravelTime(ti: TrafficInteractor, source: Location, destination: Location, t: Time): (r: Reply<Duration>)
    ensures var answer := ti.trafficService(TrafficRequest(source, destination, t));
      && (r.err.Pass? <==> answer.Ok?)
      && (answer.Ok? ==> r.value == answer.value.travelTime)
      && (answer.Err? ==> r.value == 0 && r.err == Fail(Wrapped(BaseTravelTimeFetch, answer.error)))
  {
    var treq := NewTrafficRequest(source, destination, t);
    match ti.trafficService(treq)
    case Err(e) => Reply(0, Fail(Wrapped(BaseTravelTimeFetch, e)))
    case Ok(tresp) => Reply(tresp.travelTime, Pass)
  }

  /** `GetTriggerTime`: not yet derived from the worst-case samples; it returns the
      current time, passed here as `now`. */
  function GetTriggerTime(ti: TrafficInteractor, baseEta: Duration, tResp: Option<TrafficResponseDTO>, now: Time): Time
  {
    now
  }

  /** The trigger time depends on the clock reading alone. */
  lemma TriggerTimeIsNow(ti: TrafficInteractor, baseEta: Duration, tResp: Option<TrafficResponseDTO>, now: Time,
                         ti': TrafficInteractor, baseEta': Duration, tResp': Option<TrafficResponseDTO>)
    ensures GetTriggerTime(ti, baseEta, tResp, now) == now
    ensures GetTriggerTime(ti, baseEta, tResp, now) == GetTriggerTime(ti', baseEta', tResp', now)
  {
  }
}
