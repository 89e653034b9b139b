/** user_request.go: the entry use case. `CreateUserRequest` builds and stores a
    request, then a user, then hands the pair to the traffic engine as a
    `UserRequestJob`, stopping at the first step that fails.

    The repositories are modelled by the answer each gives to a `Store`, and the
    stores actually attempted are returned as a trace. The interactor carries the
    collaborators that the job needs (traffic, cab, cab-engine and notification
    interactors and the cron facility), as its constructor's parameter list and
    the job constructor's signature intend. */
module UserUseCase {
  import opened Common
  import opened Domain
  import opened AppEngine

  /** The input of the use case. */
  datatype UserRequestDTO = UserRequestDTO(
    name: string,
    source: Location,
    destination: Location,
    reachingTime: Time,
    cab: string,
    cabType: string,
    notificationAddr: UserAddress)

  /** `UserRepository.Store` and `RequestRepository.Store`: the id given to the
      stored entity, or an error. */
  type UserRepository = User -> Result<nat>
  type RequestRepository = Request -> Result<nat>

  /** `NewUserAddressValidator`: a validator for an address type, or an error for
      a type it does not know. */
  type AddressValidatorFactory = string -> Result<UserAddressValidator>

  datatype UserInteractor = UserInteractor(
    userRepository: UserRepository,
    requestRepository: RequestRepository,
    appEngine: Engine,
    cron: CronEngine,
    traffic: TrafficInteractor,
    cab: CabInteractor,
    cabEngine: CabEngineInteractor,
    notification: NotificationInteractor,
    notificationService: Option<NotificationServiceInteractor>)

  /** A write attempted on a repository. */
  datatype StoreCall = StoreRequest(request: Request) | StoreUser(user: User)

  /** A Go `(T, error)` result together with the repository writes attempted. */
  datatype Saved<+T> = Saved(value: T, err: Outcome, stores: seq<StoreCall>)

  /** `createAndSaveRequest`. A failed validator lookup or a rejected request
      yields no request and no write; otherwise the request is stored once and
      returned, also when the store fails. Only a request that passed every
      validation reaches the repository. */
  function CreateAndSaveRequest(ui: UserInteractor, dto: UserRequestDTO, newValidator: AddressValidatorFactory,
                                now: Time, thresholdMinutes: int): (r: Saved<Option<Request>>)
    ensures var lookup := newValidator(dto.notificationAddr.addrType);
      lookup.Err? ==> r == Saved(None, Fail(Wrapped(RequestValidatorLookup, lookup.error)), [])
    ensures var lookup := newValidator(dto.notificationAddr.addrType);
      lookup.Ok? ==>
        var built := NewRequest(dto.source, dto.destination, dto.reachingTime, dto.cab, dto.cabType,
                                dto.notificationAddr, lookup.value, now, thresholdMinutes);
        && (built.err.Fail? ==> r == Saved(None, Fail(Wrapped(RequestConstruction, built.err.error)), []))
        && (built.err.Pass? ==>
              var stored := ui.requestRepository(built.value.value);
              && r.value == built.value
              && r.stores == [StoreRequest(built.value.value)]
              && (r.err.Pass? <==> stored.Ok?)
              && (stored.Err? ==> r.err == Fail(Wrapped(RequestStore, stored.error))))
    ensures r.err.Pass? ==> r.value.Some?
    ensures forall k :: 0 <= k < |r.stores| ==>
      && r.stores[k] == StoreRequest(r.value.value)
      && ValidateLocation(r.value.value.source) && ValidateLocation(r.value.value.destination)
      && ValidateReachingTime(r.value.value.reachingTime, now, thresholdMinutes).Pass?
      && CabAllowed(r.value.value.cab, r.value.value.cabType)
  {
    match newValidator(dto.notificationAddr.addrType)
    case Err(e) => Saved(None, Fail(Wrapped(RequestValidatorLookup, e)), [])
    case Ok(uav) =>
      var built := NewRequest(dto.source, dto.destination, dto.reachingTime, dto.cab, dto.cabType,
                              dto.notificationAddr, uav, now, thresholdMinutes);
      match built.err
      case Fail(e) => Saved(built.value, Fail(Wrapped(RequestConstruction, e)), [])
      case Pass =>
        var req := built.value.value;
        match ui.requestRepository(req)
        case Err(e) => Saved(built.value, Fail(Wrapped(RequestStore, e)), [StoreRequest(req)])
        case Ok(_) => Saved(built.value, Pass, [StoreRequest(req)])
  }

  /** `createAndSaveUser`: the user is `NewUser(name)` whether or not the store
      succeeds; exactly one write is attempted, and the call fails exactly when it
      does. */
  function CreateAndSaveUser(ui: UserInteractor, name: string): (r: Saved<User>)
    ensures r.value == NewUser(name) && r.value.name == name
    ensures r.stores == [StoreUser(r.value)]
    ensures r.err.Pass? <==> ui.userRepository(r.value).Ok?
    ensures r.err.Fail? ==> r.err.error == Wrapped(UserStore, ui.userRepository(r.value).error)
  {
    var u := NewUser(name);
    match ui.userRepository(u)
    case Err(e) => Saved(u, Fail(Wrapped(UserStore, e)), [StoreUser(u)])
    case Ok(_) => Saved(u, Pass, [StoreUser(u)])
  }

  /** The job `sendQueue` offers for a user request. */
  function JobFor(ui: UserInteractor, userRequest: UserRequest): (job: Job)
    ensures job.UserRequestJob? && job.userRequest == userRequest && job.notificationService == None
  {
    NewUserRequestJob(userRequest, ui.traffic, ui.cab, ui.cabEngine, ui.notification, ui.cron)
  }

  /** The job `sendQueue` evidently means to offer: the one `JobFor` builds, but
      carrying the notification-service interactor the user interactor holds, so
      that the notification stage has a service to call. */
  function IntendedJobFor(ui: UserInteractor, userRequest: UserRequest): (job: Job)
    ensures job.UserRequestJob? && job.userRequest == userRequest
    ensures job.notificationService == ui.notificationService
    ensures var asWritten := JobFor(ui, userRequest);
      && job.traffic == asWritten.traffic && job.cab == asWritten.cab && job.cabEngine == asWritten.cabEngine
      && job.notification == asWritten.notification && job.cron == asWritten.cron
  {
    UserRequestJob(userRequest, ui.traffic, ui.cab, ui.cabEngine, ui.notification, ui.notificationService, ui.cron)
  }

  /** `sendQueue`: offers one `UserRequestJob` to the traffic engine; fails exactly
      when the engine refuses, and a refusal leaves the queue as it was. */
  method SendQueue(ui: UserInteractor, userRequest: UserRequest) returns (err: Outcome)
    requires ui.appEngine.Valid()
    modifies ui.appEngine, ui.appEngine.buf
    ensures ui.appEngine.Valid()
    ensures var room := |old(ui.appEngine.Contents)| < ui.appEngine.capacity;
      && (err.Pass? <==> room)
      && (err.Fail? ==> err.error == Wrapped(UserJobEnqueue, QueueFull(ui.appEngine.kind)))
    ensures ui.appEngine.Contents ==
      if err.Pass? then old(ui.appEngine.Contents) + [JobFor(ui, userRequest)] else old(ui.appEngine.Contents)
  {
    var job := JobFor(ui, userRequest);
    var e := ui.appEngine.AddJob(job);
    match e
    case Fail(cause) => err := Fail(Wrapped(UserJobEnqueue, cause));
    case Pass => err := Pass;
  }

  /** `CreateUserRequest`. A failed request step writes no user and queues
      nothing; a failed user step queues nothing; otherwise the user request is
      offered to the engine once, and the use case succeeds exactly when every
      step does. */
  method CreateUserRequest(ui: UserInteractor, dto: UserRequestDTO, newValidator: AddressValidatorFactory,
                           now: Time, thresholdMinutes: int) returns (err: Outcome, stores: seq<StoreCall>)
    requires ui.appEngine.Valid()
    modifies ui.appEngine, ui.appEngine.buf
    ensures ui.appEngine.Valid()
    ensures var req := CreateAndSaveRequest(ui, dto, newValidator, now, thresholdMinutes);
      req.err.Fail? ==>
        && err == Fail(Wrapped(CreateRequestStep, req.err.error))
        && stores == req.stores
        && (forall k :: 0 <= k < |stores| ==> stores[k].StoreRequest?)
        && ui.appEngine.Contents == old(ui.appEngine.Contents)
    ensures var req := CreateAndSaveRequest(ui, dto, newValidator, now, thresholdMinutes);
      var usr := CreateAndSaveUser(ui, dto.name);
      req.err.Pass? && usr.err.Fail? ==>
        && err == Fail(Wrapped(CreateUserStep, usr.err.error))
        && stores == req.stores + usr.stores
        && ui.appEngine.Contents == old(ui.appEngine.Contents)
    ensures var req := CreateAndSaveRequest(ui, dto, newValidator, now, thresholdMinutes);
      var usr := CreateAndSaveUser(ui, dto.name);
      req.err.Pass? && usr.err.Pass? ==>
        var job := JobFor(ui, NewUserRequest(usr.value, req.value.value));
        && stores == req.stores + usr.stores
        && (err.Pass? <==> |old(ui.appEngine.Contents)| < ui.appEngine.capacity)
        && (err.Pass? ==> ui.appEngine.Contents == old(ui.appEngine.Contents) + [job])
        && (err.Fail? ==> ui.appEngine.Contents == old(ui.appEngine.Contents))
        && (err.Fail? ==> err.error == Wrapped(UserRequestEnqueue, Wrapped(UserJobEnqueue, QueueFull(ui.appEngine.kind))))
    ensures err.Pass? <==>
      && CreateAndSaveRequest(ui, dto, newValidator, now, thresholdMinutes).err.Pass?
      && CreateAndSaveUser(ui, dto.name).err.Pass?
      && |old(ui.appEngine.Contents)| < ui.appEngine.capacity
  {
    var req := CreateAndSaveRequest(ui, dto, newValidator, now, thresholdMinutes);
    stores := req.stores;
    if req.err.Fail? {
      return Fail(Wrapped(CreateRequestStep, req.err.error)), stores;
    }

    var usr := CreateAndSaveUser(ui, dto.name);
    stores := stores + usr.stores;
    if usr.err.Fail? {
      return Fail(Wrapped(CreateUserStep, usr.err.error)), stores;
    }

    var userRequest := NewUserRequest(usr.value, req.value.value);
    var e := SendQueue(ui, userRequest);
    if e.Fail? {
      return Fail(Wrapped(UserRequestEnqueue, e.error)), stores;
    }
    err := Pass;
  }
}
