# ubernow-go pipeline core in Dafny

ubernow tells a user the best moment to book a ride. A request passes through
three stages, and each stage has its own bounded job queue:

1. The **traffic stage** (`UserRequestJob`) looks up the base travel time and
   the base cab ETA. It then registers a callback with a cron facility.
2. When that callback fires, it queues a `CabRequestJob` on the **cab stage**.
   The cab job asks a booking strategy for the best booking time.
3. The cab job queues a `NotificationJob` on the **notification stage**. That
   job hands the booking response to the notification service.

Before any of this, the entry use case validates the ride request and stores
it. It stores the user, then submits the first job.

This project models that core:

- the queue (`AppEngine.Engine`), as a class over a circular array;
- the domain records and validation rules (`Domain`, `Decimal`);
- the four use-case interactors (`TrafficUseCase`, `CabUseCase`,
  `NotificationUseCase`, `UserUseCase`);
- the `DoWork` of each job kind (`JobWork`).

Modules follow the Go source files, not the Go packages: the single `usecases`
package becomes six modules, two of them (`AppEngine` and `JobWork`) from
app_engine.go. The `domain` package is the exception, one module
for three files, because user.go and cab_service.go use each other's
declarations. The job and interactor types refer to each other, so they all sit
in `AppEngine`. The `DoWork` bodies call the interactors, so they sit in a
module of their own, `JobWork`.

Modelling choices:

- **Queue.** An engine's buffered channel is an array ring buffer, like Go's own
  channel buffer. Its ghost `Contents` is the queued jobs, oldest first. `AddJob`
  is `select … default`: it appends when there is room. Otherwise it reports
  `QueueFull` and leaves the engine untouched.
- **Collaborators.** Services, repositories, the booking strategy, the address
  validator and the cron facility are total functions. Each maps the request it
  receives to the answer it gives. Calls to the clock (`time.Now()`) and to the
  environment (`os.LookupEnv`) become parameters.
- **Time.** An instant is nanoseconds since the Unix epoch (UTC). A duration is
  nanoseconds. `Sub` saturates, as `time.Time.Sub` does.
  `time.Duration(threshold) * time.Minute` wraps at 64 bits.
- **Errors.** Errors are tagged variants. `errors.Wrap` becomes `Wrapped(site,
  cause)`, which keeps the cause and the call site. Message text is not modelled.
- **Call traces.** `UserRequestJob.DoWork` returns the calls it made, in order,
  each with the outcome it saw. The user use case returns the repository writes
  it attempted.

Where the code and its own TODO comments differ, the model follows the code:

- The trigger time is the current clock reading. The TODO at
  pkg/usecases/traffic_request.go:59-62 plans a time derived from the
  worst-case traffic samples and the base ETA.
- The final traffic response is `nil` and no error. The TODO at
  pkg/usecases/traffic_request.go:25-39 plans a polled, aggregated result.

Two more behaviours of the code are kept as they are:

- The booking step reads `tr.UserRequest` with no nil check
  (pkg/usecases/cab_request.go:72), so the model requires a traffic response
  whenever the strategy succeeds.
- A queue-full error is wrapped again with `errors.Wrap` at every level it
  passes (for example pkg/usecases/user_request.go:122 and then :65).

The source does not compile as written in three places. The model takes the
evident intent:

- `sendQueue` calls `NewUserRequestJob` with one argument
  (pkg/usecases/user_request.go:117). The stray text that ends the file
  (pkg/usecases/user_request.go:146) is the rest of that call's argument list:
  the traffic, cab, cab-engine and notification interactors and the cron
  engine, in that order. The model builds the job from those, as fields of the
  user interactor. The fields themselves are commented out at
  pkg/usecases/user_request.go:27-32.
- The base travel time is declared as a `time.Time` but computed as a duration
  (pkg/usecases/app_engine.go:33). `GetBaseTravelTime` assigns the `time.Time`
  field `TrafficResponse.TravelTime` to a `time.Duration`
  (pkg/usecases/traffic_request.go:53). The model treats both as durations.

## Model

| member | source | states |
|---|---|---|
| AppEngine.Engine.Traffic | pkg/usecases/app_engine.go:92-98 | A new traffic engine has an empty queue and the given capacity, and satisfies the queue invariant. |
| AppEngine.Engine.Cab | pkg/usecases/app_engine.go:154-160 | A new cab engine has an empty queue and the given capacity. |
| AppEngine.Engine.Notification | pkg/usecases/app_engine.go:201-207 | A new notification engine has an empty queue and the given capacity. |
| AppEngine.Engine.AddJob | pkg/usecases/app_engine.go:82-90 | With room, the job joins the back of the queue and the call succeeds. On a full queue it reports QueueFull and nothing changes. The queue never grows past its capacity. No worker is ever waiting to receive; see Left out. |
| AppEngine.Engine.Receive | pkg/usecases/jobqueue_engine.go:20 | A receive takes the oldest job off the queue. An empty queue yields nothing. |
| AppEngine.OneSlotAdmission | pkg/usecases/app_engine.go:82-98 | On a one-slot queue that nobody drains, the first submission is accepted and the second is refused. |
| AppEngine.ZeroCapacityRefusesAll | pkg/usecases/app_engine.go:192-207 | A zero-capacity engine with no worker waiting to receive refuses the job. |
| AppEngine.FirstInFirstOut | pkg/usecases/app_engine.go:145-160 | Jobs leave in submission order, also after the circular buffer wraps. |
| AppEngine.NewUserRequestJob | pkg/usecases/app_engine.go:63-73 | The job holds exactly the given request and collaborators. The notification-service interactor stays unset. |
| AppEngine.NewCabRequestJob | pkg/usecases/app_engine.go:128-136 | The job holds exactly its four arguments. |
| AppEngine.NewNotificationJob | pkg/usecases/app_engine.go:177-183 | The job holds exactly the booking response and the service interactor. |
| Domain.Logger.LogError | pkg/domain/user.go:136-141 | Logging an error appends it to the log and keeps what was there. |
| Domain.ThresholdFromEnvironment | pkg/domain/user.go:148-159 | The threshold is the variable's value whenever that parses as a 64-bit integer. It is 5 when the variable is unset, empty or not a number. |
| Decimal.AtoiOfItoa | pkg/domain/user.go:155 | Parsing the decimal text of any 64-bit integer gives that integer back. |
| Domain.ValidateLocationIgnoresName | pkg/domain/user.go:236-241 | A location is valid iff both its latitude and its longitude are non-empty. Its name plays no part. |
| Domain.ValidateReachingTime | pkg/domain/user.go:245-250 | The only error it reports is "reaching time too soon". |
| Domain.ReachingTimeRule | pkg/domain/user.go:245-250 | For thresholds of at most 153 722 867 minutes either way (so the threshold in nanoseconds fits 64 bits), a reaching time is rejected iff it is less than the threshold ahead of now. Exactly the threshold ahead is accepted. With a positive threshold, a past time is rejected. |
| Domain.ReachingTimeThresholdWraps | pkg/domain/user.go:246 | A threshold one minute past the 64-bit limit (153 722 868 minutes) wraps to a negative duration, and a time in the past is then accepted. |
| Domain.NewRequest | pkg/domain/user.go:164-198 | Succeeds iff all five checks pass. On error the request is nil. On success every field equals its input and the id is 0. |
| Domain.NewRequestReportsFirstFailure | pkg/domain/user.go:164-186 | The error returned is that of the first failing check, in the order source, destination, reaching time, cab, address. |
| Domain.NewUser | pkg/domain/user.go:202-207 | The user has exactly the given name, which may be empty, and id 0. |
| Domain.NewUserRequest | pkg/domain/user.go:211-218 | The pair holds exactly the given user and request. |
| Domain.ClockOf | pkg/domain/user.go:223-230 | The hour, minute and second lie in their ranges and add up to the instant's second of the day in UTC, which determines them. |
| Domain.ToString | pkg/domain/user.go:221-233 | The text is empty iff hour, minute and second are all zero. |
| Domain.ToStringRoundTrip | pkg/domain/user.go:221-233 | Reading the text back as an hour piece, a minute piece and a second piece, in that order, gives the clock reading again. |
| Domain.ToStringOmitsZeroParts | pkg/domain/user.go:221-233 | Each unit letter appears iff its component is non-zero, so every zero part is left out. No number is written with a leading zero. |
| Domain.ToStringExamples | pkg/domain/user.go:221-233 | The five cases of the domain's unit tests format as "5h6m7s", "8h", "7m6s", "4s" and "8h9m". |
| Domain.ToStringInjective | pkg/domain/user.go:221-233 | Instants with different clock readings format differently. |
| Domain.ValidateCab | pkg/domain/cab_service.go:63-75 | The nested search returns true iff some table entry names the cab and lists the cab type. |
| Domain.AllowedCabsAreUber | pkg/domain/cab_service.go:10-23 | With the current table, exactly "uber" with uberGo, uberBlack, uberShare or uberX is allowed. A known type under another name is refused, and so is an unknown type under "uber". |
| Domain.NewCabRequest | pkg/domain/cab_service.go:79-89 | The record's five fields equal the arguments. |
| Domain.NewCabBookingResponse | pkg/domain/cab_service.go:94-102 | The response keeps the user request and the booking time. Its booking id is 0. |
| Domain.NewTrafficRequest | pkg/domain/traffic_service.go:34-42 | The record's three fields equal the arguments. |
| TrafficUseCase.GetTrafficFinalResponse | pkg/usecases/traffic_request.go:23-42 | Returns a nil response and no error, whatever its inputs. |
| TrafficUseCase.GetBaseTravelTime | pkg/usecases/traffic_request.go:44-56 | Asks the traffic service about exactly the given trip and time. Returns its travel time on success. On a service error it returns a zero duration and that error, wrapped. |
| TrafficUseCase.TriggerTimeIsNow | pkg/usecases/traffic_request.go:58-64 | The trigger time is the clock reading. It depends on nothing else. |
| CabUseCase.GetBaseEta | pkg/usecases/cab_request.go:48-60 | Asks the cab service about exactly the given trip, time, cab and type. Returns its ETA unchanged on success. On a service error it returns zero and that error, wrapped. |
| CabUseCase.GetBookingResponse | pkg/usecases/cab_request.go:62-74 | Fails iff the strategy fails, and then the response is nil. On success the response carries the traffic result's user request and the strategy's time. |
| CabUseCase.SendQueue | pkg/usecases/cab_request.go:85-96 | Offers one CabRequestJob holding its arguments. It fails iff the cab engine refuses, and a refusal leaves the queue unchanged. |
| CabUseCase.RunTrafficResponseProcessor | pkg/usecases/cab_request.go:76-83 | The callback queues the cab job when there is room and then logs nothing. Otherwise it logs exactly the refusal, once. It returns no error. |
| CabUseCase.ProcessorOnFullEngine | pkg/usecases/cab_request.go:76-83 | Fired against a full engine, the callback leaves the queue as it was and logs one queue-full error. |
| NotificationUseCase.SendQueue | pkg/usecases/notification_engine.go:19-30 | Offers exactly one NotificationJob wrapping the response and the service interactor. It fails iff the engine refuses, and a refusal leaves the queue unchanged. |
| NotificationUseCase.Send | pkg/usecases/notification_engine.go:32-34 | Returns the notification service's result unchanged. |
| UserUseCase.CreateAndSaveRequest | pkg/usecases/user_request.go:73-93 | A failed validator lookup or a rejected request gives a nil request and no store. Otherwise the request is stored once and returned, even when the store fails. Only a fully validated request reaches the repository. |
| UserUseCase.CreateAndSaveUser | pkg/usecases/user_request.go:97-109 | The user is always NewUser(name), and exactly one store is attempted. The call fails iff the store fails. |
| UserUseCase.JobFor | pkg/usecases/user_request.go:115-117 | The job carries the user request and no notification-service interactor. |
| UserUseCase.SendQueue | pkg/usecases/user_request.go:115-126 | Offers one UserRequestJob. It fails iff the traffic engine refuses, and a refusal leaves the queue unchanged. |
| UserUseCase.CreateUserRequest | pkg/usecases/user_request.go:42-69 | A failed request step stores no user and queues nothing. A failed user step queues nothing. The use case succeeds iff every step does, and then exactly one job is queued. |
| JobWork.UserRequestJobDoWork | pkg/usecases/app_engine.go:31-61 | Steps run in the fixed order. Each step records exactly the arguments passed and the outcome the collaborator returned. Every step before the last one made succeeded. The job fails iff a step failed, with that step's error wrapped at its site. |
| JobWork.TravelTimeFailureStopsJob | pkg/usecases/app_engine.go:34-37 | A failed travel-time lookup ends the job after one call, returning the traffic service's error wrapped. |
| JobWork.EtaFailureStopsJob | pkg/usecases/app_engine.go:39-43 | After a good travel-time lookup, a failed ETA lookup ends the job after two calls, returning the cab service's error wrapped. |
| JobWork.ReachesCronIffLookupsSucceed | pkg/usecases/app_engine.go:34-56 | All five steps are reached iff both lookups succeed. The last step then registers the cab-engine callback at the trigger time. |
| JobWork.CronOnlyAfterLookups | pkg/usecases/app_engine.go:34-56 | The cron facility is called only after the traffic and cab lookups both succeeded. |
| JobWork.UserRequestJobSucceedsIff | pkg/usecases/app_engine.go:31-61 | The job succeeds iff the traffic service, the cab service and the cron facility each accept their call. |
| JobWork.CabRequestJobDoWork | pkg/usecases/app_engine.go:108-126 | If the strategy fails, nothing reaches the notification queue and the error is returned. Otherwise the job fails iff the notification engine refuses the response. |
| JobWork.PipelineCarriesNilsDownstream | pkg/usecases/app_engine.go:56 | The callback a submitted request registers captures no traffic response and no notification-service interactor. The cab job it queues can be booked without a nil dereference only when the strategy fails, and its notification jobs carry no service interactor. |
| UserUseCase.IntendedJobFor | pkg/usecases/app_engine.go:63-73 | The corrected job carries the user interactor's notification-service interactor; every other field is the one `JobFor` sets. |
| JobWork.IntendedPipelineCarriesService | pkg/usecases/app_engine.go:56 | With the corrected job, the registered callback and every notification job downstream carry the user interactor's notification-service interactor, and such a job's DoWork then reports that service's verdict. |
| JobWork.NotificationJobDoWork | pkg/usecases/app_engine.go:168-175 | Fails iff the notification service rejects the response, with that error wrapped. |

## Left out

- Worker and Dispatcher (pkg/usecases/jobqueue_engine.go): goroutines, the done channel and shutdown are concurrency. Only a single non-blocking receive is modelled (`Engine.Receive`).
- Cron firing at a wall-clock time: the cron facility is a function from (time, callback) to an outcome. A callback is run by calling `CabUseCase.RunTrafficResponseProcessor` directly.
- `HeuristicBestTimeStrategy.FindBest` and the empty helpers at the end of pkg/usecases/cab_request.go: they are placeholders with no algorithm, so the strategy is a parameter.
- Email and address validation (`NewUserAddressValidator`, `EmailAddressValidator`): their source is not part of this model. The validator factory and the validators are parameters.
- Repository lookups (`FindByID`), `LogInfo`, the service interfaces and the test mocks: nothing in the core calls them, or they only declare types.
- Error message text: errors are tagged variants. The `fmt.Sprintf` text is not modelled.
- Local time zones: the clock reading in `ClockOf` is taken in UTC.
- Repository and service state: each collaborator gives the same answer to the same request.
- AppEngine.Engine.Traffic: requires a non-negative capacity, because Go's `make` panics on a negative one. The same holds for `AppEngine.Engine.Cab` and `AppEngine.Engine.Notification`.
- AppEngine.Engine.AddJob: with capacity 0, Go's `select … default` hands a job straight to a worker that is waiting to receive, so a zero-capacity engine with idle workers does accept jobs. The model has no waiting receivers and refuses every job at capacity 0.
- AppEngine.Engine.Receive: never waits. A worker's receive blocks on an empty queue instead.
- CabUseCase.GetBookingResponse: requires a traffic response whenever the strategy succeeds, because the source dereferences a nil one. The callback registered by `UserRequestJob.DoWork` always captures a nil response, because `GetTrafficFinalResponse` is a stub.
- JobWork.CabRequestJobDoWork: inherits that requirement from `GetBookingResponse`.
- JobWork.NotificationJobDoWork: requires the notification-service interactor, because the source calls through it. The job constructor chain never sets it, so as written this call would dereference nil.
- UserUseCase.CreateAndSaveRequest: the id returned by `Store` is discarded, as in the source. The stored request keeps id 0.

## Findings

| source | as written | input that shows it | evidently intended | confidence | as-written member | corrected member |
|---|---|---|---|---|---|---|
| pkg/usecases/cab_request.go:72 | `GetBookingResponse` reads `tr.UserRequest`. The only traffic response the pipeline ever passes is the nil that the stub at pkg/usecases/traffic_request.go:40 returns. | Any request whose two lookups and cron registration succeed, with a strategy that accepts a nil response (the shipped `HeuristicBestTimeStrategy` always succeeds): the cab job dereferences nil. | The booking step receives a computed traffic response. | not executed | JobWork.PipelineCarriesNilsDownstream | CabUseCase.GetBookingResponse |
| pkg/usecases/notification_engine.go:33 | `NotificationJob.DoWork` calls through its service interactor, which `NewUserRequestJob` never sets (pkg/usecases/app_engine.go:63-73). The interactor is passed along as nil to every cab and notification job. | Any request that reaches the notification stage: `Send` is called on a nil interactor. As written no request gets there, because only a cab job whose strategy succeeded queues a notification job, and that job dereferences nil first (the row above); this defect shows once that one is fixed. | The user-request job carries the notification-service interactor the user interactor was built with. | not executed | JobWork.PipelineCarriesNilsDownstream | JobWork.IntendedPipelineCarriesService |
