/** Shared vocabulary of the pipeline model: optional values, Go-style error
    returns, the error taxonomy, and the 64-bit integer and time units that Go's
    `int`, `time.Duration` and `time.Time` are built on. */
module Common {

  /** A Go pointer that may be nil. */
  datatype Option<+T> = None | Some(value: T)

  /** A Go `error` result: nil (`Pass`) or a non-nil error. */
  datatype Outcome = Pass | Fail(error: Error)

  /** A collaborator call whose value only matters when it succeeds. */
  datatype Result<+T> = Ok(value: T) | Err(error: Error)

  /** A Go `(T, error)` pair: the value is returned even beside an error. */
  datatype Reply<+T> = Reply(value: T, err: Outcome)

  /** The three pipeline stages, each with its own bounded engine. */
  datatype EngineKind = Traffic | Cab | Notification

  /** The call sites that wrap an inner error with `errors.Wrap`. */
  datatype Site =
    | NewRequestReachingTime      // NewRequest: time validator error
    | NewRequestAddress           // NewRequest: notification address rejected
    | RequestValidatorLookup      // createAndSaveRequest: no validator for the address type
    | RequestConstruction         // createAndSaveRequest: NewRequest failed
    | RequestStore                // createAndSaveRequest: RequestRepository.Store failed
    | UserStore                   // createAndSaveUser: UserRepository.Store failed
    | CreateRequestStep           // CreateUserRequest, step 1
    | CreateUserStep              // CreateUserRequest, step 2
    | UserRequestEnqueue          // CreateUserRequest, step 4
    | UserJobEnqueue              // UserInteractor.sendQueue
    | BaseEtaFetch                // GetBaseEta
    | BookingStrategy             // GetBookingResponse
    | CabJobEnqueue               // CabEngineInteractor.sendQueue
    | NotificationJobEnqueue      // NotificationInteractor.SendQueue
    | BaseTravelTimeFetch         // GetBaseTravelTime
    | UserJobBaseTravelTime       // UserRequestJob.DoWork, step 1
    | UserJobBaseEta              // UserRequestJob.DoWork, step 2
    | UserJobFinalTrafficResponse // UserRequestJob.DoWork, step 3
    | UserJobCronAdd              // UserRequestJob.DoWork, step 5
    | CabJobBookingResponse       // CabRequestJob.DoWork, step 1
    | CabJobSendQueue             // CabRequestJob.DoWork, step 2
    | NotificationJobSend         // NotificationJob.DoWork

  /** Errors as tagged variants; `Wrapped` keeps the cause, as `errors.Wrap` does. */
  datatype Error =
    | InvalidSourceLocation
    | InvalidDestinationLocation
    | ReachingTimeTooSoon
    | CabUnavailable
    | QueueFull(engine: EngineKind)
    | Collaborator(code: int)        // a failure reported by an external collaborator
    | Wrapped(site: Site, cause: Error)

  /** The first failing outcome of an ordered list of checks, or `Pass`. */
  function FirstFailure(checks: seq<Outcome>): Outcome
  {
    if checks == [] then Pass
    else if checks[0].Fail? then checks[0]
    else FirstFailure(checks[1..])
  }

  /** `FirstFailure` fails exactly with the earliest failing check, and passes
      exactly when every check passes. */
  lemma {:induction false} FirstFailureIsEarliest(checks: seq<Outcome>)
    ensures FirstFailure(checks).Pass? <==> forall k :: 0 <= k < |checks| ==> checks[k].Pass?
    ensures FirstFailure(checks).Fail? ==>
      exists k :: 0 <= k < |checks| && checks[k] == FirstFailure(checks) &&
                  forall i :: 0 <= i < k ==> checks[i].Pass?
  {
    if checks != [] && checks[0].Pass? {
      FirstFailureIsEarliest(checks[1..]);
      var f := FirstFailure(checks);
      if f.Fail? {
        var k :| 0 <= k < |checks[1..]| && checks[1..][k] == f &&
                 forall i :: 0 <= i < k ==> checks[1..][i].Pass?;
        assert checks[k + 1] == f;
        assert forall i :: 0 <= i < k + 1 ==> checks[i].Pass? by {
          forall i | 0 <= i < k + 1 ensures checks[i].Pass? {
            if i > 0 { assert checks[i] == checks[1..][i - 1]; }
          }
        }
      }
      forall k | 0 < k < |checks| ensures checks[k] == checks[1..][k - 1] { }
    }
  }

  // Go's 64-bit `int` and `time.Duration`.
  const MinInt64: int := -0x8000_0000_0000_0000
  const MaxInt64: int := 0x7fff_ffff_ffff_ffff
  const TwoTo64: int := 0x1_0000_0000_0000_0000

  /** Two's-complement wrap-around of a 64-bit multiplication or addition. */
  function Wrap64(x: int): (r: int)
    ensures MinInt64 <= r <= MaxInt64
    ensures (r - x) % TwoTo64 == 0
    ensures MinInt64 <= x <= MaxInt64 ==> r == x
  {
    (x - MinInt64) % TwoTo64 + MinInt64
  }

  /** Saturation to the 64-bit range, as `time.Time.Sub` does. */
  function Clamp64(x: int): (r: int)
    ensures MinInt64 <= r <= MaxInt64
    ensures MinInt64 <= x <= MaxInt64 ==> r == x
    ensures x > MaxInt64 ==> r == MaxInt64
    ensures x < MinInt64 ==> r == MinInt64
  {
    if x > MaxInt64 then MaxInt64 else if x < MinInt64 then MinInt64 else x
  }

  /** A `time.Time` instant, in nanoseconds since the Unix epoch (UTC). */
  type Time = int
  /** A `time.Duration`, in nanoseconds. */
  type Duration = int

  const Second: int := 1_000_000_000
  const Minute: int := 60 * Second
}
