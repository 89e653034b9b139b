/** The domain package: users, requests and their validation rules (user.go),
    the allowed cabs and the cab-service records (cab_service.go), and the
    traffic-service records (traffic_service.go). */
module Domain {
  import opened Common
  import opened Decimal

  // ---------------------------------------------------------------- user.go

  /** Threshold used when REACHING_TIME_THRESHOLD is unset or unparseable. */
  const DefaultTimeThresholdInMinute: int := 5

  datatype User = User(userId: nat, name: string)

  datatype Location = Location(name: string, latitude: string, longitude: string)

  datatype UserAddress = UserAddress(addrType: string, value: string)

  datatype Request = Request(
    reqId: nat,
    source: Location,
    destination: Location,
    reachingTime: Time,
    cab: string,
    cabType: string,
    notificationAddr: UserAddress)

  datatype UserRequest = UserRequest(user: User, request: Request)

  /** A notification-address validator (email, sms, ...): an external collaborator. */
  type UserAddressValidator = UserAddress -> Outcome

  /** The logging collaborator; it records every error it is handed. */
  class Logger {
    var errors: seq<Error>

    constructor ()
      ensures errors == []
    {
      errors := [];
    }

    method LogError(e: Error)
      modifies this
      ensures errors == old(errors) + [e]
    {
      errors := errors + [e];
    }
  }

  /** The threshold `init` stores, given what the environment holds for
      REACHING_TIME_THRESHOLD (`None` when the variable is unset). */
  function ReachingTimeThreshold(env: Option<string>): int
  {
    match env
    case None => DefaultTimeThresholdInMinute
    case Some(s) =>
      match Atoi(s)
      case Some(n) => n
      case None => DefaultTimeThresholdInMinute
  }

  /** Any 64-bit value written into the variable is the threshold used; an unset
      variable, an empty one or one that is not a number falls back to 5. */
  lemma ThresholdFromEnvironment(n: int, junk: string)
    requires MinInt64 <= n <= MaxInt64
    requires Atoi(junk).None?
    ensures ReachingTimeThreshold(Some(Itoa(n))) == n
    ensures ReachingTimeThreshold(Some(junk)) == DefaultTimeThresholdInMinute
    ensures ReachingTimeThreshold(None) == DefaultTimeThresholdInMinute
    ensures ReachingTimeThreshold(Some("")) == DefaultTimeThresholdInMinute
  {
    AtoiOfItoa(n);
  }

  /** A location is usable when it has both coordinates; its name is free. */
  predicate ValidateLocation(l: Location)
  {
    !(l.latitude == "" || l.longitude == "")
  }

  lemma ValidateLocationIgnoresName(l: Location, name: string)
    ensures ValidateLocation(l.(name := name)) == ValidateLocation(l)
    ensures ValidateLocation(l) <==> l.latitude != "" && l.longitude != ""
    ensures !ValidateLocation(Location(name, "", ""))
  {
  }

  /** `time.Duration(minutes) * time.Minute`: a 64-bit product that wraps. */
  function ThresholdDuration(minutes: int): Duration
  {
    Wrap64(minutes * Minute)
  }

  /** `rt.Sub(now)`: the difference, saturated to the Duration range. */
  function Sub(t: Time, u: Time): Duration
  {
    Clamp64(t - u)
  }

  /** `validateReachingTime`, with the clock reading and the threshold passed in. */
  function ValidateReachingTime(rt: Time, now: Time, thresholdMinutes: int): (r: Outcome)
    ensures r.Fail? ==> r.error == ReachingTimeTooSoon
  {
    if Sub(rt, now) < ThresholdDuration(thresholdMinutes) then Fail(ReachingTimeTooSoon) else Pass
  }

  /** Largest threshold, in minutes, whose product with `time.Minute` fits 64 bits. */
  const MaxExactThreshold: int := 153_722_867

  /** Within that range the check is exact: a reaching time is rejected exactly
      when it lies less than `thresholdMinutes` minutes after `now`; so one
      exactly the threshold ahead is accepted, and with a positive threshold
      every past time is rejected. */
  lemma ReachingTimeRule(rt: Time, now: Time, thresholdMinutes: int)
    requires -MaxExactThreshold <= thresholdMinutes <= MaxExactThreshold
    ensures ValidateReachingTime(rt, now, thresholdMinutes).Fail? <==> rt - now < thresholdMinutes * Minute
    ensures rt == now + thresholdMinutes * Minute ==> ValidateReachingTime(rt, now, thresholdMinutes).Pass?
    ensures thresholdMinutes > 0 && rt <= now ==> ValidateReachingTime(rt, now, thresholdMinutes).Fail?
  {
    var d := thresholdMinutes * Minute;
    assert MinInt64 < d <= MaxInt64;
    assert ThresholdDuration(thresholdMinutes) == d;
  }

  /** Just past that range, at `MaxExactThreshold + 1` minutes, the product wraps
      to a negative duration and a time one minute in the past passes the check. */
  lemma ReachingTimeThresholdWraps(now: Time)
    ensures ThresholdDuration(MaxExactThreshold + 1) < 0
    ensures ValidateReachingTime(now - Minute, now, MaxExactThreshold + 1).Pass?
  {
  }

  /** The checks `NewRequest` makes, in the order it makes them. */
  function RequestChecks(
    source: Location, destination: Location, reachingTime: Time, cab: string, cabType: string,
    notificationAddr: UserAddress, uav: UserAddressValidator, now: Time, thresholdMinutes: int): seq<Outcome>
  {
    [ if ValidateLocation(source) then Pass else Fail(InvalidSourceLocation),
      if ValidateLocation(destination) then Pass else Fail(InvalidDestinationLocation),
      match ValidateReachingTime(reachingTime, now, thresholdMinutes)
      case Fail(e) => Fail(Wrapped(NewRequestReachingTime, e))
      case Pass => Pass,
      if CabAllowed(cab, cabType) then Pass else Fail(CabUnavailable),
      match uav(notificationAddr)
      case Fail(e) => Fail(Wrapped(NewRequestAddress, e))
      case Pass => Pass ]
  }

  /** `NewRequest`: validates its arguments and builds a request with id 0. */
  function NewRequest(
    source: Location, destination: Location, reachingTime: Time, cab: string, cabType: string,
    notificationAddr: UserAddress, uav: UserAddressValidator, now: Time, thresholdMinutes: int): (r: Reply<Option<Request>>)
    ensures r.err.Pass? <==>
      ValidateLocation(source) && ValidateLocation(destination) &&
      ValidateReachingTime(reachingTime, now, thresholdMinutes).Pass? &&
      CabAllowed(cab, cabType) && uav(notificationAddr).Pass?
    ensures r.err.Fail? ==> r.value == None
    ensures r.err.Pass? ==>
      r.value == Some(Request(0, source, destination, reachingTime, cab, cabType, notificationAddr))
  {
    if !ValidateLocation(source) then Reply(None, Fail(InvalidSourceLocation))
    else if !ValidateLocation(destination) then Reply(None, Fail(InvalidDestinationLocation))
    else match ValidateReachingTime(reachingTime, now, thresholdMinutes)
    case Fail(e) => Reply(None, Fail(Wrapped(NewRequestReachingTime, e)))
    case Pass =>
      if !CabAllowed(cab, cabType) then Reply(None, Fail(CabUnavailable))
      else match uav(notificationAddr)
      case Fail(e) => Reply(None, Fail(Wrapped(NewRequestAddress, e)))
      case Pass =>
        Reply(Some(Request(0, source, destination, reachingTime, cab, cabType, notificationAddr)), Pass)
  }

  /** The error `NewRequest` reports is that of the first check that fails, in
      the order source, destination, reaching time, cab, notification address. */
  lemma {:induction false} NewRequestReportsFirstFailure(
    source: Location, destination: Location, reachingTime: Time, cab: string, cabType: string,
    notificationAddr: UserAddress, uav: UserAddressValidator, now: Time, thresholdMinutes: int)
    ensures NewRequest(source, destination, reachingTime, cab, cabType, notificationAddr, uav, now, thresholdMinutes).err
         == FirstFailure(RequestChecks(source, destination, reachingTime, cab, cabType, notificationAddr, uav, now, thresholdMinutes))
  {
    var checks := RequestChecks(source, destination, reachingTime, cab, cabType, notificationAddr, uav, now, thresholdMinutes);
    FirstFailureOfFive(checks[0], checks[1], checks[2], checks[3], checks[4]);
    assert checks == [checks[0], checks[1], checks[2], checks[3], checks[4]];
  }

  lemma FirstFailureOfFive(a: Outcome, b: Outcome, c: Outcome, d: Outcome, e: Outcome)
    ensures FirstFailure([a, b, c, d, e]) ==
      if a.Fail? then a else if b.Fail? then b else if c.Fail? then c else if d.Fail? then d else e
  {
    assert [a, b, c, d, e][1..] == [b, c, d, e];
    assert [b, c, d, e][1..] == [c, d, e];
    assert [c, d, e][1..] == [d, e];
    assert [d, e][1..] == [e];
    assert [e][1..] == [];
    assert FirstFailure([e]) == e;
    assert FirstFailure([d, e]) == if d.Fail? then d else e;
    assert FirstFailure([c, d, e]) == if c.Fail? then c else FirstFailure([d, e]);
    assert FirstFailure([b, c, d, e]) == if b.Fail? then b else FirstFailure([c, d, e]);
  }

  /** `NewUser`: any name, including the empty one, with user id 0. */
  function NewUser(name: string): (u: User)
    ensures u.name == name && u.userId == 0
  {
    User(0, name)
  }

  /** `NewUserRequest`: pairs exactly the given user and request. */
  function NewUserRequest(u: User, r: Request): (ur: UserRequest)
    ensures ur.user == u && ur.request == r
  {
    UserRequest(u, r)
  }

  /** The hour, minute and second of an instant. */
  datatype Clock = Clock(hour: nat, minute: nat, second: nat)

  /** The wall-clock reading of an instant in UTC (`t.Hour()`, `t.Minute()`, `t.Second()`). */
  function ClockOf(t: Time): (c: Clock)
    ensures c.hour < 24 && c.minute < 60 && c.second < 60
    ensures (t / Second) % 86400 == c.hour * 3600 + c.minute * 60 + c.second
  {
    var daySeconds := (t / Second) % 86400;
    var c := Clock(daySeconds / 3600, (daySeconds % 3600) / 60, daySeconds % 60);
    assert daySeconds == (daySeconds / 3600) * 3600 + daySeconds % 3600;
    assert daySeconds % 3600 == ((daySeconds % 3600) / 60) * 60 + daySeconds % 60;
    c
  }

  /** One piece of `ToString`: the decimal value and its unit, or nothing for zero. */
  function Segment(n: nat, unit: char): string
  {
    if n == 0 then "" else NatToString(n) + [unit]
  }

  /** `ToString`: "<h>h<m>m<s>s", leaving out every zero component. */
  function ToString(t: Time): (s: string)
    ensures s == "" <==> ClockOf(t) == Clock(0, 0, 0)
  {
    var c := ClockOf(t);
    Segment(c.hour, 'h') + Segment(c.minute, 'm') + Segment(c.second, 's')
  }

  /** Length of the run of digits that starts `s`. */
  function LeadingDigits(s: string): (k: nat)
    ensures k <= |s| && AllDigits(s[..k])
    ensures k < |s| ==> !IsDigit(s[k])
  {
    if s == [] || !IsDigit(s[0]) then 0
    else
      var k := 1 + LeadingDigits(s[1..]);
      assert s[..k] == [s[0]] + s[1..][..k - 1];
      k
  }

  /** Reads "<digits><unit>" off the front of `s`; reads 0 when `s` does not start so. */
  function ParseUnit(s: string, unit: char): (nat, string)
  {
    var k := LeadingDigits(s);
    if 0 < k < |s| && s[k] == unit then (DigitsValue(s[..k]), s[k + 1..]) else (0, s)
  }

  /** Reads a clock back from the text `ToString` writes. */
  function ParseClock(s: string): Option<Clock>
  {
    var (h, afterHours) := ParseUnit(s, 'h');
    var (m, afterMinutes) := ParseUnit(afterHours, 'm');
    var (sec, rest) := ParseUnit(afterMinutes, 's');
    if rest == [] then Some(Clock(h, m, sec)) else None
  }

  lemma {:induction false} LeadingDigitsStopAt(d: string, c: char, rest: string)
    requires AllDigits(d) && !IsDigit(c)
    ensures LeadingDigits(d + [c] + rest) == |d|
  {
    if d != [] {
      assert (d + [c] + rest)[1..] == d[1..] + [c] + rest;
      LeadingDigitsStopAt(d[1..], c, rest);
    }
  }

  lemma ParseUnitReads(n: nat, unit: char, rest: string)
    requires n > 0 && !IsDigit(unit)
    ensures ParseUnit(NatToString(n) + [unit] + rest, unit) == (n, rest)
  {
    var d := NatToString(n);
    var s := d + [unit] + rest;
    LeadingDigitsStopAt(d, unit, rest);
    assert s[..|d|] == d && s[|d|] == unit && s[|d| + 1..] == rest;
    NatToStringValue(n);
  }

  lemma ParseUnitSkips(n: nat, other: char, unit: char, rest: string)
    requires n > 0 && !IsDigit(other) && other != unit
    ensures ParseUnit(NatToString(n) + [other] + rest, unit) == (0, NatToString(n) + [other] + rest)
  {
    var d := NatToString(n);
    LeadingDigitsStopAt(d, other, rest);
    assert (d + [other] + rest)[|d|] == other;
  }

  /** Reading a piece off text that starts with a later piece, or is empty,
      reads zero and consumes nothing. */
  lemma ParseUnitSkipsLater(unit: char, m: nat, mUnit: char, s: nat, sUnit: char)
    requires !IsDigit(mUnit) && !IsDigit(sUnit) && mUnit != unit && sUnit != unit
    ensures ParseUnit(Segment(m, mUnit) + Segment(s, sUnit), unit) == (0, Segment(m, mUnit) + Segment(s, sUnit))
  {
    if m > 0 {
      assert Segment(m, mUnit) + Segment(s, sUnit) == NatToString(m) + [mUnit] + Segment(s, sUnit);
      ParseUnitSkips(m, mUnit, unit, Segment(s, sUnit));
    } else if s > 0 {
      assert Segment(m, mUnit) + Segment(s, sUnit) == NatToString(s) + [sUnit] + [];
      ParseUnitSkips(s, sUnit, unit, []);
    }
  }

  lemma ParseUnitOfSegment(n: nat, unit: char, rest: string)
    requires !IsDigit(unit)
    requires n == 0 ==> ParseUnit(rest, unit) == (0, rest)
    ensures ParseUnit(Segment(n, unit) + rest, unit) == (n, rest)
  {
    if n > 0 {
      ParseUnitReads(n, unit, rest);
    } else {
      assert Segment(n, unit) + rest == rest;
    }
  }

  /** `ToString` loses nothing: the hour, minute and second can be read back from
      its text, so instants with different clock readings print differently. */
  lemma ToStringRoundTrip(t: Time)
    ensures ParseClock(ToString(t)) == Some(ClockOf(t))
  {
    var c := ClockOf(t);
    var H, M, S := Segment(c.hour, 'h'), Segment(c.minute, 'm'), Segment(c.second, 's');
    assert ToString(t) == H + (M + S);
    ParseUnitSkipsLater('h', c.minute, 'm', c.second, 's');
    ParseUnitOfSegment(c.hour, 'h', M + S);
    ParseUnitSkipsLater('m', 0, 'h', c.second, 's');
    assert Segment(0, 'h') + S == S;
    ParseUnitOfSegment(c.minute, 'm', S);
    assert ParseUnit([], 's') == (0, []);
    ParseUnitOfSegment(c.second, 's', []);
    assert S + [] == S;
  }

  /** Every '0' in `s` continues a run of digits: no number in it is written
      with a leading zero. */
  predicate NoLeadingZero(s: string)
  {
    forall i :: 0 <= i < |s| && s[i] == '0' ==> i > 0 && IsDigit(s[i - 1])
  }

  lemma SegmentShape(n: nat, unit: char, c: char)
    requires !IsDigit(unit)
    ensures NoLeadingZero(Segment(n, unit))
    ensures Segment(n, unit) != [] ==> Segment(n, unit)[0] != '0'
    ensures !IsDigit(c) ==> (c in Segment(n, unit) <==> n != 0 && c == unit)
  {
    if n != 0 {
      var d := NatToString(n);
      var seg := d + [unit];
      assert Segment(n, unit) == seg;
      assert seg[|d|] == unit;
      forall i | 0 <= i < |seg| && seg[i] == '0' ensures i > 0 && IsDigit(seg[i - 1]) {
        assert i < |d| && d[i] == '0';
        assert i != 0;
        assert seg[i - 1] == d[i - 1];
      }
    }
  }

  lemma NoLeadingZeroConcat(a: string, b: string)
    requires NoLeadingZero(a) && NoLeadingZero(b) && (b != [] ==> b[0] != '0')
    ensures NoLeadingZero(a + b)
  {
    var ab := a + b;
    forall i | 0 <= i < |ab| && ab[i] == '0' ensures i > 0 && IsDigit(ab[i - 1]) {
      if i < |a| {
        assert ab[i] == a[i];
        if i > 0 { assert ab[i - 1] == a[i - 1]; }
      } else {
        var j := i - |a|;
        assert b[j] == '0';
        assert j > 0;
        assert ab[i - 1] == b[j - 1];
      }
    }
  }

  /** `ToString` writes a piece exactly for each non-zero component (the unit
      letter appears iff its component is non-zero), and writes every number
      without a leading zero. */
  lemma ToStringOmitsZeroParts(t: Time)
    ensures 'h' in ToString(t) <==> ClockOf(t).hour != 0
    ensures 'm' in ToString(t) <==> ClockOf(t).minute != 0
    ensures 's' in ToString(t) <==> ClockOf(t).second != 0
    ensures NoLeadingZero(ToString(t))
  {
    var c := ClockOf(t);
    var H, M, S := Segment(c.hour, 'h'), Segment(c.minute, 'm'), Segment(c.second, 's');
    assert ToString(t) == H + (M + S);
    SegmentShape(c.hour, 'h', 'h');
    SegmentShape(c.minute, 'm', 'h');
    SegmentShape(c.second, 's', 'h');
    SegmentShape(c.hour, 'h', 'm');
    SegmentShape(c.minute, 'm', 'm');
    SegmentShape(c.second, 's', 'm');
    SegmentShape(c.hour, 'h', 's');
    SegmentShape(c.minute, 'm', 's');
    SegmentShape(c.second, 's', 's');
    NoLeadingZeroConcat(M, S);
    if M == [] { assert M + S == S; }
    NoLeadingZeroConcat(H, M + S);
  }

  /** Midnight UTC at the start of 3 November 2018. */
  const November3rd2018: Time := 1_541_203_200 * Second

  /** The clock reading of a given time of day on that date. */
  lemma ClockOnNovember3rd(h: nat, m: nat, sec: nat)
    requires h < 24 && m < 60 && sec < 60
    ensures ClockOf(November3rd2018 + (h * 3600 + m * 60 + sec) * Second) == Clock(h, m, sec)
  {
    var x := h * 3600 + m * 60 + sec;
    var t := November3rd2018 + x * Second;
    assert t / Second == 17_838 * 86400 + x;
    assert (t / Second) % 86400 == x;
  }

  /** The formatting cases the domain's unit tests pin down. */
  lemma ToStringExamples()
    ensures ToString(November3rd2018 + (5 * 3600 + 6 * 60 + 7) * Second) == "5h6m7s"
    ensures ToString(November3rd2018 + (8 * 3600 + 0 * 60 + 0) * Second) == "8h"
    ensures ToString(November3rd2018 + (0 * 3600 + 7 * 60 + 6) * Second) == "7m6s"
    ensures ToString(November3rd2018 + (0 * 3600 + 0 * 60 + 4) * Second) == "4s"
    ensures ToString(November3rd2018 + (8 * 3600 + 9 * 60 + 0) * Second) == "8h9m"
  {
    ClockOnNovember3rd(5, 6, 7);
    ClockOnNovember3rd(8, 0, 0);
    ClockOnNovember3rd(0, 7, 6);
    ClockOnNovember3rd(0, 0, 4);
    ClockOnNovember3rd(8, 9, 0);
    assert NatToString(4) == "4" && NatToString(5) == "5" && NatToString(6) == "6";
    assert NatToString(7) == "7" && NatToString(8) == "8" && NatToString(9) == "9";
  }

  lemma ToStringInjective(t1: Time, t2: Time)
    requires ClockOf(t1) != ClockOf(t2)
    ensures ToString(t1) != ToString(t2)
  {
    ToStringRoundTrip(t1);
    ToStringRoundTrip(t2);
  }

  // --------------------------------------------------------- cab_service.go

  /** An entry of the allowed-cabs table: a cab and the types offered under it. */
  datatype CabOffer = CabOffer(name: string, types: seq<string>)

  /** `ALLOWED_CABS`. */
  const AllowedCabs: seq<CabOffer> := [CabOffer("uber", ["uberGo", "uberBlack", "uberShare", "uberX"])]

  /** Some table entry names `cab` and lists `cabType`. */
  predicate CabAllowed(cab: string, cabType: string)
  {
    exists i, j :: 0 <= i < |AllowedCabs| && 0 <= j < |AllowedCabs[i].types| &&
                   AllowedCabs[i].name == cab && AllowedCabs[i].types[j] == cabType
  }

  /** `validateCab`: the nested search of the table, returning at the first match. */
  method ValidateCab(cab: string, cabType: string) returns (ok: bool)
    ensures ok == CabAllowed(cab, cabType)
  {
    var i := 0;
    while i < |AllowedCabs|
      invariant 0 <= i <= |AllowedCabs|
      invariant forall i', j :: 0 <= i' < i && 0 <= j < |AllowedCabs[i'].types| ==>
                  !(AllowedCabs[i'].name == cab && AllowedCabs[i'].types[j] == cabType)
    {
      var c := AllowedCabs[i];
      if cab == c.name {
        var j := 0;
        while j < |c.types|
          invariant 0 <= j <= |c.types|
          invariant forall j' :: 0 <= j' < j ==> c.types[j'] != cabType
        {
          if cabType == c.types[j] {
            return true;
          }
          j := j + 1;
        }
      }
      i := i + 1;
    }
    return false;
  }

  /** With the current table, exactly the four uber types are allowed: a known
      type under another cab name, or an unknown type under "uber", is refused. */
  lemma AllowedCabsAreUber(cab: string, cabType: string)
    ensures CabAllowed(cab, cabType) <==>
      cab == "uber" && cabType in {"uberGo", "uberBlack", "uberShare", "uberX"}
  {
    var types := AllowedCabs[0].types;
    if cab == "uber" && cabType in {"uberGo", "uberBlack", "uberShare", "uberX"} {
      assert cabType in types;
      var j :| 0 <= j < |types| && types[j] == cabType;
      assert AllowedCabs[0].name == cab && types[j] == cabType;
    }
  }

  datatype CabRequest = CabRequest(
    source: Location,
    destination: Location,
    bookingTime: Time,
    cab: string,
    cabType: string)

  /** `NewCabRequest`: a record of exactly its five arguments. */
  function NewCabRequest(source: Location, destination: Location, bookingTime: Time, cab: string, cabType: string): (cr: CabRequest)
    ensures cr.source == source && cr.destination == destination && cr.bookingTime == bookingTime
    ensures cr.cab == cab && cr.cabType == cabType
  {
    CabRequest(source, destination, bookingTime, cab, cabType)
  }

  /** The final answer sent to the user: when to book the cab. */
  datatype CabBookingResponse = CabBookingResponse(
    bookingId: nat,
    userRequest: Option<UserRequest>,
    bestBookingTime: Time)

  /** `NewCabBookingResponse`: keeps the user request and the time, booking id 0. */
  function NewCabBookingResponse(ur: Option<UserRequest>, bestBookingTime: Time): (cr: CabBookingResponse)
    ensures cr.userRequest == ur && cr.bestBookingTime == bestBookingTime && cr.bookingId == 0
  {
    CabBookingResponse(0, ur, bestBookingTime)
  }

  // ------------------------------------------------------ traffic_service.go

  datatype TrafficRequest = TrafficRequest(source: Location, destination: Location, timeOfDay: Time)

  /** A traffic-service answer; its travel time is a duration. */
  datatype TrafficResponse = TrafficResponse(
    request: Option<TrafficRequest>,
    travelTime: Duration,
    bestCase: Time,
    worstCase: Time)

  /** `NewTrafficRequest`: a record of exactly its three arguments. */
  function NewTrafficRequest(source: Location, destination: Location, timeOfDay: Time): (tr: TrafficRequest)
    ensures tr.source == source && tr.destination == destination && tr.timeOfDay == timeOfDay
  {
    TrafficRequest(source, destination, timeOfDay)
  }
}
