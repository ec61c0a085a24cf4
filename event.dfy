/** event.go: the result of one poll. `Up` and `Down` rewrite the polled
    check's availability fields and raise the event's edge flags. */
module PollerEvent {
  import opened PollerCheck

  /** What `Up` does to the check's runtime fields, at event time `t`. */
  function UpStep(r: Runtime, t: int): (r': Runtime)
    // the check is up and not down afterwards
    ensures t != 0 ==> r'.upSince != 0
    ensures r'.downSince == 0
    // a check that is already up is left as it is
    ensures r.downSince == 0 && r.upSince != 0 ==> r' == r
    // down -> up: the outage ends now and its length is recorded
    ensures r.downSince != 0 ==> r'.upSince == t && r'.wasDownFor == t - r.downSince
    ensures r.downSince == 0 ==> r'.wasDownFor == r.wasDownFor
    // Up never touches these
    ensures r'.wasUpFor == r.wasUpFor && r'.alerted == r.alerted
  {
    var r1 := if r.upSince == 0 then r.(upSince := t) else r;
    if r1.downSince != 0 then r1.(upSince := t, wasDownFor := t - r1.downSince, downSince := 0)
    else r1
  }

  /** Whether `Down` at event time `t`, with the clock reading `now`, sets the
      alert flags: on an up -> down transition, exactly when `ShouldAlert`,
      asked once `DownSince` is `t`, says no. */
  predicate DownAlerts(s: Settings, r: Runtime, t: int, now: int)
  {
    r.upSince != 0 && !ShouldAlertAt(s.alert, r.alerted, s.alertDelay, t, now)
  }

  /** What `Down` does to the check's runtime fields. */
  function DownStep(s: Settings, r: Runtime, t: int, now: int): (r': Runtime)
    // the check is down and not up afterwards
    ensures t != 0 ==> r'.downSince != 0
    ensures r'.upSince == 0
    // a check that is already down keeps the start of its outage
    ensures r.upSince == 0 && r.downSince != 0 ==> r' == r
    // up -> down: the outage starts now and the uptime is recorded
    ensures r.upSince != 0 ==> r'.downSince == t && r'.wasUpFor == t - r.upSince
    ensures r.upSince == 0 ==> r'.wasUpFor == r.wasUpFor && r'.alerted == r.alerted
    // Alerted ends up set when it was set, when alerting is off, or when the
    // outage is younger than the alert delay
    ensures r.upSince != 0 ==> (r'.alerted <==> r.alerted || !s.alert || now < t + s.alertDelay)
    ensures r'.alerted == (r.alerted || DownAlerts(s, r, t, now))
    // Down never touches the last outage's length
    ensures r'.wasDownFor == r.wasDownFor
  {
    var r1 := if r.downSince == 0 then r.(downSince := t) else r;
    if r1.upSince != 0 then
      var r2 := r1.(downSince := t, wasUpFor := t - r1.upSince, upSince := 0);
      if !ShouldAlertAt(s.alert, r2.alerted, s.alertDelay, r2.downSince, now) then r2.(alerted := true) else r2
    else r1
  }

  /** One probe result: `Up` at a time, or `Down` at a time with the clock
      reading `ShouldAlert` takes. */
  datatype Call = CallUp(time: int) | CallDown(time: int, now: int)

  function Step(s: Settings, r: Runtime, c: Call): Runtime
  {
    match c
    case CallUp(t) => UpStep(r, t)
    case CallDown(t, now) => DownStep(s, r, t, now)
  }

  /** The runtime fields after a sequence of events, each applied to the check in turn. */
  function Run(s: Settings, r: Runtime, calls: seq<Call>): Runtime
    decreases |calls|
  {
    if |calls| == 0 then r else Run(s, Step(s, r, calls[0]), calls[1..])
  }

  /** UpSince and DownSince are never both set once the check has been polled. */
  lemma {:induction false} RunExclusive(s: Settings, r: Runtime, calls: seq<Call>)
    requires |calls| > 0
    ensures Run(s, r, calls).upSince == 0 || Run(s, r, calls).downSince == 0
    decreases |calls|
  {
    if |calls| > 1 {
      RunExclusive(s, Step(s, r, calls[0]), calls[1..]);
    }
  }

  /** Once an alert went out, `Alerted` stays set: `Up` never clears it. */
  lemma {:induction false} AlertedSticks(s: Settings, r: Runtime, calls: seq<Call>)
    requires r.alerted
    ensures Run(s, r, calls).alerted
    decreases |calls|
  {
    if |calls| > 0 {
      AlertedSticks(s, Step(s, r, calls[0]), calls[1..]);
    }
  }

  /** As written, `Alerted` makes `ShouldAlert` false, so once it is set every
      later up -> down transition raises the alert again. */
  lemma {:induction false} AlertedCheckAlertsOnEveryOutage(s: Settings, r: Runtime, calls: seq<Call>, t: int, now: int)
    requires r.alerted
    ensures Run(s, r, calls).upSince != 0 ==> DownAlerts(s, Run(s, r, calls), t, now)
  {
    AlertedSticks(s, r, calls);
  }

  predicate AllDown(calls: seq<Call>)
  {
    forall i :: 0 <= i < |calls| ==> calls[i].CallDown?
  }

  /** Repeated `Down` calls on a check that is down keep the first outage start. */
  lemma {:induction false} RepeatedDownKeepsOutage(s: Settings, r: Runtime, calls: seq<Call>)
    requires r.upSince == 0 && r.downSince != 0
    requires AllDown(calls)
    ensures Run(s, r, calls) == r
    decreases |calls|
  {
    if |calls| > 0 {
      assert calls[0].CallDown?;
      assert AllDown(calls[1..]) by {
        forall i | 0 <= i < |calls[1..]| ensures calls[1..][i].CallDown? {
          assert calls[1..][i] == calls[i + 1];
        }
      }
      RepeatedDownKeepsOutage(s, Step(s, r, calls[0]), calls[1..]);
    }
  }

  class Event {
    const Check: PollerCheck.Check
    const Time: int
    var up: bool
    var Alert: bool
    var NotifyFix: bool

    /** `NewEvent(check)`; `time` is the clock reading Go takes. */
    constructor(check: PollerCheck.Check, time: int)
      ensures Check == check && Time == time
      ensures !IsUp() && !Alert && !NotifyFix
    {
      Check, Time := check, time;
      up, Alert, NotifyFix := false, false, false;
    }

    function IsUp(): bool
      reads this
    {
      up
    }

    method Up()
      modifies this, Check
      ensures IsUp()
      ensures Check.State() == UpStep(old(Check.State()), Time)
      ensures NotifyFix == if old(Check.DownSince) != 0 then Check.NotifyFix else old(NotifyFix)
      ensures Alert == old(Alert)
    {
      up := true;
      if Check.UpSince == 0 {
        Check.UpSince := Time;
      }
      if Check.DownSince != 0 {
        Check.UpSince := Time;
        Check.WasDownFor := Time - Check.DownSince;
        Check.DownSince := 0;
        NotifyFix := Check.NotifyFix;
      }
    }

    /** `now` is the clock reading `ShouldAlert` takes. */
    method Down(now: int)
      modifies this, Check
      ensures !IsUp()
      ensures Check.State() == DownStep(Check.Spec(), old(Check.State()), Time, now)
      ensures Alert == (old(Alert) || DownAlerts(Check.Spec(), old(Check.State()), Time, now))
      ensures NotifyFix == old(NotifyFix)
    {
      up := false;
      if Check.DownSince == 0 {
        Check.DownSince := Time;
      }
      if Check.UpSince != 0 {
        Check.DownSince := Time;
        Check.WasUpFor := Time - Check.UpSince;
        Check.UpSince := 0;
        if !Check.ShouldAlert(now) {
          Alert := true;
          Check.Alerted := true;
        }
      }
    }
  }
}
