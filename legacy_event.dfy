/** check/event.go: the older event of package check. `Up` and `Down` only act
    when the check currently holds the opposite timestamp. */
module LegacyEvent {
  import PollerCheck

  /** The fields of a check this event rewrites. */
  datatype Runtime = Runtime(upSince: int, downSince: int, alerted: bool)

  function UpStep(r: Runtime, t: int): (r': Runtime)
    // nothing changes unless the check is down
    ensures r.downSince == 0 ==> r' == r
    ensures r.downSince != 0 ==> r'.upSince == t && r'.downSince == 0
    ensures r'.alerted == r.alerted
  {
    if r.downSince != 0 then r.(upSince := t, downSince := 0) else r
  }

  /** The alert flags are set on an up -> down transition exactly when
      `ShouldAlert`, asked once `DownSince` is `t`, says no. */
  predicate DownAlerts(alert: bool, alertDelay: int, r: Runtime, t: int, now: int)
  {
    r.upSince != 0 && !PollerCheck.ShouldAlertAt(alert, r.alerted, alertDelay, t, now)
  }

  function DownStep(alert: bool, alertDelay: int, r: Runtime, t: int, now: int): (r': Runtime)
    // nothing changes unless the check is up
    ensures r.upSince == 0 ==> r' == r
    ensures r.upSince != 0 ==> r'.downSince == t && r'.upSince == 0
    ensures r'.alerted <==> r.alerted || DownAlerts(alert, alertDelay, r, t, now)
  {
    if r.upSince != 0 then
      var r1 := r.(downSince := t, upSince := 0);
      if !PollerCheck.ShouldAlertAt(alert, r1.alerted, alertDelay, r1.downSince, now) then r1.(alerted := true) else r1
    else r
  }

  datatype Call = CallUp(time: int) | CallDown(time: int, now: int)

  function Run(alert: bool, alertDelay: int, r: Runtime, calls: seq<Call>): Runtime
    decreases |calls|
  {
    if |calls| == 0 then r
    else
      var r' := match calls[0]
        case CallUp(t) => UpStep(r, t)
        case CallDown(t, now) => DownStep(alert, alertDelay, r, t, now);
      Run(alert, alertDelay, r', calls[1..])
  }

  /** A check with neither timestamp set is never moved by any sequence of events. */
  lemma {:induction false} IdleCheckStaysIdle(alert: bool, alertDelay: int, r: Runtime, calls: seq<Call>)
    requires r.upSince == 0 && r.downSince == 0
    ensures Run(alert, alertDelay, r, calls) == r
    decreases |calls|
  {
    if |calls| > 0 {
      IdleCheckStaysIdle(alert, alertDelay, r, calls[1..]);
    }
  }

  /** The fields of package check's `Check` that check/event.go reads and
      writes. The `Check` struct of check/check.go declares none of them, so
      they are reconstructed from that use, and `ShouldAlert` is taken to be
      package poller's. */
  class Check {
    const Alert: bool
    const AlertDelay: int
    const NotifyFix: bool
    var UpSince: int
    var DownSince: int
    var WasDownFor: int
    var Alerted: bool

    constructor(alert: bool, alertDelay: int, notifyFix: bool)
      ensures Alert == alert && AlertDelay == alertDelay && NotifyFix == notifyFix
      ensures State() == Runtime(0, 0, false) && WasDownFor == 0
    {
      Alert, AlertDelay, NotifyFix := alert, alertDelay, notifyFix;
      UpSince, DownSince, WasDownFor, Alerted := 0, 0, 0, false;
    }

    function State(): Runtime
      reads this
    {
      Runtime(UpSince, DownSince, Alerted)
    }

    predicate ShouldAlert(now: int)
      reads this
    {
      PollerCheck.ShouldAlertAt(Alert, Alerted, AlertDelay, DownSince, now)
    }
  }

  class Event {
    const Check: Check
    const Time: int
    var up: bool
    var Alert: bool
    var NotifyFix: bool

    constructor(check: Check, time: int)
      ensures Check == check && Time == time
      ensures !IsUp() && !Alert && !NotifyFix
    {
      Check, Time := check, time;
      up, Alert, NotifyFix := false, false, false;
    }

    function IsUp(): bool
      reads this
    {
      up
    }

    method Up()
      modifies this, Check
      ensures IsUp()
      ensures Check.State() == UpStep(old(Check.State()), Time)
      ensures Check.WasDownFor == old(Check.WasDownFor)
      ensures NotifyFix == if old(Check.DownSince) != 0 then Check.NotifyFix else old(NotifyFix)
      ensures Alert == old(Alert)
    {
      up := true;
      if Check.DownSince != 0 {
        Check.UpSince := Time;
        Check.DownSince := 0;
        NotifyFix := Check.NotifyFix;
      }
    }

    /** `now` is the clock reading `ShouldAlert` takes. */
    method Down(now: int)
      modifies this, Check
      ensures !IsUp()
      ensures Check.State() == DownStep(Check.Alert, Check.AlertDelay, old(Check.State()), Time, now)
      ensures Check.WasDownFor == old(Check.WasDownFor)
      ensures Alert == (old(Alert) || DownAlerts(Check.Alert, Check.AlertDelay, old(Check.State()), Time, now))
      ensures NotifyFix == old(NotifyFix)
    {
      up := false;
      if Check.UpSince != 0 {
        Check.DownSince := Time;
        Check.UpSince := 0;
        if !Check.ShouldAlert(now) {
          Alert := true;
          Check.Alerted := true;
        }
      }
    }
  }
}
