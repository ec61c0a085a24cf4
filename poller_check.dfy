/** The `Check` of package poller: what is polled and how (fixed once the
    check is built) and the availability bookkeeping the events rewrite.
    Times are whole seconds, 0 being Go's zero `time.Time`; durations are
    whole seconds too. */
module PollerCheck {
  import opened Json
  import Durations

  /** `Check.ShouldAlert()`: alerting is on, no alert went out for this outage
      yet, and the check has been down for at least the alert delay. `now` is
      the clock reading Go takes with `time.Now()`. */
  predicate ShouldAlertAt(alert: bool, alerted: bool, alertDelay: int, downSince: int, now: int)
  {
    alert && !alerted && now >= downSince + alertDelay
  }

  /** `Check.ShouldNotifyFix()`: fixes are notified, an alert went out, and
      the outage that ended had a length. */
  predicate ShouldNotifyFixAt(notifyFix: bool, alerted: bool, wasDownFor: int)
  {
    notifyFix && alerted && wasDownFor != 0
  }

  /** The five scenarios of the ShouldAlert test and the three of the
      ShouldNotifyFix test, for every clock reading and delay. */
  lemma {:induction false} PinnedByTests(alertDelay: int, downSince: int, now: int, wasDownFor: int)
    ensures now >= downSince + alertDelay ==> ShouldAlertAt(true, false, alertDelay, downSince, now)
    ensures !ShouldAlertAt(true, true, alertDelay, downSince, now)
    ensures !ShouldAlertAt(false, false, alertDelay, downSince, now)
    ensures alertDelay > 0 ==> !ShouldAlertAt(true, false, alertDelay, now, now)
    ensures !ShouldNotifyFixAt(false, true, wasDownFor)
    ensures !ShouldNotifyFixAt(true, false, wasDownFor)
    ensures wasDownFor != 0 ==> ShouldNotifyFixAt(true, true, wasDownFor)
  {
  }

  /** The fields of a check its events rewrite. */
  datatype Runtime = Runtime(upSince: int, downSince: int, wasUpFor: int, wasDownFor: int, alerted: bool)

  /** The fields fixed when the check is built. `config` holds each
      configuration value as the JSON it is written as. */
  datatype Settings = Settings(
    checkType: string,
    key: string,
    interval: Durations.Duration,
    alert: bool,
    alertDelay: Durations.Duration,
    notifyFix: bool,
    config: map<string, Json>)

  class Check {
    const checkType: string
    const Key: string
    const Interval: Durations.Duration
    const Alert: bool
    const AlertDelay: Durations.Duration
    const NotifyFix: bool
    const Config: map<string, Json>
    var UpSince: int
    var DownSince: int
    var WasUpFor: int
    var WasDownFor: int
    var Alerted: bool

    /** A check that has never been polled: every runtime field is zero. */
    constructor(s: Settings)
      ensures Spec() == s
      ensures State() == Runtime(0, 0, 0, 0, false)
    {
      checkType, Key, Interval := s.checkType, s.key, s.interval;
      Alert, AlertDelay, NotifyFix, Config := s.alert, s.alertDelay, s.notifyFix, s.config;
      UpSince, DownSince, WasUpFor, WasDownFor, Alerted := 0, 0, 0, 0, false;
    }

    function Type(): string { checkType }

    function Spec(): Settings
    {
      Settings(checkType, Key, Interval, Alert, AlertDelay, NotifyFix, Config)
    }

    function State(): Runtime
      reads this
    {
      Runtime(UpSince, DownSince, WasUpFor, WasDownFor, Alerted)
    }

    predicate ShouldAlert(now: int)
      reads this
    {
      ShouldAlertAt(Alert, Alerted, AlertDelay, DownSince, now)
    }

    predicate ShouldNotifyFix()
      reads this
    {
      ShouldNotifyFixAt(NotifyFix, Alerted, WasDownFor)
    }
  }
}
