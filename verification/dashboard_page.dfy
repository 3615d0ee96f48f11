/** The user dashboard page: flag colours, relative times of recent scans,
    the pending-sync alert and the flag badges of each recent scan. Times
    are milliseconds since the epoch, passed in. */
module DashboardPage {
  import opened Types
  import HealthAdvice
  import Offline

  const RedClasses := "text-red-600 bg-red-50 border-red-200"
  const YellowClasses := "text-yellow-600 bg-yellow-50 border-yellow-200"
  const GreenClasses := "text-green-600 bg-green-50 border-green-200"

  /** `getRiskColor`: red and yellow by name, everything else green. */
  function RiskColor(level: string): string {
    if level == "red" then RedClasses
    else if level == "yellow" then YellowClasses
    else GreenClasses
  }

  /** How a flag level is written in a scan record. */
  function LevelName(l: Level): string {
    match l
    case Green => "green"
    case Yellow => "yellow"
    case Red => "red"
  }

  /** Each flag level gets its own colour, and any unknown level text is
      shown as green. */
  lemma RiskColorByLevel(l: Level, other: string)
    requires other != "red" && other != "yellow"
    ensures RiskColor(LevelName(l)) == (match l case Red => RedClasses case Yellow => YellowClasses case Green => GreenClasses)
    ensures RiskColor(other) == GreenClasses
    ensures forall m: Level :: RiskColor(LevelName(l)) == RiskColor(LevelName(m)) <==> l == m
  {
  }

  const MsPerHour: int := 1000 * 60 * 60

  datatype Ago = JustNow | HoursAgo(hours: nat) | DaysAgo(days: nat)

  /** `Math.floor((now - time) / 3600000)`: with a positive divisor Dafny's
      integer division already rounds down, negative differences included. */
  function HoursSince(now: int, time: int): (h: int)
    ensures h * MsPerHour <= now - time < (h + 1) * MsPerHour
  {
    (now - time) / MsPerHour
  }

  /** `getTimeAgo`, before the number is written out. */
  function TimeAgo(now: int, time: int): Ago {
    var h := HoursSince(now, time);
    if h < 1 then JustNow
    else if h < 24 then HoursAgo(h)
    else DaysAgo(h / 24)
  }

  /** The three bands, stated on the elapsed time itself: under an hour
      (including a time in the future) is "just now", under a day is whole
      hours, and anything longer is whole days, at least one. */
  lemma TimeAgoBands(now: int, time: int)
    ensures now - time < MsPerHour <==> TimeAgo(now, time) == JustNow
    ensures MsPerHour <= now - time < 24 * MsPerHour <==> TimeAgo(now, time).HoursAgo?
    ensures TimeAgo(now, time).HoursAgo? ==>
      var h := TimeAgo(now, time).hours;
      1 <= h < 24 && h * MsPerHour <= now - time < (h + 1) * MsPerHour
    ensures 24 * MsPerHour <= now - time <==> TimeAgo(now, time).DaysAgo?
    ensures TimeAgo(now, time).DaysAgo? ==>
      var d := TimeAgo(now, time).days;
      d >= 1 && d * 24 * MsPerHour <= now - time < (d + 1) * 24 * MsPerHour
  {
    var h := HoursSince(now, time);
    if h >= 24 {
      var d := h / 24;
      assert d * 24 <= h < (d + 1) * 24;
      assert d * 24 * MsPerHour <= h * MsPerHour;
      assert (h + 1) * MsPerHour <= (d + 1) * 24 * MsPerHour;
    }
  }

  function DigitChar(d: nat): char
    requires d < 10
  {
    "0123456789"[d]
  }

  /** Decimal digits of a natural number. */
  function NatToString(n: nat): (s: string)
    ensures |s| >= 1
    ensures forall i :: 0 <= i < |s| ==> '0' <= s[i] <= '9'
  {
    if n < 10 then [DigitChar(n)] else NatToString(n / 10) + [DigitChar(n % 10)]
  }

  /** The text shown for a relative time. */
  function Describe(a: Ago): string {
    match a
    case JustNow => "Just now"
    case HoursAgo(h) => NatToString(h) + "h ago"
    case DaysAgo(d) => NatToString(d) + "d ago"
  }

  /** The pending-sync alert is shown exactly when scans are queued. */
  predicate PendingAlertShown(s: Offline.State) {
    |s.pending| > 0
  }

  /** Its "Sync Now" button is enabled exactly when online. */
  predicate SyncNowEnabled(s: Offline.State) {
    s.isOnline
  }

  /** Pressing an enabled "Sync Now" with the remote store accepting empties
      the queue; while the button is disabled, a sync would do nothing. */
  lemma SyncNowButton(s: Offline.State, remoteOk: bool)
    requires PendingAlertShown(s)
    ensures SyncNowEnabled(s) && remoteOk ==>
      Offline.SyncPendingData(s, remoteOk).state.pending == []
      && !PendingAlertShown(Offline.SyncPendingData(s, remoteOk).state)
    ensures !SyncNowEnabled(s) ==> Offline.SyncPendingData(s, remoteOk).state == s
  {
  }

  /** `healthFlags.slice(0, 2)`: the badges of a recent scan. */
  function FlagBadges(flags: seq<Flag>): seq<Flag> {
    if |flags| <= 2 then flags else flags[..2]
  }

  /** At most two badges, the first flags in order; a generated analysis
      always shows at least its first flag. */
  lemma FlagBadgesPrefix(flags: seq<Flag>, p: Profile, c: Condition)
    ensures |FlagBadges(flags)| == (if |flags| < 2 then |flags| else 2)
    ensures FlagBadges(flags) == flags[..|FlagBadges(flags)|]
    ensures var shown := FlagBadges(HealthAdvice.GenerateHealthAdvice(p, c).flags);
      |shown| >= 1 && shown[0] == HealthAdvice.GenerateHealthAdvice(p, c).flags[0]
  {
  }
}
