/**
 * The dashboard header: the market and connection status chips, the
 * notification badge, and the once-a-second countdown to the 4:00 PM close.
 * The clock is a parameter: the countdown is computed from the local hour and
 * minute the interval callback reads.
 */
module Header {
  import opened Wrappers
  import opened Text

  /** The market closes at 16:00. */
  const CloseHour := 16
  const CloseMinute := 0

  /** What the countdown shows. */
  datatype Countdown = ToClose(h: int, m: int) | MarketClosed

  /**
   * The interval callback: before the close, the whole minutes left split into
   * hours and minutes; from the close on, "Market closed". The close minute is
   * 0, so the second half of the `hours === closeHour && minutes < closeMinute`
   * test never holds.
   */
  function TimeToClose(hours: int, minutes: int): (c: Countdown)
    requires 0 <= hours < 24 && 0 <= minutes < 60
    ensures c.ToClose? <==> hours < CloseHour
    ensures c.ToClose? ==>
      && 0 <= c.m < 60 && 0 <= c.h <= 16
      && c.h * 60 + c.m == (CloseHour * 60 + CloseMinute) - (hours * 60 + minutes)
  {
    if hours < CloseHour || (hours == CloseHour && minutes < CloseMinute) then
      var diffMinutes := (CloseHour * 60 + CloseMinute) - (hours * 60 + minutes);
      ToClose(diffMinutes / 60, diffMinutes % 60)
    else
      MarketClosed
  }

  /** The countdown text. */
  function CountdownText(c: Countdown): string {
    match c
    case ToClose(h, m) => IntToString(h) + "h " + IntToString(m) + "m to close"
    case MarketClosed => "Market closed"
  }

  /** Midnight is sixteen hours out, 15:59 one minute out, and 16:00 closed. */
  lemma CountdownBoundaries()
    ensures TimeToClose(0, 0) == ToClose(16, 0)
    ensures TimeToClose(15, 59) == ToClose(0, 1)
    ensures TimeToClose(16, 0) == MarketClosed
    ensures TimeToClose(23, 59) == MarketClosed
  {
  }

  /** At midnight the header reads "16h 0m to close". */
  lemma MidnightText()
    ensures CountdownText(TimeToClose(0, 0)) == "16h 0m to close"
  {
    assert TimeToClose(0, 0) == ToClose(16, 0);
    assert DigitChar(1) == '1' && DigitChar(6) == '6' && DigitChar(0) == '0';
    assert IntToString(16) == "16";
    assert IntToString(0) == "0";
  }

  /** At 15:59 the header reads "0h 1m to close". */
  lemma LastMinuteText()
    ensures CountdownText(TimeToClose(15, 59)) == "0h 1m to close"
  {
    assert TimeToClose(15, 59) == ToClose(0, 1);
    assert DigitChar(1) == '1' && DigitChar(0) == '0';
    assert IntToString(0) == "0";
    assert IntToString(1) == "1";
  }

  /**
   * A minute later, at any time of day `t` (minutes since midnight), the
   * countdown is one minute shorter — across the top of the hour too — until
   * 15:59 gives way to "Market closed".
   */
  lemma CountdownTicksDown(hours: int, minutes: int)
    requires 0 <= hours < 24 && 0 <= minutes < 60
    requires hours * 60 + minutes < 24 * 60 - 1
    ensures var t := hours * 60 + minutes + 1;
      var now, next := TimeToClose(hours, minutes), TimeToClose(t / 60, t % 60);
      && (now.ToClose? && next.ToClose? ==> next.h * 60 + next.m + 1 == now.h * 60 + now.m)
      && (now.ToClose? && !next.ToClose? ==> now == ToClose(0, 1))
      && (!now.ToClose? ==> !next.ToClose?)
  {
    var t := hours * 60 + minutes + 1;
    assert t / 60 == hours || t / 60 == hours + 1;
    assert t / 60 * 60 + t % 60 == t;
  }

  /** From the close on, whatever the minute, the header reads "Market closed". */
  lemma ClosedText(hours: int, minutes: int)
    requires 0 <= hours < 24 && 0 <= minutes < 60
    ensures CountdownText(TimeToClose(hours, minutes)) == "Market closed" <==> hours >= CloseHour
  {
    if hours < CloseHour {
      var c := TimeToClose(hours, minutes);
      assert CountdownText(c)[|CountdownText(c)| - 1] == 'e';
    }
  }

  datatype MarketStatus = Live | Paper | Stopped | Closed
  datatype SystemStatus = Connected | Disconnected | Reconnecting

  /** A status chip: dot colour, label, and whether the dot pulses. */
  datatype Chip = Chip(color: string, text: string, glow: bool)

  function StatusChip(s: MarketStatus): (c: Chip)
    ensures c.glow <==> s == Live
  {
    match s
    case Live => Chip("bg-profit", "Live", true)
    case Paper => Chip("bg-warning", "Paper", false)
    case Stopped => Chip("bg-loss", "Stopped", false)
    case Closed => Chip("bg-muted-foreground", "Market Closed", false)
  }

  function SystemChip(s: SystemStatus): (c: Chip)
    ensures !c.glow
  {
    match s
    case Connected => Chip("bg-profit", "Connected", false)
    case Disconnected => Chip("bg-loss", "Disconnected", false)
    case Reconnecting => Chip("bg-warning", "Reconnecting...", false)
  }

  /** Every market status and every system status has a label of its own. */
  lemma LabelsDistinct(a: MarketStatus, b: MarketStatus, x: SystemStatus, y: SystemStatus)
    ensures StatusChip(a).text == StatusChip(b).text <==> a == b
    ensures SystemChip(x).text == SystemChip(y).text <==> x == y
  {
  }

  /** The header's props; each may be left out. */
  datatype Props = Props(marketStatus: Option<MarketStatus>, systemStatus: Option<SystemStatus>, notifications: Option<int>)

  /** What the header shows apart from the clock. */
  datatype HeaderView = HeaderView(market: Chip, system: Chip, badge: Option<int>)

  /** The props with their defaults (live, connected, 3 notifications) filled in. */
  function Render(p: Props): (v: HeaderView)
    ensures v.market == StatusChip(p.marketStatus.GetOr(Live))
    ensures v.system == SystemChip(p.systemStatus.GetOr(Connected))
    ensures v.badge.Some? <==> p.notifications.GetOr(3) > 0
    ensures v.badge.Some? ==> v.badge.value == p.notifications.GetOr(3)
  {
    var n := p.notifications.GetOr(3);
    HeaderView(StatusChip(p.marketStatus.GetOr(Live)), SystemChip(p.systemStatus.GetOr(Connected)),
      if n > 0 then Some(n) else None)
  }

  /** With no props the header is live and pulsing, connected, and shows a badge of 3. */
  lemma Defaults()
    ensures Render(Props(None, None, None)) == HeaderView(Chip("bg-profit", "Live", true), Chip("bg-profit", "Connected", false), Some(3))
  {
  }
}
