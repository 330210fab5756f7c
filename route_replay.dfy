/**
 * The route replay player: play a recorded navigation session point by
 * point, with pause, resume and restart, and the `formatDuration` helper.
 *
 * The one-second playback timer is the `Tick` method; spoken announcements
 * are recorded in the ghost log `spoken`.
 */
module RouteReplay {
  import opened Common
  import opened Text

  datatype RoutePoint = RoutePoint(latitude: real, longitude: real, timestamp: string)

  datatype NavigationSession = NavigationSession(
    id: string,
    startAddress: Option<string>,
    endAddress: Option<string>,
    duration: nat,
    routePoints: seq<RoutePoint>)

  /** The last valid point index of a route (0 for an empty route). */
  function MaxIndex(points: nat): nat
  {
    if points == 0 then 0 else points - 1
  }

  // ---------------------------------------------------------------------
  // Playback as a value
  // ---------------------------------------------------------------------

  datatype Playback = Playback(playing: bool, index: nat)

  /**
   * One firing of the playback effect for a selected route of `points` points:
   * step to the next point while one remains, otherwise stop.
   */
  function TickStep(p: Playback, points: nat): (r: Playback)
    ensures !p.playing ==> r == p
    ensures p.playing && p.index < points - 1 ==> r == Playback(true, p.index + 1)
    ensures p.playing && p.index >= points - 1 ==> r == Playback(false, p.index)
  {
    if p.playing && p.index < points - 1 then Playback(true, p.index + 1)
    else if p.playing then Playback(false, p.index)
    else p
  }

  function Ticks(p: Playback, points: nat, n: nat): Playback
  {
    if n == 0 then p else TickStep(Ticks(p, points, n - 1), points)
  }

  /**
   * Played from the start, the route visits its points one per tick and stops
   * one tick after reaching the last: it never runs past MaxIndex.
   */
  lemma {:induction false} PlaybackFromStart(points: nat, n: nat)
    ensures Ticks(Playback(true, 0), points, n) ==
      if n <= MaxIndex(points) then Playback(true, n) else Playback(false, MaxIndex(points))
  {
    if n > 0 {
      PlaybackFromStart(points, n - 1);
    }
  }

  // ---------------------------------------------------------------------
  // formatDuration
  // ---------------------------------------------------------------------

  /** Whole minutes and remaining seconds. */
  function SplitDuration(seconds: nat): (parts: (nat, nat))
    ensures parts.0 * 60 + parts.1 == seconds && parts.1 < 60
  {
    (seconds / 60, seconds % 60)
  }

  /**
   * `formatDuration`: "<minutes>m <seconds>s". The two fields read back as the
   * whole minutes and the remaining seconds (under 60), so the string as a
   * whole reads back as the same number of seconds.
   */
  function FormatDuration(seconds: nat): (s: string)
    ensures ParseDurationParts(s) == Some(SplitDuration(seconds))
    ensures ParseDuration(s) == Some(seconds)
  {
    var (minutes, rest) := SplitDuration(seconds);
    var s := NatToString(minutes) + "m " + NatToString(rest) + "s";
    ParseFormatted(NatToString(minutes), NatToString(rest), s);
    NatToStringRoundTrip(minutes);
    NatToStringRoundTrip(rest);
    s
  }

  /**
   * Reads "<digits>m <digits>s" back into its two fields, minutes and seconds;
   * a field written with a leading zero, such as "05", is not a rendered number.
   */
  function ParseDurationParts(text: string): Option<(nat, nat)>
  {
    var k := LeadingDigits(text);
    if k == 0 || k + 2 > |text| || text[k] != 'm' || text[k + 1] != ' ' || (text[0] == '0' && k > 1) then None
    else WithMinutes(DigitsValue(text[..k]), ParseSeconds(text[k + 2..]))
  }

  function WithMinutes(minutes: nat, seconds: Option<nat>): Option<(nat, nat)>
  {
    match seconds
    case None => None
    case Some(rest) => Some((minutes, rest))
  }

  /** Reads "<digits>m <digits>s" back into a number of seconds. */
  function ParseDuration(text: string): Option<nat>
  {
    match ParseDurationParts(text)
    case None => None
    case Some(parts) => Some(parts.0 * 60 + parts.1)
  }

  /** Reads "<digits>s" back into a number. */
  function ParseSeconds(text: string): Option<nat>
  {
    var j := LeadingDigits(text);
    if j == 0 || j + 1 != |text| || text[j] != 's' || (text[0] == '0' && j > 1) then None
    else Some(DigitsValue(text[..j]))
  }

  lemma ParseSecondsOf(b: string)
    requires |b| > 0 && AllDigits(b) && (b[0] == '0' ==> |b| == 1)
    ensures ParseSeconds(b + "s") == Some(DigitsValue(b))
  {
    LeadingDigitsOfNumeral(b, "s");
    assert (b + "s")[..|b|] == b;
  }

  lemma ParseDurationOf(text: string, k: nat, seconds: nat)
    requires LeadingDigits(text) == k > 0 && k + 2 <= |text| && text[k] == 'm' && text[k + 1] == ' '
    requires text[0] == '0' ==> k == 1
    requires ParseSeconds(text[k + 2..]) == Some(seconds)
    ensures ParseDurationParts(text) == Some((DigitsValue(text[..k]), seconds))
  {
    assert ParseDurationParts(text) == WithMinutes(DigitsValue(text[..k]), Some(seconds));
  }

  lemma MinutesOfFormatted(a: string, b: string, text: string)
    requires |a| > 0 && AllDigits(a) && |b| > 0 && AllDigits(b)
    requires text == a + "m " + b + "s"
    ensures LeadingDigits(text) == |a| && text[..|a|] == a
    ensures |a| + 2 <= |text| && text[|a|] == 'm' && text[|a| + 1] == ' '
    ensures text[0] == a[0]
  {
    assert text == a + ("m " + b + "s");
    LeadingDigitsOfNumeral(a, "m " + b + "s");
  }

  lemma SecondsOfFormatted(a: string, b: string, text: string)
    requires |a| > 0 && AllDigits(a) && |b| > 0 && AllDigits(b) && (b[0] == '0' ==> |b| == 1)
    requires text == a + "m " + b + "s"
    ensures ParseSeconds(text[|a| + 2..]) == Some(DigitsValue(b))
  {
    assert text[|a| + 2..] == b + "s";
    ParseSecondsOf(b);
  }

  /** "<a>m <b>s" for two numerals reads back as a minutes and b seconds. */
  lemma ParseFormatted(a: string, b: string, text: string)
    requires |a| > 0 && AllDigits(a) && |b| > 0 && AllDigits(b)
    requires (a[0] == '0' ==> |a| == 1) && (b[0] == '0' ==> |b| == 1)
    requires text == a + "m " + b + "s"
    ensures ParseDurationParts(text) == Some((DigitsValue(a), DigitsValue(b)))
  {
    MinutesOfFormatted(a, b, text);
    SecondsOfFormatted(a, b, text);
    ParseDurationOf(text, |a|, DigitsValue(b));
  }

  /** Fields are rendered without padding: no duration is shown as "1m 05s". */
  lemma NoZeroPaddedSeconds()
    ensures forall seconds: nat :: FormatDuration(seconds) != "1m 05s"
  {
    assert LeadingDigits("05s") == 2;
    assert ParseSeconds("05s") == None;
    assert ParseDurationParts("1m 05s") == None;
  }

  // ---------------------------------------------------------------------
  // The player
  // ---------------------------------------------------------------------

  /** A missing address renders as "undefined" in the announcement. */
  function AddressText(address: Option<string>): (t: string)
    ensures address.Some? ==> t == address.value
    ensures address.None? ==> t == "undefined"
  {
    address.GetOr("undefined")
  }

  const CompletedMessage := "Route replay completed"

  class RouteReplayPlayer {
    var selectedSession: Option<NavigationSession>
    var isPlaying: bool
    var currentPointIndex: nat
    ghost var spoken: seq<string>

    /** The number of points of the selected route (0 when none is selected). */
    function Points(): nat
      reads this
    {
      match selectedSession
      case Some(s) => |s.routePoints|
      case None => 0
    }

    /** The index never runs past the last point of the selected route. */
    ghost predicate Valid()
      reads this
    {
      currentPointIndex <= MaxIndex(Points())
    }

    constructor ()
      ensures Valid()
      ensures selectedSession == None && !isPlaying && currentPointIndex == 0 && spoken == []
    {
      selectedSession := None;
      isPlaying := false;
      currentPointIndex := 0;
      spoken := [];
    }

    /** `handlePlaySession`: select the session and play it from its first point. */
    method PlaySession(session: NavigationSession)
      requires Valid()
      modifies this
      ensures Valid()
      ensures selectedSession == Some(session) && currentPointIndex == 0 && isPlaying
      ensures spoken == old(spoken) + ["Playing route replay from " + AddressText(session.startAddress)
                                       + " to " + AddressText(session.endAddress)]
    {
      selectedSession := Some(session);
      currentPointIndex := 0;
      isPlaying := true;
      spoken := spoken + ["Playing route replay from " + AddressText(session.startAddress)
                          + " to " + AddressText(session.endAddress)];
    }

    /** `handlePause`. */
    method Pause()
      requires Valid()
      modifies this`isPlaying, this`spoken
      ensures Valid()
      ensures !isPlaying && currentPointIndex == old(currentPointIndex)
      ensures spoken == old(spoken) + ["Route replay paused"]
    {
      isPlaying := false;
      spoken := spoken + ["Route replay paused"];
    }

    /** `handleResume`. */
    method Resume()
      requires Valid()
      modifies this`isPlaying, this`spoken
      ensures Valid()
      ensures isPlaying && currentPointIndex == old(currentPointIndex)
      ensures spoken == old(spoken) + ["Route replay resumed"]
    {
      isPlaying := true;
      spoken := spoken + ["Route replay resumed"];
    }

    /** `handleRestart`: back to the first point, playing, whatever the state before. */
    method Restart()
      requires Valid()
      modifies this`isPlaying, this`currentPointIndex, this`spoken
      ensures Valid()
      ensures isPlaying && currentPointIndex == 0
      ensures spoken == old(spoken) + ["Route replay restarted"]
    {
      currentPointIndex := 0;
      isPlaying := true;
      spoken := spoken + ["Route replay restarted"];
    }

    /**
     * The playback effect: while playing a selected session, advance one point
     * per tick, and at the last point stop and announce completion.
     */
    method Tick()
      requires Valid()
      modifies this`isPlaying, this`currentPointIndex, this`spoken
      ensures Valid()
      ensures selectedSession.None? ==>
        isPlaying == old(isPlaying) && currentPointIndex == old(currentPointIndex) && spoken == old(spoken)
      ensures selectedSession.Some? ==>
        Playback(isPlaying, currentPointIndex) == TickStep(Playback(old(isPlaying), old(currentPointIndex)), Points())
      ensures spoken == old(spoken) +
        (if selectedSession.Some? && old(isPlaying) && old(currentPointIndex) >= Points() - 1 then [CompletedMessage] else [])
    {
      if isPlaying && selectedSession.Some? && currentPointIndex < Points() - 1 {
        currentPointIndex := currentPointIndex + 1;
      } else if isPlaying && selectedSession.Some? && currentPointIndex >= Points() - 1 {
        isPlaying := false;
        spoken := spoken + [CompletedMessage];
      }
    }
  }
}
