/**
 * The playback controls under the canvas: the "m:ss" time formatter, the
 * play/pause toggle, the black wrapper shown in fullscreen, and teardown.
 * DOM elements are reduced to the state the handlers change.
 */
module Controls {
  import opened Wrappers

  predicate IsDigit(c: char) {
    '0' <= c <= '9'
  }

  predicate AllDigits(s: string) {
    forall i :: 0 <= i < |s| ==> IsDigit(s[i])
  }

  /** The number a string of decimal digits denotes (the reading back of a formatted field). */
  function DecimalValue(s: string): nat
    requires AllDigits(s)
  {
    if s == [] then 0 else 10 * DecimalValue(s[..|s| - 1]) + (s[|s| - 1] as int - '0' as int)
  }

  function DigitChar(d: nat): (c: char)
    requires d < 10
    ensures IsDigit(c) && c as int - '0' as int == d
  {
    (d + '0' as int) as char
  }

  /** The decimal rendering of n, as JavaScript prints a whole number: no leading zero. */
  function Decimal(n: nat): (s: string)
    ensures |s| >= 1 && AllDigits(s) && DecimalValue(s) == n
    ensures s[0] == '0' ==> n == 0 && |s| == 1
    ensures n < 10 ==> |s| == 1
    ensures n >= 10 ==> |s| >= 2
  {
    if n < 10 then [DigitChar(n)]
    else
      var s := Decimal(n / 10) + [DigitChar(n % 10)];
      assert s[..|s| - 1] == Decimal(n / 10);
      s
  }

  /**
   * `formatTime` for a whole number of seconds: minutes, a colon, and the
   * seconds field padded to two digits. Reading the two fields back gives the
   * minutes and the seconds below 60 that make up the input.
   */
  function FormatTime(seconds: nat): (r: string)
    ensures |r| >= 4 && r[|r| - 3] == ':'
    ensures AllDigits(r[..|r| - 3]) && AllDigits(r[|r| - 2..])
    ensures DecimalValue(r[..|r| - 3]) == seconds / 60
    ensures DecimalValue(r[|r| - 2..]) == seconds % 60 < 60
    ensures r[0] == '0' ==> |r| == 4
    // the seconds field gets a leading '0' iff it is below 10
    ensures r[|r| - 2] == '0' <==> seconds % 60 < 10
  {
    var field := Padded(seconds % 60);
    PaddedField(seconds % 60);
    var r := Decimal(seconds / 60) + ":" + field;
    assert r[..|r| - 3] == Decimal(seconds / 60);
    assert r[|r| - 2..] == field;
    r
  }

  /** The seconds field: a '0' in front of a single digit. */
  function Padded(s: nat): string {
    (if s < 10 then "0" else "") + Decimal(s)
  }

  lemma PaddedField(s: nat)
    requires s < 60
    ensures |Padded(s)| == 2 && AllDigits(Padded(s)) && DecimalValue(Padded(s)) == s
    ensures Padded(s)[0] == '0' <==> s < 10
  {
    var f := Padded(s);
    if s < 10 {
      assert f[..1] == "0";
    } else {
      assert f == Decimal(s);
    }
  }

  /** A formatted time determines the seconds it was made from. */
  lemma FormatTimeInjective(a: nat, b: nat)
    requires FormatTime(a) == FormatTime(b)
    ensures a == b
  {
    var r := FormatTime(a);
    assert a / 60 == DecimalValue(r[..|r| - 3]) == b / 60;
    assert a % 60 == DecimalValue(r[|r| - 2..]) == b % 60;
    assert a == 60 * (a / 60) + a % 60;
    assert b == 60 * (b / 60) + b % 60;
  }

  /** Concrete renderings. */
  lemma FormatTimeExamples()
    ensures FormatTime(0) == "0:00"
    ensures FormatTime(75) == "1:15"
    ensures FormatTime(605) == "10:05"
  {
  }

  /** A request the controls issue to the video element. */
  datatype VideoRequest = Play | Pause

  /** The text `updateTimeDisplay` shows; a missing duration (NaN) counts as 0. */
  function TimeText(currentTime: nat, duration: Option<nat>): (t: string)
    ensures duration.None? ==> t == FormatTime(currentTime) + " / 0:00"
  {
    FormatTime(currentTime) + " / " + FormatTime(duration.GetOr(0))
  }

  /** The initial "0:00 / 0:00" is what the display shows at time 0 with no duration. */
  lemma InitialTimeText()
    ensures TimeText(0, None) == "0:00 / 0:00"
  {
    FormatTimeExamples();
  }

  class CanvasControls {
    var isPlaying: bool
    var playPauseLabel: string
    var timeText: string
    /** The fullscreen wrapper, by handle, if one is shown. */
    var wrapperDiv: Option<nat>
    /** The wrappers currently attached to the page body. */
    var bodyWrappers: set<nat>
    var nextWrapper: nat
    /** Whether the fullscreenchange handler is registered. */
    var listening: bool
    /** Whether the container has been removed from the page. */
    var removed: bool
    var requests: seq<VideoRequest>

    ghost predicate Valid()
      reads this
    {
      && (wrapperDiv.Some? ==> wrapperDiv.value in bodyWrappers)
      && forall w :: w in bodyWrappers ==> w < nextWrapper
    }

    constructor ()
      ensures Valid()
      ensures isPlaying && playPauseLabel == "Pause"
      ensures timeText == "0:00 / 0:00" && timeText == TimeText(0, None)
      ensures wrapperDiv == None && bodyWrappers == {} && listening && !removed && requests == []
    {
      isPlaying := true;
      playPauseLabel := "Pause";
      timeText := "0:00 / 0:00";
      wrapperDiv := None;
      bodyWrappers := {};
      nextWrapper := 0;
      listening := true;
      removed := false;
      requests := [];
      InitialTimeText();
    }

    /** The play/pause button's click handler. */
    method TogglePlayPause()
      modifies this`isPlaying, this`playPauseLabel, this`requests
      ensures isPlaying == !old(isPlaying)
      ensures playPauseLabel == if isPlaying then "Pause" else "Play"
      ensures requests == old(requests) + [if isPlaying then Play else Pause]
    {
      isPlaying := !isPlaying;
      playPauseLabel := if isPlaying then "Pause" else "Play";
      if isPlaying {
        requests := requests + [Play];
      } else {
        requests := requests + [Pause];
      }
    }

    /** The fullscreenchange handler; `isFullscreen` says whether the canvas is now the fullscreen element. */
    method OnFullscreenChange(isFullscreen: bool)
      requires Valid()
      modifies this`wrapperDiv, this`bodyWrappers, this`nextWrapper
      ensures Valid()
      ensures isFullscreen ==> wrapperDiv == Some(old(nextWrapper)) && bodyWrappers == old(bodyWrappers) + {old(nextWrapper)}
      ensures isFullscreen ==> old(nextWrapper) !in old(bodyWrappers)
      ensures !isFullscreen ==> wrapperDiv == None && nextWrapper == old(nextWrapper)
      ensures !isFullscreen && old(wrapperDiv).Some? ==> bodyWrappers == old(bodyWrappers) - {old(wrapperDiv).value}
      ensures !isFullscreen && old(wrapperDiv).None? ==> bodyWrappers == old(bodyWrappers)
    {
      if isFullscreen {
        var wrapper := nextWrapper;
        nextWrapper := nextWrapper + 1;
        bodyWrappers := bodyWrappers + {wrapper};
        wrapperDiv := Some(wrapper);
      } else {
        if wrapperDiv.Some? {
          bodyWrappers := bodyWrappers - {wrapperDiv.value};
          wrapperDiv := None;
        }
      }
    }

    method UpdateTimeDisplay(currentTime: nat, duration: Option<nat>)
      modifies this`timeText
      ensures timeText == TimeText(currentTime, duration)
    {
      var current := FormatTime(currentTime);
      var total := FormatTime(duration.GetOr(0));
      timeText := current + " / " + total;
    }

    method Destroy()
      requires Valid()
      modifies this`isPlaying, this`wrapperDiv, this`bodyWrappers, this`listening, this`removed
      ensures Valid()
      ensures !isPlaying && wrapperDiv == None && !listening && removed
      ensures old(wrapperDiv).Some? ==> bodyWrappers == old(bodyWrappers) - {old(wrapperDiv).value}
      ensures old(wrapperDiv).None? ==> bodyWrappers == old(bodyWrappers)
    {
      isPlaying := false;
      if wrapperDiv.Some? {
        bodyWrappers := bodyWrappers - {wrapperDiv.value};
        wrapperDiv := None;
      }
      listening := false;
      removed := true;
    }
  }
}
