/** The game-over screen of js/ui/GameOverScreen.js: score, time and nick
    formatting for the results and the leaderboard, the restart-button click
    rule and the "WASTED" animation timers. Drawing is not modelled. */
module GameOver {

  import opened Common

  /** The decimal digits of `n`, most significant first (Number.toString). */
  function NatToString(n: nat): (s: string)
    ensures s != [] && forall i :: 0 <= i < |s| ==> '0' <= s[i] <= '9'
    ensures |s| > 1 ==> s[0] != '0'
  {
    if n < 10 then [DigitChar(n)] else NatToString(n / 10) + [DigitChar(n % 10)]
  }

  function DigitChar(d: nat): (c: char)
    requires d < 10
    ensures '0' <= c <= '9' && c as int - '0' as int == d
  {
    (d + '0' as int) as char
  }

  /** The value of a digit string. */
  function DigitsValue(s: string): nat
    requires forall i :: 0 <= i < |s| ==> '0' <= s[i] <= '9'
  {
    if s == [] then 0 else 10 * DigitsValue(s[..|s| - 1]) + (s[|s| - 1] as int - '0' as int)
  }

  /** Reading the digits back gives the number. */
  lemma {:induction false} NatToStringRoundTrip(n: nat)
    ensures DigitsValue(NatToString(n)) == n
  {
    var s := NatToString(n);
    if n >= 10 {
      NatToStringRoundTrip(n / 10);
      assert s[..|s| - 1] == NatToString(n / 10);
    }
  }

  /** Number.toString on an integer. */
  function IntToString(i: int): (s: string)
    ensures i >= 0 ==> s == NatToString(i)
    ensures i < 0 ==> s == "-" + NatToString(-i)
  {
    if i < 0 then "-" + NatToString(-i) else NatToString(i)
  }

  /** Put a space before every third digit from the right, except at the front. */
  function Group(s: string): (r: string)
    ensures |r| == |s| + (if s == [] then 0 else (|s| - 1) / 3)
  {
    if |s| <= 3 then s else Group(s[..|s| - 3]) + " " + s[|s| - 3..]
  }

  /** formatScore: the regular expression `\B(?=(\d{3})+(?!\d))` puts a space
      at each inner position followed by a multiple of three digits; a minus
      sign is a word boundary, so no space follows it. */
  function FormatScore(score: int): (r: string)
    ensures var digits := NatToString(if score < 0 then -score else score);
            |r| == |IntToString(score)| + (|digits| - 1) / 3
    ensures score < 0 ==> r[0] == '-'
  {
    if score < 0 then "-" + Group(NatToString(-score)) else Group(NatToString(score))
  }

  /** The grouping places a space exactly at the positions whose distance
      from the end is a multiple of four: one space before each group of
      three digits counted from the right, never at the front. */
  lemma {:induction false} GroupLayout(s: string)
    requires s != [] && forall i :: 0 <= i < |s| ==> s[i] != ' '
    ensures forall i :: 0 <= i < |Group(s)| ==> (Group(s)[i] == ' ' <==> (|Group(s)| - i) % 4 == 0)
    ensures Group(s)[0] != ' '
  {
    if |s| > 3 {
      var p := s[..|s| - 3];
      GroupLayout(p);
      var g := Group(p);
      var r := Group(s);
      assert r == g + " " + s[|s| - 3..];
      assert |r| == |g| + 4;
      forall i | 0 <= i < |r| ensures r[i] == ' ' <==> (|r| - i) % 4 == 0 {
        if i < |g| {
          assert r[i] == g[i];
          ShiftByFour(|g| - i);
        } else if i > |g| {
          assert r[i] == s[|s| - 3 + (i - |g| - 1)];
          assert 1 <= |r| - i <= 3;
        }
      }
    }
  }

  lemma ShiftByFour(k: int)
    ensures (k + 4) % 4 == k % 4
  {
  }

  /** The characters of `s` other than spaces. */
  function StripSpaces(s: string): string
  {
    if s == [] then [] else StripSpaces(s[..|s| - 1]) + (if s[|s| - 1] == ' ' then [] else [s[|s| - 1]])
  }

  lemma {:induction false} StripSpacesAppend(a: string, b: string)
    ensures StripSpaces(a + b) == StripSpaces(a) + StripSpaces(b)
  {
    if b != [] {
      assert (a + b)[..|a + b| - 1] == a + b[..|b| - 1];
      StripSpacesAppend(a, b[..|b| - 1]);
    } else {
      assert a + b == a;
    }
  }

  lemma {:induction false} StripSpacesOfDigits(s: string)
    requires forall i :: 0 <= i < |s| ==> s[i] != ' '
    ensures StripSpaces(s) == s
  {
    if s != [] {
      StripSpacesOfDigits(s[..|s| - 1]);
    }
  }

  /** Deleting the spaces from the grouped text gives back the digits. */
  lemma {:induction false} GroupRoundTrip(s: string)
    requires forall i :: 0 <= i < |s| ==> s[i] != ' '
    ensures StripSpaces(Group(s)) == s
  {
    if |s| <= 3 {
      StripSpacesOfDigits(s);
    } else {
      var p := s[..|s| - 3];
      var t := s[|s| - 3..];
      GroupRoundTrip(p);
      StripSpacesAppend(Group(p) + " ", t);
      StripSpacesAppend(Group(p), " ");
      StripSpacesOfDigits(t);
      assert StripSpaces(" ") == [];
      assert p + t == s;
    }
  }

  /** formatScore only adds spaces to score.toString(), and leaves scores
      below 1000 (and above -1000) unchanged. */
  lemma FormatScoreRoundTrip(score: int)
    ensures StripSpaces(FormatScore(score)) == IntToString(score)
    ensures -1000 < score < 1000 ==> FormatScore(score) == IntToString(score)
  {
    var n := if score < 0 then -score else score;
    var d := NatToString(n);
    GroupRoundTrip(d);
    if n < 1000 {
      SmallHasFewDigits(n);
    }
    if score < 0 {
      StripSpacesAppend("-", Group(d));
      assert StripSpaces("-") == "-" by {
        assert "-"[..0] == [];
      }
    }
  }

  lemma {:induction false} SmallHasFewDigits(n: nat)
    requires n < 1000
    ensures |NatToString(n)| <= 3
  {
    if n >= 10 {
      SmallHasFewDigits(n / 10);
    }
  }

  /** JavaScript's `%`: the sign follows the dividend. */
  function JsRem(a: int, b: int): (r: int)
    requires b > 0
    ensures a >= 0 ==> r == a % b
    ensures a < 0 ==> r <= 0
    ensures -b < r < b
  {
    if a >= 0 then a % b else -((-a) % b)
  }

  /** `mins + ':' + (secs < 10 ? '0' : '') + secs` for whole seconds
      `t`, with `Math.floor(t / 60)` minutes. */
  function TimeString(t: int): (r: string)
    ensures var m := IntToString(t / 60);
            |r| >= |m| + 2 && r[..|m|] == m && r[|m|] == ':'
  {
    var secs := JsRem(t, 60);
    IntToString(t / 60) + ":" + (if secs < 10 then "0" else "") + IntToString(secs)
  }

  /** The time of the results panel, from seconds that need not be whole. */
  function ElapsedTimeString(time: real): (r: string)
    ensures time >= 0.0 ==>
              var m := NatToString(time.Floor / 60);
              |r| == |m| + 3 && r[..|m|] == m && r[|m|] == ':' &&
              '0' <= r[|m| + 1] <= '9' && '0' <= r[|m| + 2] <= '9' &&
              60 * DigitsValue(m) + DigitsValue(r[|m| + 1..]) == time.Floor
  {
    var r := TimeString(time.Floor);
    if time >= 0.0 then
      TimeStringShape(time.Floor);
      r
    else r
  }

  /** A non-negative time reads as minutes, a colon and exactly two digits of
      seconds, which together give back the time. */
  lemma TimeStringShape(t: int)
    requires t >= 0
    ensures var s := TimeString(t);
            var m := NatToString(t / 60);
            |s| == |m| + 3 && s[..|m|] == m && s[|m|] == ':' &&
            '0' <= s[|m| + 1] <= '9' && '0' <= s[|m| + 2] <= '9' &&
            60 * DigitsValue(m) + DigitsValue(s[|m| + 1..]) == t
  {
    var secs := t % 60;
    var m := NatToString(t / 60);
    NatToStringRoundTrip(t / 60);
    NatToStringRoundTrip(secs);
    var ss := (if secs < 10 then "0" else "") + NatToString(secs);
    assert TimeString(t) == m + ":" + ss;
    if secs < 10 {
      assert NatToString(secs) == [DigitChar(secs)];
      assert DigitsValue(ss) == secs by {
        assert ss[..1] == "0";
        assert ss[..1][..0] == [];
      }
    } else {
      assert NatToString(secs) == NatToString(secs / 10) + [DigitChar(secs % 10)];
      assert NatToString(secs / 10) == [DigitChar(secs / 10)];
    }
    assert (m + ":" + ss)[|m| + 1..] == ss;
  }

  /** The leaderboard nick: at most 12 characters, or its first 12 and "...". */
  function TruncateNick(nick: string): (r: string)
    ensures |nick| <= 12 ==> r == nick
    ensures |nick| > 12 ==> |r| == 15 && r[..12] == nick[..12] && r[12..] == "..."
    ensures |r| <= 15
  {
    if |nick| > 12 then nick[..12] + "..." else nick
  }

  /** A closed rectangle on the virtual canvas. */
  datatype Rect = Rect(x: real, y: real, w: real, h: real)

  predicate Inside(r: Rect, px: real, py: real)
  {
    r.x <= px <= r.x + r.w && r.y <= py <= r.y + r.h
  }

  const AnimationDuration: real := 0.45
  const DefaultFrame: real := 0.016
  /** The shake that follows the title animation: 0.3 s, starting at 15 px
      and losing 50 px per second. */
  const ShakeDuration: real := 0.3
  const ShakeIntensity: real := 15.0
  const ShakeDecay: real := 50.0

  /** `deltaTime || 0.016`: a zero step counts as one 16 ms frame. */
  function FrameTime(dt: real): (d: real)
    ensures dt >= 0.0 ==> d > 0.0
    ensures dt != 0.0 ==> d == dt
  {
    if dt == 0.0 then DefaultFrame else dt
  }

  /** setupLayout: beside the leaderboard on short screens (height up to
      620), otherwise centred near the bottom. */
  function RestartButton(vw: real, vh: real): (r: Rect)
    ensures r.w == 250.0 && r.h == 60.0
    ensures vh <= 620.0 ==> r.x + r.w == vw - 50.0 && r.y == 350.0
    ensures vh > 620.0 ==> r.x + r.w / 2.0 == vw / 2.0 && r.y == vh - 100.0
  {
    if vh <= 620.0 then Rect(vw - 250.0 - 50.0, 350.0, 250.0, 60.0)
    else Rect(vw / 2.0 - 125.0, vh - 100.0, 250.0, 60.0)
  }

  /** How far the title animation has run, from 0 to 1. */
  function Progress(animationTime: real): (p: real)
    requires animationTime >= 0.0
    ensures 0.0 <= p <= 1.0
    ensures animationTime >= AnimationDuration <==> p == 1.0
  {
    Min(animationTime / AnimationDuration, 1.0)
  }

  /** Later times are further along. */
  lemma ProgressMonotone(t0: real, t1: real)
    requires 0.0 <= t0 <= t1
    ensures Progress(t0) <= Progress(t1)
  {
  }

  class GameOverScreen {
    const mobile: bool
    const restartButton: Rect
    var isHovered: bool
    var wastedAlpha: real
    var wastedScale: real
    var animationTime: real
    var shakeTime: real
    var shakeIntensity: real

    /** Opacity and scale follow the animation clock. */
    ghost predicate Valid()
      reads this
    {
      animationTime >= 0.0 && 0.0 <= shakeIntensity <= 15.0 &&
      wastedAlpha == Progress(animationTime) * 255.0 &&
      wastedScale == 5.0 - Progress(animationTime) * 3.8
    }

    constructor (vw: real, vh: real, isMobile: bool)
      ensures Valid() && !isHovered
      ensures mobile == isMobile && restartButton == RestartButton(vw, vh)
      ensures wastedAlpha == 0.0 && wastedScale == 5.0 && animationTime == 0.0
      ensures shakeTime == 0.0 && shakeIntensity == 0.0
    {
      mobile := isMobile;
      restartButton := RestartButton(vw, vh);
      isHovered := false;
      wastedAlpha := 0.0;
      wastedScale := 5.0;
      animationTime := 0.0;
      shakeTime := 0.0;
      shakeIntensity := 0.0;
    }

    /** reset: the animation starts over. */
    method Reset()
      modifies this`wastedAlpha, this`wastedScale, this`animationTime, this`shakeTime, this`shakeIntensity
      ensures Valid()
      ensures wastedAlpha == 0.0 && wastedScale == 5.0 && animationTime == 0.0
      ensures shakeTime == 0.0 && shakeIntensity == 0.0
    {
      wastedAlpha := 0.0;
      wastedScale := 5.0;
      animationTime := 0.0;
      shakeTime := 0.0;
      shakeIntensity := 0.0;
    }

    /** update: fade and shrink the title over 0.45 s, then shake for 0.3 s
        with a fading intensity; on desktop, hover follows the cursor.
        A zero `dt` counts as one 16 ms frame (`deltaTime || 0.016`). */
    method Update(px: real, py: real, dt: real)
      requires Valid() && dt >= 0.0
      modifies this
      ensures Valid()
      ensures 0.0 <= wastedAlpha <= 255.0 && 1.2 <= wastedScale <= 5.0
      ensures wastedAlpha >= old(wastedAlpha) && wastedScale <= old(wastedScale)
      ensures animationTime >= old(animationTime)
      ensures old(animationTime) < AnimationDuration <= animationTime ==>
                wastedAlpha == 255.0 && wastedScale == 1.2
      ensures old(animationTime) >= AnimationDuration ==>
                wastedAlpha == old(wastedAlpha) && wastedScale == old(wastedScale) &&
                animationTime == old(animationTime)
      ensures old(animationTime) < AnimationDuration ==>
                animationTime == old(animationTime) + FrameTime(dt)
      ensures var started := old(animationTime) < AnimationDuration <= animationTime;
              var st := if started then ShakeDuration else old(shakeTime);
              var si := if started then ShakeIntensity else old(shakeIntensity);
              (st > 0.0 ==> shakeTime == st - FrameTime(dt) &&
                            shakeIntensity == Max(0.0, si - FrameTime(dt) * ShakeDecay)) &&
              (st <= 0.0 ==> shakeTime == st && shakeIntensity == si)
      ensures !mobile ==> (isHovered <==> Inside(restartButton, px, py))
      ensures mobile ==> isHovered == old(isHovered)
    {
      var d := FrameTime(dt);
      if animationTime < AnimationDuration {
        animationTime := animationTime + d;
        var progress := Min(animationTime / AnimationDuration, 1.0);
        ProgressMonotone(old(animationTime), animationTime);
        wastedAlpha := progress * 255.0;
        wastedScale := 5.0 - progress * 3.8;
        if animationTime >= AnimationDuration {
          shakeTime := ShakeDuration;
          shakeIntensity := ShakeIntensity;
        }
      }
      if shakeTime > 0.0 {
        shakeTime := shakeTime - d;
        shakeIntensity := Max(0.0, shakeIntensity - d * ShakeDecay);
      }
      if !mobile {
        isHovered := Inside(restartButton, px, py);
      }
    }

    /** handleClick: on mobile a click inside the closed button rectangle,
        on desktop a click while hovered, asks for a restart. */
    function HandleClick(px: real, py: real): (restart: bool)
      reads this
      ensures mobile ==> (restart <==> Inside(restartButton, px, py))
      ensures !mobile ==> (restart <==> isHovered)
    {
      if mobile then Inside(restartButton, px, py) else isHovered
    }
  }
}
