/** The admin's activity log page: the rendering of a session length in
    minutes. */
module ActivityLogsPage {
  import opened Common
  import Text

  /** JavaScript's `%`: the remainder takes the sign of the dividend. */
  function JsRem(a: int, b: int): (r: int)
    requires b > 0
    ensures a >= 0 ==> 0 <= r < b && r == a % b
    ensures a < 0 ==> -b < r <= 0
    ensures (a - r) % b == 0
  {
    if a >= 0 then
      assert a - a % b == b * (a / b);
      MultipleHasNoRemainder(b, a / b);
      a % b
    else
      var q := (-a) / b;
      assert a - -((-a) % b) == b * -q;
      MultipleHasNoRemainder(b, -q);
      -((-a) % b)
  }

  lemma MultipleHasNoRemainder(b: int, m: int)
    requires b > 0
    ensures (b * m) % b == 0
  {
    var x := b * m;
    var t := m - x / b;
    assert x % b == b * t;
    MultipleOfPositive(b, t);
  }

  lemma MultipleOfPositive(b: int, t: int)
    requires b > 0
    ensures t >= 1 ==> b * t >= b
    ensures t <= -1 ==> b * t <= -b
  {
    if t >= 1 {
      assert b * t == b + b * (t - 1);
    } else if t <= -1 {
      assert b * t == -b + b * (t + 1);
    }
  }

  /** `formatDuration`: "Active" for a missing or zero length, otherwise
      whole hours (rounded down) and the remaining minutes, the hours only
      when there are some. */
  function FormatDuration(minutes: Option<int>): string {
    if minutes.None? || minutes.value == 0 then "Active"
    else
      var m := minutes.value;
      var hours := m / 60;
      var mins := JsRem(m, 60);
      if hours > 0 then Text.IntToString(hours) + "h " + Text.IntToString(mins) + "m"
      else Text.IntToString(mins) + "m"
  }

  /** The two numbers a positive length is shown as. */
  function Parts(m: int): (p: (int, int))
    requires m > 0
    ensures p.0 >= 0 && 0 <= p.1 < 60 && 60 * p.0 + p.1 == m
  {
    (m / 60, JsRem(m, 60))
  }

  /** A positive length reads "Hh Mm" with its hours and minutes, or "Mm"
      when it is under an hour; a missing or zero length reads "Active". */
  lemma DurationShape(m: int)
    ensures FormatDuration(None) == "Active" && FormatDuration(Some(0)) == "Active"
    ensures m >= 60 ==>
              FormatDuration(Some(m)) == Text.NatToString(Parts(m).0) + "h " + Text.NatToString(Parts(m).1) + "m"
    ensures 0 < m < 60 ==> FormatDuration(Some(m)) == Text.NatToString(m) + "m"
  {
  }

  /** No positive length reads "Active", and different positive lengths
      read differently, so the text determines the length. */
  lemma DurationInjective(m: int, n: int)
    requires m > 0 && n > 0 && m != n
    ensures FormatDuration(Some(m)) != "Active"
    ensures FormatDuration(Some(m)) != FormatDuration(Some(n))
  {
    DurationShape(m);
    DurationShape(n);
    var s := FormatDuration(Some(m));
    var t := FormatDuration(Some(n));
    if m >= 60 && n >= 60 {
      if s == t {
        var hm, mm := Text.NatToString(Parts(m).0), Text.NatToString(Parts(m).1);
        var hn, mn := Text.NatToString(Parts(n).0), Text.NatToString(Parts(n).1);
        assert s == hm + ['h'] + (" " + mm + "m");
        assert t == hn + ['h'] + (" " + mn + "m");
        Text.SplitAtFirstChar(hm, " " + mm + "m", hn, " " + mn + "m", 'h');
        assert mm == (" " + mm + "m")[1..|mm| + 1];
        assert mn == (" " + mn + "m")[1..|mn| + 1];
        Text.NatToStringInjective(Parts(m).0, Parts(n).0);
        Text.NatToStringInjective(Parts(m).1, Parts(n).1);
      }
    } else if m < 60 && n < 60 {
      if s == t {
        assert Text.NatToString(m) == s[..|s| - 1];
        assert Text.NatToString(n) == t[..|t| - 1];
        Text.NatToStringInjective(m, n);
      }
    } else {
      // one length has hours and the other does not: only one text holds an 'h'
      var long := if m >= 60 then m else n;
      var short := if m >= 60 then n else m;
      var hs := Text.NatToString(Parts(long).0);
      assert FormatDuration(Some(long))[|hs|] == 'h';
      var ss := Text.NatToString(short) + "m";
      assert forall i :: 0 <= i < |ss| ==> ss[i] != 'h';
      assert FormatDuration(Some(short)) == ss;
    }
  }
}
