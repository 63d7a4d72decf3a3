// The call limit option of Dial (do_timelimit of apps/app_dial.c). Times are milliseconds.
module DialLimit {
  import opened Prelude

  // A first warning after the end of the call is taken back by whole intervals.
  function Cut(warning: int, limit: int, w: int): int
    requires warning > limit && w != 0
  {
    warning - w * (1 + CDiv(warning - limit - 1, w))
  }

  // What that is meant to be.
  function TakenBack(warning: int, limit: int, w: nat): int
    requires w > 0
    decreases warning - limit
  {
    if warning <= limit then warning else TakenBack(warning - w, limit, w)
  }

  datatype Config = Config(timelimit: int, playWarning: int, warningFreq: int)

  function Limited(limit: int, warning: int, w: int): Config {
    if limit == 0 then Config(0, 0, 0)
    else if warning <= limit then Config(limit, warning, w)
    else if w == 0 then Config(limit, 0, 0)
    else if Cut(warning, limit, w) < 1 then Config(limit, 0, 0)
    else Config(limit, Cut(warning, limit, w), w)
  }

  lemma CutOnce(warning: int, limit: int, w: int)
    requires w > 0 && warning - w > limit
    ensures Cut(warning, limit, w) == Cut(warning - w, limit, w)
  {
    var d := warning - limit - 1;
    DivLess(d, w);
    assert w * (1 + d / w) == w + w * (1 + (d - w) / w);
  }

  lemma DivLess(d: int, w: int)
    requires w > 0 && d >= w
    ensures d / w == (d - w) / w + 1
  {
    var q, r := d / w, d % w;
    assert d - w == w * (q - 1) + r;
    QuotientIs(d - w, w, q - 1, r);
  }

  lemma QuotientIs(d: int, w: int, q: int, r: int)
    requires w > 0 && 0 <= r < w && d == w * q + r
    ensures d / w == q
  {
    var q1, r1 := d / w, d % w;
    var k := q1 - q;
    assert w * q1 + r1 == w * q + r;
    Distributes(w, q1, q);
    assert w * k == r - r1;
    if k >= 1 {
      AtLeast(w, k);
    } else if k <= -1 {
      AtLeast(w, -k);
    }
  }

  lemma Distributes(w: int, a: int, b: int)
    ensures w * (a - b) == w * a - w * b
  {
  }

  lemma AtLeast(w: int, k: int)
    requires w > 0 && k >= 1
    ensures w * k >= w && w * -k <= -w
  {
  }

  // The closed form is repeated subtraction.
  lemma {:induction false} CutTakesBack(warning: int, limit: int, w: nat)
    requires w > 0 && warning > limit
    ensures Cut(warning, limit, w) == TakenBack(warning, limit, w)
    decreases warning - limit
  {
    if warning - w > limit {
      CutOnce(warning, limit, w);
      CutTakesBack(warning - w, limit, w);
    } else {
      QuotientIs(warning - limit - 1, w, 0, warning - limit - 1);
      assert TakenBack(warning, limit, w) == warning - w;
    }
  }

  // And that is the latest time within the limit that keeps the rhythm.
  lemma {:induction false} TakenBackLatest(warning: int, limit: int, w: nat)
    requires w > 0
    ensures var t := TakenBack(warning, limit, w);
      && t <= limit && t <= warning
      && (warning > limit ==> limit < t + w)
      && exists n: nat :: warning == t + n * w
    decreases warning - limit
  {
    var t := TakenBack(warning, limit, w);
    if warning <= limit {
      assert warning == t + 0 * w;
    } else {
      TakenBackLatest(warning - w, limit, w);
      var n: nat :| warning - w == t + n * w;
      assert warning == t + (n + 1) * w;
    }
  }

  // A negative interval moves a warning that is too late no further than to after the call.
  lemma CutIff(warning: int, limit: int, w: int)
    requires warning > limit && w != 0
    ensures Cut(warning, limit, w) <= limit <==> w > 0
  {
    if w > 0 {
      CutTakesBack(warning, limit, w);
      TakenBackLatest(warning, limit, w);
    } else {
      var d, v := warning - limit - 1, -w;
      assert d == v * (d / v) + d % v;
      assert w * (1 - d / v) == -v + v * (d / v);
    }
  }

  // With a limit in force the first warning is within the call, unless it was asked for after
  // its end with a negative interval.
  lemma WarningInCallIff(limit: int, warning: int, w: int)
    requires limit > 0
    ensures Limited(limit, warning, w).playWarning <= limit <==> warning <= limit || w >= 0
  {
    if warning > limit && w != 0 {
      CutIff(warning, limit, w);
    }
  }

  // Which warning a limit leaves: the one asked for if it is within the limit, else the latest within
  // the limit in the same rhythm if there is one, and none at all if there is no rhythm or no time.
  lemma WarningIs(limit: int, warning: int, w: nat)
    ensures Limited(0, warning, w) == Config(0, 0, 0)
    ensures limit != 0 && warning <= limit ==> Limited(limit, warning, w) == Config(limit, warning, w)
    ensures limit != 0 && warning > limit && w == 0 ==> Limited(limit, warning, w) == Config(limit, 0, 0)
    ensures limit != 0 && warning > limit && w > 0 ==>
      Limited(limit, warning, w) ==
        if TakenBack(warning, limit, w) >= 1 then Config(limit, TakenBack(warning, limit, w), w) else Config(limit, 0, 0)
  {
    if warning > limit && w > 0 {
      CutTakesBack(warning, limit, w);
    }
  }

  // With a negative interval a late warning is moved to between one and two intervals after the end.
  lemma NegativeInterval(limit: int, warning: int, v: int)
    requires v > 0 && limit > 0 && warning > limit
    ensures Limited(limit, warning, -v) == Config(limit, limit + 1 + v + (warning - limit - 1) % v, -v)
  {
    var d := warning - limit - 1;
    assert d == v * (d / v) + d % v;
    assert CDiv(d, -v) == -(d / v);
    assert -v * (1 - d / v) == -v + v * (d / v);
  }

  class BridgeConfig {
    var timelimit: int
    var playWarning: int
    var warningFreq: int

    ghost function View(): Config
      reads this
    {
      Config(timelimit, playWarning, warningFreq)
    }

    // The fields of the option after atol; the last two may be missing.
    method DoTimelimit(limit: int, warning: Option<int>, freq: Option<int>) returns (res: int)
      modifies this
      ensures res == if limit == 0 then -1 else 0
      ensures View() == Limited(limit, if warning.Some? then warning.value else old(playWarning),
                                if freq.Some? then freq.value else old(warningFreq))
    {
      timelimit := limit;
      if warning.Some? {
        playWarning := warning.value;
      }
      if freq.Some? {
        warningFreq := freq.value;
      }
      if timelimit == 0 {
        timelimit, playWarning, warningFreq := 0, 0, 0;
        return -1;
      }
      var delta := playWarning - timelimit;
      if delta > 0 {
        var w := warningFreq;
        if w == 0 {
          playWarning := 0;
        } else {
          playWarning := playWarning - w * (1 + CDiv(delta - 1, w));
          if playWarning < 1 {
            playWarning, warningFreq := 0, 0;
          }
        }
      }
      return 0;
    }
  }
}
