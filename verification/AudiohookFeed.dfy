// Which voice frames cannot be fed to a spying audiohook (main/audiohook.c:593-616 with
// main/slinfactory.c:73-121 and main/translate.c:263-381).
//
// Frames are brought to signed linear first, so a factory should never meet another format. It
// does when the translator kept for a direction is missing although the format noted beside it is
// that of the frame: tris_translate on no path returns the frame as it came.
module AudiohookFeed {
  import opened Prelude

  const SLINEAR := 64

  // `timed` says that the frame has a delivery time.
  datatype Frame = Frame(format: int, timed: bool, hasData: bool)

  // struct tris_audiohook_translate: the format noted, and whether there is a path.
  datatype Slot = Slot(format: int, path: bool)

  // The translator of a signed linear factory.
  datatype Factory = Factory(format: int, path: bool)

  datatype Feed = Feed(slot: Slot, factory: Factory)

  const FRESH := Feed(Slot(0, false), Factory(0, false))

  // Whether a path from the frame's format can be built, first for the list and then for the
  // factory, and whether the translator has a frame to give yet.
  datatype Luck = Luck(builds: bool, feeds: bool, gives: bool)

  // What becomes of a frame: not offered to the audiohook, an access through a null path, fed, or
  // refused by the factory.
  datatype Outcome = NotOffered | NullPath | Fed | Refused

  datatype Passed = Passed(feed: Feed, outcome: Outcome)

  // tris_slinfactory_feed
  function Offer(s: Feed, f: Frame, feeds: bool): Passed {
    if !f.hasData then Passed(s, Fed)
    else if f.format == SLINEAR then Passed(s.(factory := s.factory.(path := false)), Fed)
    else if s.factory.path && s.factory.format == f.format then Passed(s, Fed)
    else if feeds then Passed(s.(factory := Factory(f.format, true)), Fed)
    else Passed(s.(factory := s.factory.(path := false)), Refused)
  }

  // The head of audio_audiohook_write_list and one spy.
  function Pass(s: Feed, f: Frame, luck: Luck): Passed {
    if f.format == SLINEAR then Offer(s, f, luck.feeds)
    else if s.slot.format != f.format && !luck.builds then Passed(s.(slot := s.slot.(path := false)), NotOffered)
    else
      var s1 := if s.slot.format != f.format then s.(slot := Slot(f.format, true)) else s;
      if s1.slot.path then
        if luck.gives then Offer(s1, Frame(SLINEAR, f.timed, true), luck.feeds) else Passed(s1, NotOffered)
      else if f.timed then Passed(s1, NullPath)
      else Offer(s1, f, luck.feeds)
  }

  datatype Arrival = Arrival(frame: Frame, luck: Luck)

  function After(arrivals: seq<Arrival>): Feed {
    if arrivals == [] then FRESH
    else
      var n := |arrivals| - 1;
      Pass(After(arrivals[..n]), arrivals[n].frame, arrivals[n].luck).feed
  }

  predicate RefusedAt(arrivals: seq<Arrival>, n: nat)
    requires n < |arrivals|
  {
    Pass(After(arrivals[..n]), arrivals[n].frame, arrivals[n].luck).outcome == Refused
  }

  // A frame is refused exactly when its format is the one noted, the path for it has been lost, and
  // the factory has no path for it either and cannot get one.
  lemma RefusedIff(s: Feed, f: Frame, luck: Luck)
    ensures Pass(s, f, luck).outcome == Refused <==>
      && f.format != SLINEAR && s.slot == Slot(f.format, false) && !f.timed && f.hasData
      && s.factory != Factory(f.format, true) && !luck.feeds
  {
  }

  // A signed linear frame is fed as it is. Any other is offered to the audiohook when the path for its
  // format, noted or new, gives a frame; without a new path it is not, and with a lost one it is
  // offered as it came, or, if it has a delivery time, read through a null path.
  lemma OutcomeIs(s: Feed, f: Frame, luck: Luck)
    ensures var noted, outcome := s.slot.format == f.format, Pass(s, f, luck).outcome;
      && (f.format == SLINEAR ==> outcome == Fed)
      && (f.format != SLINEAR && !noted ==> outcome == if luck.builds && luck.gives then Fed else NotOffered)
      && (f.format != SLINEAR && noted && s.slot.path ==> outcome == if luck.gives then Fed else NotOffered)
      && (f.format != SLINEAR && noted && !s.slot.path ==>
            if f.timed then outcome == NullPath else outcome == Fed || outcome == Refused)
  {
  }

  // The format of the last frame whose path was built stays noted; its path goes when another format
  // has none.
  lemma SlotIs(s: Feed, f: Frame, luck: Luck)
    ensures Pass(s, f, luck).feed.slot ==
      if f.format == SLINEAR || s.slot.format == f.format then s.slot
      else if luck.builds then Slot(f.format, true) else Slot(s.slot.format, false)
  {
  }

  // Whether a path can be built depends on the format alone, as long as no translator comes or goes
  // and memory lasts; for a frame without a format it never can.
  ghost predicate Steady(can: int -> bool, arrivals: seq<Arrival>) {
    !can(0) && forall i :: 0 <= i < |arrivals| ==>
      arrivals[i].luck.builds == arrivals[i].luck.feeds == can(arrivals[i].frame.format)
  }

  // No format has been noted yet.
  predicate NothingNoted(can: int -> bool, arrivals: seq<Arrival>) {
    forall i :: 0 <= i < |arrivals| ==> arrivals[i].frame.format == SLINEAR || !can(arrivals[i].frame.format)
  }

  lemma {:induction false} SteadyFeed(can: int -> bool, arrivals: seq<Arrival>)
    requires Steady(can, arrivals)
    ensures var s := After(arrivals);
      && (s.slot.format == 0 <==> NothingNoted(can, arrivals))
      && (s.slot.format != 0 ==> can(s.slot.format))
      && (s.slot.format == 0 ==> !s.slot.path)
      && (s.factory.path ==> can(s.factory.format))
  {
    if arrivals != [] {
      var n := |arrivals| - 1;
      var before, f := arrivals[..n], arrivals[n].frame;
      assert Steady(can, before);
      SteadyFeed(can, before);
      assert arrivals == before + [arrivals[n]];
      assert NothingNoted(can, arrivals) <==> NothingNoted(can, before) && (f.format == SLINEAR || !can(f.format));
    }
  }

  // While translators stay as they are, the frames refused are exactly those that have data but no
  // format and no delivery time and come before any frame that can be translated.
  lemma SteadyRefusedIff(can: int -> bool, arrivals: seq<Arrival>, n: nat)
    requires Steady(can, arrivals) && n < |arrivals|
    ensures var f := arrivals[n].frame;
      RefusedAt(arrivals, n) <==> f.format == 0 && !f.timed && f.hasData && NothingNoted(can, arrivals[..n])
  {
    assert Steady(can, arrivals[..n]);
    SteadyFeed(can, arrivals[..n]);
    RefusedIff(After(arrivals[..n]), arrivals[n].frame, arrivals[n].luck);
  }

  // Otherwise a frame with a format is refused too: a translator is found, lost to a frame of
  // another format that has none, and gone when the first format comes again.
  lemma LostTranslatorRefuses(format: int, other: int)
    requires format != SLINEAR && other != SLINEAR && format != other && format != 0
    ensures var f := Frame(format, false, true);
      RefusedAt([Arrival(f, Luck(true, true, true)), Arrival(Frame(other, false, true), Luck(false, false, false)),
                 Arrival(f, Luck(false, false, false))], 2)
  {
    var f, g := Frame(format, false, true), Frame(other, false, true);
    var none := Luck(false, false, false);
    var a, b, c := Arrival(f, Luck(true, true, true)), Arrival(g, none), Arrival(f, none);
    assert [a, b, c][..2] == [a, b] && [a, b][..1] == [a] && [a][..0] == [];
    assert After([a]) == Feed(Slot(format, true), Factory(0, false));
    assert After([a, b]) == Feed(Slot(format, false), Factory(0, false)) by {
      assert other != After([a]).slot.format;
    }
  }
}
