// The answering machine detector (apps/app_amd.c): a loop over the frames of a call that gives a
// verdict from word lengths and silences. Times are milliseconds.
module Amd {
  import opened Prelude

  // The application's arguments; nothing stops them from being zero or negative.
  datatype Params = Params(
    initialSilence: int, greeting: int, afterGreetingSilence: int, totalAnalysisTime: int,
    minimumWordLength: int, betweenWordsSilence: int, maximumNumberOfWords: int, maximumWordLength: int)

  const DFLT_MAX_WAIT_TIME_FOR_FRAME := 50

  function Min(a: int, b: int): int { if a > b then b else a }

  function MaxWait(p: Params): (w: int)
    ensures w <= p.totalAnalysisTime && w <= p.minimumWordLength && w <= p.betweenWordsSilence
  {
    Min(Min(Min(Min(Min(Min(DFLT_MAX_WAIT_TIME_FOR_FRAME, p.initialSilence), p.greeting),
      p.afterGreetingSilence), p.totalAnalysisTime), p.minimumWordLength), p.betweenWordsSilence)
  }

  // What tris_read gives; a voice frame comes with its length and with the silence the detector
  // reports for it.
  datatype Frame = HungUp | Voice(length: nat, silence: nat) | Null | Cng | Other {
    predicate Counts() { Voice? || Null? || Cng? }
  }

  // One turn of the loop: what tris_waitfor returned, and the frame.
  datatype Event = Event(wait: nat, frame: Frame)

  datatype Cause =
    | Hangup
    | TooLong(time: int)
    | InitialSilence(silence: int)
    | Human(silence: int)
    | MaxWordLength(length: int)
    | MaxWords(words: nat)
    | LongGreeting(voice: int)
    | NoCause

  datatype Input = Input(framelength: int, dspsilence: int, totalTime: int)

  datatype Talk = Talk(words: nat, inWord: bool, consecutive: int, voice: int, silence: int)

  datatype State = State(input: Input, talk: Talk, inInitialSilence: bool, inGreeting: bool)

  const START := State(Input(0, 0, 0), Talk(0, true, 0, 0, 0), true, false)

  datatype Turn = Turn(state: State, verdict: Option<Cause>)

  function Hear(p: Params, i: Input, f: Frame): Input
    requires f.Counts()
  {
    var length := if f.Voice? then f.length else i.framelength + 2 * MaxWait(p);
    Input(length, if f.Voice? then f.silence else i.dspsilence + 2 * MaxWait(p), i.totalTime + length)
  }

  function Silent(p: Params, s: State): Turn {
    var silence := s.input.dspsilence;
    var t := s.talk.(silence := silence);
    var talk := if silence >= p.betweenWordsSilence then t.(inWord := false, consecutive := 0) else t;
    var s1 := s.(talk := talk);
    if s.inInitialSilence && silence >= p.initialSilence then Turn(s1, Some(InitialSilence(silence)))
    else if silence >= p.afterGreetingSilence && s.inGreeting then Turn(s1, Some(Human(silence)))
    else Turn(s1, None)
  }

  function Spoken(p: Params, t: Talk, length: int): Talk {
    var consecutive := t.consecutive + length;
    var word := consecutive >= p.minimumWordLength && !t.inWord;
    Talk(if word then t.words + 1 else t.words, t.inWord || word, consecutive, t.voice + length, t.silence)
  }

  function Speak(p: Params, s: State): Turn {
    var t := Spoken(p, s.talk, s.input.framelength);
    var s1 := s.(talk := t);
    if t.consecutive >= p.maximumWordLength then Turn(s1, Some(MaxWordLength(t.consecutive)))
    else if t.words >= p.maximumNumberOfWords then Turn(s1, Some(MaxWords(t.words)))
    else if s.inGreeting && t.voice >= p.greeting then Turn(s1, Some(LongGreeting(t.voice)))
    else
      var s2 := if t.voice >= p.minimumWordLength then s1.(talk := t.(silence := 0)) else s1;
      if t.consecutive >= p.minimumWordLength && !s.inGreeting then
        Turn(s2.(inInitialSilence := false, inGreeting := true), None)
      else Turn(s2, None)
  }

  function Step(p: Params, s: State, f: Frame): Turn {
    if f.HungUp? then Turn(s, Some(Hangup))
    else if !f.Counts() then Turn(s, None)
    else
      var s1 := s.(input := Hear(p, s.input, f));
      if s1.input.totalTime >= p.totalAnalysisTime then Turn(s1, Some(TooLong(s1.input.totalTime)))
      else if s1.input.dspsilence > 0 then Silent(p, s1)
      else Speak(p, s1)
  }

  // The wait is the least of seven times, which no frame exceeds that brings no sound of its own.
  lemma MaxWaitLeast(p: Params)
    ensures var times := [50, p.initialSilence, p.greeting, p.afterGreetingSilence, p.totalAnalysisTime,
                          p.minimumWordLength, p.betweenWordsSilence];
      MaxWait(p) in times && forall t <- times :: MaxWait(p) <= t
  {
    var times := [50, p.initialSilence, p.greeting, p.afterGreetingSilence, p.totalAnalysisTime,
                  p.minimumWordLength, p.betweenWordsSilence];
    assert times[0] == 50 && times[1] == p.initialSilence && times[2] == p.greeting && times[3] == p.afterGreetingSilence
      && times[4] == p.totalAnalysisTime && times[5] == p.minimumWordLength && times[6] == p.betweenWordsSilence;
  }

  // The state after some frames, and the verdict if one of them brought it.
  function Run(p: Params, frames: seq<Frame>): Turn {
    if frames == [] then Turn(START, None)
    else
      var before := Run(p, frames[..|frames| - 1]);
      if before.verdict.Some? then before else Step(p, before.state, frames[|frames| - 1])
  }

  // ------------------------------------------------------------------------ times are bounded

  predicate Bounded(p: Params, s: State) {
    s.talk.words * p.minimumWordLength <= s.talk.voice <= s.input.totalTime
  }

  predicate TalkOk(p: Params, s: State) {
    var t := s.talk;
    && 0 <= t.consecutive && 0 <= s.input.framelength && t.voice <= s.input.totalTime
    && t.words * p.minimumWordLength + (if t.inWord then 0 else t.consecutive) <= t.voice
  }

  // A frame that is heard.
  lemma HeardBounded(p: Params, s: State, f: Frame)
    requires MaxWait(p) >= 0 && TalkOk(p, s) && f.Counts()
    ensures var s1 := s.(input := Hear(p, s.input, f));
      TalkOk(p, s1) && TalkOk(p, s1.(talk := Spoken(p, s.talk, s1.input.framelength)))
  {
    assert (s.talk.words + 1) * p.minimumWordLength == s.talk.words * p.minimumWordLength + p.minimumWordLength;
  }

  lemma StepBounded(p: Params, s: State, f: Frame)
    requires MaxWait(p) >= 0 && TalkOk(p, s)
    ensures TalkOk(p, Step(p, s, f).state)
  {
    if f.Counts() {
      HeardBounded(p, s, f);
    }
  }

  lemma {:induction false} RunBounded(p: Params, frames: seq<Frame>)
    requires MaxWait(p) >= 0
    ensures TalkOk(p, Run(p, frames).state)
  {
    if frames != [] {
      var before := frames[..|frames| - 1];
      RunBounded(p, before);
      StepBounded(p, Run(p, before).state, frames[|frames| - 1]);
    }
  }

  // Words, voice and elapsed time are in proportion over every frame sequence exactly when none of
  // the six times the wait is taken from is negative; one frame without sound breaks it otherwise.
  lemma BoundedIff(p: Params)
    ensures (forall frames: seq<Frame> :: Bounded(p, Run(p, frames).state)) <==> MaxWait(p) >= 0
  {
    if MaxWait(p) >= 0 {
      forall frames: seq<Frame>
        ensures Bounded(p, Run(p, frames).state)
      {
        RunBounded(p, frames);
        var t := Run(p, frames).state.talk;
        assert t.words * p.minimumWordLength <= t.voice;
      }
    } else {
      var frames := [Null];
      assert frames[..0] == [];
      assert Run(p, frames) == Step(p, START, Null);
      assert Run(p, frames).state.talk.words == 0;
      assert !Bounded(p, Run(p, frames).state);
    }
  }

  // -------------------------------------------------------------------- what counts as a word

  // A stretch of the call between two silences that are long enough to separate words: its voice
  // time, and whether that has reached the length of a word.
  datatype Stretch = Stretch(voice: int, word: bool)

  const NO_SOUND := Stretch(0, false)

  predicate Separates(p: Params, i: Input) {
    i.dspsilence > 0 && i.dspsilence >= p.betweenWordsSilence
  }

  function Heard(p: Params, frames: seq<Frame>): Input {
    if frames == [] then START.input
    else
      var before, f := Heard(p, frames[..|frames| - 1]), frames[|frames| - 1];
      if f.Counts() then Hear(p, before, f) else before
  }

  // A voice frame brings its own length and the silence found in it; any other that counts adds twice
  // the wait to the length of the last and to the silence. The lengths add up to the time.
  lemma HeardNext(p: Params, frames: seq<Frame>, f: Frame)
    ensures var i, after := Heard(p, frames), Heard(p, frames + [f]);
      if !f.Counts() then after == i
      else
        && after.totalTime == i.totalTime + after.framelength
        && (f.Voice? ==> after.framelength == f.length && after.dspsilence == f.silence)
        && (!f.Voice? ==> after.framelength == i.framelength + 2 * MaxWait(p) && after.dspsilence == i.dspsilence + 2 * MaxWait(p))
  {
    assert (frames + [f])[..|frames|] == frames;
  }

  function Longer(p: Params, x: Stretch, length: int): Stretch {
    Stretch(x.voice + length, x.word || x.voice + length >= p.minimumWordLength)
  }

  function Stretches(p: Params, frames: seq<Frame>): (ss: seq<Stretch>)
    ensures |ss| > 0
  {
    if frames == [] then [NO_SOUND]
    else
      var ss, f, i := Stretches(p, frames[..|frames| - 1]), frames[|frames| - 1], Heard(p, frames);
      var last := ss[|ss| - 1];
      if !f.Counts() then ss
      else if Separates(p, i) then ss + [NO_SOUND]
      else if i.dspsilence > 0 then ss
      else ss[|ss| - 1 := Longer(p, last, i.framelength)]
  }

  function WordsIn(ss: seq<Stretch>): nat {
    if ss == [] then 0 else WordsIn(ss[..|ss| - 1]) + if ss[|ss| - 1].word then 1 else 0
  }

  function VoiceIn(ss: seq<Stretch>): int {
    if ss == [] then 0 else VoiceIn(ss[..|ss| - 1]) + ss[|ss| - 1].voice
  }

  predicate SomeWord(ss: seq<Stretch>) {
    exists i :: 0 <= i < |ss| && ss[i].word
  }

  // How the counters of the loop summarise the stretches.
  predicate TalkMatches(t: Talk, ss: seq<Stretch>)
    requires |ss| > 0
  {
    var last := ss[|ss| - 1];
    && t.consecutive == last.voice
    && t.words == WordsIn(ss[1..]) && t.voice == VoiceIn(ss)
    && (t.inWord <==> |ss| == 1 || last.word)
  }

  predicate Summarises(s: State, ss: seq<Stretch>)
    requires |ss| > 0
  {
    && TalkMatches(s.talk, ss)
    && (s.inGreeting <==> SomeWord(ss))
    && (s.inInitialSilence <==> !s.inGreeting)
  }

  lemma ChangedLast(ss: seq<Stretch>, x: Stretch)
    requires |ss| > 0
    ensures WordsIn(ss[|ss| - 1 := x]) == WordsIn(ss[..|ss| - 1]) + if x.word then 1 else 0
    ensures VoiceIn(ss[|ss| - 1 := x]) == VoiceIn(ss[..|ss| - 1]) + x.voice
  {
    assert ss[|ss| - 1 := x][..|ss| - 1] == ss[..|ss| - 1];
  }

  lemma SilenceMatches(t: Talk, ss: seq<Stretch>)
    requires |ss| > 0 && TalkMatches(t, ss)
    ensures TalkMatches(t.(inWord := false, consecutive := 0), ss + [NO_SOUND])
    ensures SomeWord(ss + [NO_SOUND]) <==> SomeWord(ss)
  {
    assert (ss + [NO_SOUND])[..|ss|] == ss;
    assert (ss + [NO_SOUND])[1..] == ss[1..] + [NO_SOUND];
    assert (ss[1..] + [NO_SOUND])[..|ss| - 1] == ss[1..];
    if SomeWord(ss) {
      var i :| 0 <= i < |ss| && ss[i].word;
      assert (ss + [NO_SOUND])[i].word;
    }
  }

  lemma SpeechMatches(p: Params, t: Talk, length: int, ss: seq<Stretch>, x: Stretch)
    requires |ss| > 0 && TalkMatches(t, ss) && x == Longer(p, ss[|ss| - 1], length)
    ensures TalkMatches(Spoken(p, t, length), ss[|ss| - 1 := x])
    ensures SomeWord(ss[|ss| - 1 := x]) <==> SomeWord(ss) || Spoken(p, t, length).consecutive >= p.minimumWordLength
  {
    var n, after := |ss| - 1, ss[|ss| - 1 := x];
    assert after[n] == x;
    ChangedLast(ss, x);
    if n > 0 {
      ChangedLast(ss[1..], x);
      ChangedLast(ss[1..], ss[n]);
      assert after[1..] == ss[1..][n - 1 := x] && ss[1..][n - 1 := ss[n]] == ss[1..];
    }
    if SomeWord(ss) {
      var i :| 0 <= i < |ss| && ss[i].word;
      assert after[i].word;
    }
  }

  lemma {:induction false} RunHeard(p: Params, frames: seq<Frame>)
    requires Run(p, frames).verdict == None
    ensures Run(p, frames).state.input == Heard(p, frames)
  {
    if frames != [] {
      RunHeard(p, frames[..|frames| - 1]);
    }
  }

  lemma StepSummarises(p: Params, frames: seq<Frame>)
    requires frames != [] && Run(p, frames).verdict == None
    requires var before := frames[..|frames| - 1]; Summarises(Run(p, before).state, Stretches(p, before))
    ensures Summarises(Run(p, frames).state, Stretches(p, frames))
  {
    var before, f := frames[..|frames| - 1], frames[|frames| - 1];
    var s, ss := Run(p, before).state, Stretches(p, before);
    RunHeard(p, before);
    if f.Counts() {
      var i := Heard(p, frames);
      RunHeard(p, frames);
      if Separates(p, i) {
        SilenceMatches(s.talk, ss);
      } else if i.dspsilence <= 0 {
        SpeechMatches(p, s.talk, i.framelength, ss, Longer(p, ss[|ss| - 1], i.framelength));
      }
    }
  }

  // As long as there is no verdict: the word count is the number of words after the first
  // separating silence, and the greeting has begun exactly when some stretch holds a word.
  lemma {:induction false} RunSummarises(p: Params, frames: seq<Frame>)
    requires Run(p, frames).verdict == None
    ensures Summarises(Run(p, frames).state, Stretches(p, frames))
  {
    if frames == [] {
      assert [NO_SOUND][1..] == [];
    } else {
      RunSummarises(p, frames[..|frames| - 1]);
      StepSummarises(p, frames);
    }
  }

  // The silence kept is the last one, until there has been voice enough for a word.
  lemma SilenceKept(p: Params, frames: seq<Frame>)
    requires frames != [] && Run(p, frames).verdict == None && frames[|frames| - 1].Counts()
    ensures var silence, before := Heard(p, frames).dspsilence, Run(p, frames[..|frames| - 1]).state.talk.silence;
      Run(p, frames).state.talk.silence ==
        if silence > 0 then silence else if VoiceIn(Stretches(p, frames)) >= p.minimumWordLength then 0 else before
  {
    RunSummarises(p, frames);
    RunHeard(p, frames);
    RunHeard(p, frames[..|frames| - 1]);
  }

  // The two verdicts from silence: HUMAN only after a word, INITIALSILENCE only without one, and
  // with either the silence had reached its limit.
  lemma SilenceVerdicts(p: Params, frames: seq<Frame>)
    requires frames != []
    requires Run(p, frames[..|frames| - 1]).verdict == None
    ensures var before, v := frames[..|frames| - 1], Run(p, frames).verdict;
      var silence, speaks := Heard(p, frames).dspsilence, SomeWord(Stretches(p, before));
      var inTime := frames[|frames| - 1].Counts() && Heard(p, frames).totalTime < p.totalAnalysisTime && silence > 0;
      && (v == Some(Human(silence)) <==> inTime && speaks && silence >= p.afterGreetingSilence)
      && (v == Some(InitialSilence(silence)) <==> inTime && !speaks && silence >= p.initialSilence)
  {
    RunSummarises(p, frames[..|frames| - 1]);
    RunHeard(p, frames[..|frames| - 1]);
  }

  // The verdicts from voice: the stretch is too long, the words are too many, or the greeting is.
  lemma VoiceVerdicts(p: Params, frames: seq<Frame>)
    requires frames != [] && frames[|frames| - 1].Counts()
    requires Run(p, frames[..|frames| - 1]).verdict == None
    requires Heard(p, frames).totalTime < p.totalAnalysisTime && Heard(p, frames).dspsilence <= 0
    ensures var v, ss := Run(p, frames).verdict, Stretches(p, frames);
      var length, words, voice := ss[|ss| - 1].voice, WordsIn(ss[1..]), VoiceIn(ss);
      var greets := SomeWord(Stretches(p, frames[..|frames| - 1]));
      v == if length >= p.maximumWordLength then Some(MaxWordLength(length))
           else if words >= p.maximumNumberOfWords then Some(MaxWords(words))
           else if greets && voice >= p.greeting then Some(LongGreeting(voice))
           else None
  {
    var before := frames[..|frames| - 1];
    var s, ss, i := Run(p, before).state, Stretches(p, before), Heard(p, frames);
    RunSummarises(p, before);
    RunHeard(p, before);
    SpeechMatches(p, s.talk, i.framelength, ss, Longer(p, ss[|ss| - 1], i.framelength));
    assert Run(p, frames) == Speak(p, s.(input := i));
    assert TalkMatches(Spoken(p, s.talk, i.framelength), Stretches(p, frames));
  }

  // The other verdicts do not depend on what was heard.
  lemma OtherVerdicts(p: Params, frames: seq<Frame>)
    requires frames != [] && Run(p, frames[..|frames| - 1]).verdict == None
    ensures var v, f, i := Run(p, frames).verdict, frames[|frames| - 1], Heard(p, frames);
      && (v == Some(Hangup) <==> f.HungUp?)
      && (f.Counts() ==> (v == Some(TooLong(i.totalTime)) <==> i.totalTime >= p.totalAnalysisTime))
      && (f.Other? ==> v == None)
  {
    RunHeard(p, frames[..|frames| - 1]);
  }

  // -------------------------------------------------------------------------- a verdict comes

  function Counted(frames: seq<Frame>): nat {
    if frames == [] then 0
    else Counted(frames[..|frames| - 1]) + if frames[|frames| - 1].Counts() then 1 else 0
  }

  predicate NoEmptyFrame(frames: seq<Frame>) {
    forall i :: 0 <= i < |frames| && frames[i].Voice? ==> frames[i].length > 0
  }

  // Without a verdict fewer frames than milliseconds of analysis time have gone by.
  lemma {:induction false} VerdictInTime(p: Params, frames: seq<Frame>)
    requires MaxWait(p) > 0 && NoEmptyFrame(frames) && Run(p, frames).verdict == None
    ensures Counted(frames) <= Run(p, frames).state.input.totalTime < p.totalAnalysisTime
  {
    if frames != [] {
      var before := frames[..|frames| - 1];
      assert NoEmptyFrame(before);
      VerdictInTime(p, before);
      RunBounded(p, before);
    }
  }

  // ------------------------------------------------------------------------- what is reported

  datatype Status = NotSet | HANGUP | NOTSURE | MACHINE | HUMAN

  datatype Report = Report(status: Status, cause: Cause)

  function StatusOf(c: Cause): Status {
    match c
    case Hangup => HANGUP
    case TooLong(_) => NOTSURE
    case Human(_) => HUMAN
    case NoCause => NotSet
    case _ => MACHINE
  }

  function FramesOf(events: seq<Event>): (fs: seq<Frame>)
    ensures |fs| == |events|
  {
    seq(|events|, i requires 0 <= i < |events| => events[i].frame)
  }

  // The frame that brings the verdict.
  ghost predicate DecidesAt(p: Params, events: seq<Event>, n: nat) {
    && n < |events| && Run(p, FramesOf(events)[..n]).verdict == None
    && Run(p, FramesOf(events)[..n + 1]).verdict.Some?
  }

  // What the last of some frames says, of those before it none having said anything. The limits are
  // tried in this order.
  predicate InTime(p: Params, frames: seq<Frame>)
    requires frames != []
  {
    frames[|frames| - 1].Counts() && Heard(p, frames).totalTime < p.totalAnalysisTime
  }

  predicate SaysHangup(frames: seq<Frame>)
    requires frames != []
  {
    frames[|frames| - 1].HungUp?
  }

  predicate SaysTooLong(p: Params, frames: seq<Frame>)
    requires frames != []
  {
    frames[|frames| - 1].Counts() && Heard(p, frames).totalTime >= p.totalAnalysisTime
  }

  // Silence long enough after a word, and silence long enough without one.
  predicate SaysHuman(p: Params, frames: seq<Frame>)
    requires frames != []
  {
    var silence := Heard(p, frames).dspsilence;
    InTime(p, frames) && silence > 0 && silence >= p.afterGreetingSilence
    && SomeWord(Stretches(p, frames[..|frames| - 1]))
  }

  predicate SaysInitialSilence(p: Params, frames: seq<Frame>)
    requires frames != []
  {
    var silence := Heard(p, frames).dspsilence;
    InTime(p, frames) && silence > 0 && silence >= p.initialSilence
    && !SomeWord(Stretches(p, frames[..|frames| - 1]))
  }

  predicate SaysLongWord(p: Params, frames: seq<Frame>)
    requires frames != []
  {
    var ss := Stretches(p, frames);
    InTime(p, frames) && Heard(p, frames).dspsilence <= 0 && ss[|ss| - 1].voice >= p.maximumWordLength
  }

  predicate SaysManyWords(p: Params, frames: seq<Frame>)
    requires frames != []
  {
    && InTime(p, frames) && Heard(p, frames).dspsilence <= 0 && !SaysLongWord(p, frames)
    && WordsIn(Stretches(p, frames)[1..]) >= p.maximumNumberOfWords
  }

  predicate SaysLongGreeting(p: Params, frames: seq<Frame>)
    requires frames != []
  {
    && InTime(p, frames) && Heard(p, frames).dspsilence <= 0
    && !SaysLongWord(p, frames) && !SaysManyWords(p, frames)
    && SomeWord(Stretches(p, frames[..|frames| - 1])) && VoiceIn(Stretches(p, frames)) >= p.greeting
  }

  predicate Says(p: Params, frames: seq<Frame>)
    requires frames != []
  {
    SaysHangup(frames) || SaysTooLong(p, frames) || SaysHuman(p, frames) || SaysInitialSilence(p, frames)
    || SaysLongWord(p, frames) || SaysManyWords(p, frames) || SaysLongGreeting(p, frames)
  }

  // The verdict is what the frame says.
  lemma VerdictSays(p: Params, frames: seq<Frame>)
    requires frames != [] && Run(p, frames[..|frames| - 1]).verdict == None
    ensures var v := Run(p, frames).verdict;
      && (v.Some? <==> Says(p, frames))
      && (v.Some? && v.value.Hangup? <==> SaysHangup(frames))
      && (v.Some? && v.value.TooLong? <==> SaysTooLong(p, frames))
      && (v.Some? && v.value.Human? <==> SaysHuman(p, frames))
      && (v.Some? && v.value.InitialSilence? <==> SaysInitialSilence(p, frames))
      && (v.Some? && v.value.MaxWordLength? <==> SaysLongWord(p, frames))
      && (v.Some? && v.value.MaxWords? <==> SaysManyWords(p, frames))
      && (v.Some? && v.value.LongGreeting? <==> SaysLongGreeting(p, frames))
  {
    SilenceVerdicts(p, frames);
    OtherVerdicts(p, frames);
    RunHeard(p, frames[..|frames| - 1]);
    if InTime(p, frames) && Heard(p, frames).dspsilence <= 0 {
      VoiceVerdicts(p, frames);
    }
  }

  predicate SaysAt(p: Params, frames: seq<Frame>, k: nat)
    requires k < |frames|
  {
    Says(p, frames[..k + 1])
  }

  predicate NoneSays(p: Params, frames: seq<Frame>, n: nat)
    requires n <= |frames|
  {
    forall k: nat :: k < n ==> !SaysAt(p, frames, k)
  }

  // The first frame that says anything.
  predicate SaysFirst(p: Params, frames: seq<Frame>, n: nat) {
    n < |frames| && SaysAt(p, frames, n) && NoneSays(p, frames, n)
  }

  lemma {:induction false} NothingSaid(p: Params, frames: seq<Frame>, n: nat)
    requires n <= |frames|
    ensures Run(p, frames[..n]).verdict == None <==> NoneSays(p, frames, n)
  {
    if n > 0 {
      NothingSaid(p, frames, n - 1);
      assert frames[..n][..n - 1] == frames[..n - 1];
      assert NoneSays(p, frames, n) <==> NoneSays(p, frames, n - 1) && !SaysAt(p, frames, n - 1);
      if Run(p, frames[..n - 1]).verdict == None {
        VerdictSays(p, frames[..n]);
        assert SaysAt(p, frames, n - 1) <==> Says(p, frames[..n]);
      }
    }
  }

  // The status that goes with what the frame says; a word that is too long is forgotten if the wait
  // for its frame had used up all its time.
  predicate StatusSays(p: Params, frames: seq<Frame>, wait: nat, status: Status)
    requires frames != []
  {
    && (status == HUMAN <==> SaysHuman(p, frames))
    && (status == MACHINE <==>
          SaysInitialSilence(p, frames) || SaysManyWords(p, frames) || SaysLongGreeting(p, frames)
          || (SaysLongWord(p, frames) && wait != 0))
    && (status == HANGUP <==> SaysHangup(frames))
    && (status == NOTSURE <==> SaysTooLong(p, frames) || (SaysLongWord(p, frames) && wait == 0))
  }

  lemma StatusFollows(p: Params, frames: seq<Frame>, n: nat, wait: nat)
    requires n < |frames| && Run(p, frames[..n]).verdict == None && Run(p, frames[..n + 1]).verdict.Some?
    ensures SaysFirst(p, frames, n)
    ensures var c := Run(p, frames[..n + 1]).verdict.value;
      StatusSays(p, frames[..n + 1], wait, if c.MaxWordLength? && wait == 0 then NOTSURE else StatusOf(c))
  {
    assert frames[..n + 1][..n] == frames[..n];
    NothingSaid(p, frames, n);
    VerdictSays(p, frames[..n + 1]);
  }

  // The local variables of isAnsweringMachine, and the parts of its loop body.
  class Detector {
    const p: Params
    const maxWait: int
    var framelength: int
    var dspsilence: int
    var totalTime: int
    var inInitialSilence: bool
    var inGreeting: bool
    var words: nat
    var inWord: bool
    var consecutive: int
    var voice: int
    var silence: int

    constructor (p: Params)
      ensures this.p == p && maxWait == MaxWait(p) && View() == START
    {
      this.p, maxWait := p, MaxWait(p);
      framelength, dspsilence, totalTime := 0, 0, 0;
      inInitialSilence, inGreeting := true, false;
      words, inWord, consecutive, voice, silence := 0, true, 0, 0, 0;
    }

    ghost function View(): State
      reads this
    {
      State(Input(framelength, dspsilence, totalTime), Talk(words, inWord, consecutive, voice, silence),
            inInitialSilence, inGreeting)
    }

    method SilentFrame() returns (verdict: Option<Cause>)
      modifies this
      ensures Turn(View(), verdict) == Silent(p, old(View()))
    {
      silence := dspsilence;
      if silence >= p.betweenWordsSilence {
        inWord := false;
        consecutive := 0;
      }
      if inInitialSilence && silence >= p.initialSilence {
        return Some(InitialSilence(silence));
      }
      if silence >= p.afterGreetingSilence && inGreeting {
        return Some(Human(silence));
      }
      return None;
    }

    method VoiceFrame() returns (verdict: Option<Cause>)
      modifies this
      ensures Turn(View(), verdict) == Speak(p, old(View()))
    {
      consecutive := consecutive + framelength;
      voice := voice + framelength;
      if consecutive >= p.minimumWordLength && !inWord {
        words := words + 1;
        inWord := true;
      }
      if consecutive >= p.maximumWordLength {
        return Some(MaxWordLength(consecutive));
      }
      if words >= p.maximumNumberOfWords {
        return Some(MaxWords(words));
      }
      if inGreeting && voice >= p.greeting {
        return Some(LongGreeting(voice));
      }
      if voice >= p.minimumWordLength {
        silence := 0;
      }
      if consecutive >= p.minimumWordLength && !inGreeting {
        inInitialSilence := false;
        inGreeting := true;
      }
      return None;
    }

    method Listen(f: Frame) returns (verdict: Option<Cause>)
      requires maxWait == MaxWait(p)
      modifies this
      ensures verdict == Step(p, old(View()), f).verdict
      ensures verdict == None ==> View() == Step(p, old(View()), f).state
      ensures totalTime == Step(p, old(View()), f).state.input.totalTime
    {
      if f.HungUp? {
        return Some(Hangup);
      }
      if !f.Counts() {
        return None;
      }
      framelength := if f.Voice? then f.length else framelength + 2 * maxWait;
      totalTime := totalTime + framelength;
      if totalTime >= p.totalAnalysisTime {
        return Some(TooLong(totalTime));
      }
      dspsilence := if f.Voice? then f.silence else dspsilence + 2 * maxWait;
      if dspsilence > 0 {
        verdict := SilentFrame();
      } else {
        verdict := VoiceFrame();
      }
    }
  }

  lemma DecidedHere(p: Params, frames: seq<Frame>, n: nat, s: State)
    requires n < |frames| && Run(p, frames[..n]) == Turn(s, None)
    ensures Run(p, frames[..n + 1]) == Step(p, s, frames[n])
    ensures Step(p, s, frames[n]).verdict.Some? ==> Run(p, frames) == Step(p, s, frames[n])
  {
    assert frames[..n + 1][..n] == frames[..n];
    if Step(p, s, frames[n]).verdict.Some? {
      StaysDecided(p, frames, n + 1);
    }
  }

  // isAnsweringMachine once the silence detector is set up; the events end when tris_waitfor fails.
  method IsAnsweringMachine(p: Params, events: seq<Event>) returns (report: Report, ghost n: nat)
    ensures Run(p, FramesOf(events)).verdict == None ==> report == Report(NotSet, NoCause)
    ensures Run(p, FramesOf(events)).verdict.Some? ==>
      && DecidesAt(p, events, n)
      && var turn := Run(p, FramesOf(events)[..n + 1]);
        var c := turn.verdict.value;
        // a word that is too long is forgotten if the wait had used up all its time
        report == if c.MaxWordLength? && events[n].wait == 0 then Report(NOTSURE, TooLong(turn.state.input.totalTime))
                  else Report(StatusOf(c), c)
    // and without the verdict: no status if no frame says anything, else that of the first that does
    ensures NoneSays(p, FramesOf(events), |events|) ==> report.status == NotSet
    ensures report.status != NotSet ==>
      SaysFirst(p, FramesOf(events), n) && StatusSays(p, FramesOf(events)[..n + 1], events[n].wait, report.status)
  {
    var detector := new Detector(p);
    report := Report(NotSet, NoCause);
    ghost var frames := FramesOf(events);
    var res := -1;
    var i := 0;
    assert frames[..0] == [];
    while i < |events|
      invariant i <= |events| && detector.maxWait == MaxWait(detector.p) && detector.p == p
      invariant Run(p, frames[..i]) == Turn(detector.View(), None)
      invariant report == Report(NotSet, NoCause) && res == -1
    {
      DecidedHere(p, frames, i, detector.View());
      var verdict := detector.Listen(events[i].frame);
      if verdict.Some? {
        var cause := verdict.value;
        report := Report(StatusOf(cause), cause);
        // two of the exits leave the result of the wait in place
        res := if cause.TooLong? || cause.MaxWordLength? then events[i].wait else 1;
        break;
      }
      i := i + 1;
    }
    assert frames[..|frames|] == frames;
    n := i;
    if res == 0 {
      report := Report(NOTSURE, TooLong(detector.totalTime));
    }
    NothingSaid(p, frames, |frames|);
    if n < |events| {
      StatusFollows(p, frames, n, events[n].wait);
    }
  }

  lemma {:induction false} StaysDecided(p: Params, frames: seq<Frame>, n: nat)
    requires n <= |frames| && Run(p, frames[..n]).verdict.Some?
    ensures Run(p, frames) == Run(p, frames[..n])
  {
    if n < |frames| {
      var before := frames[..|frames| - 1];
      assert before[..n] == frames[..n];
      StaysDecided(p, before, n);
    } else {
      assert frames[..n] == frames;
    }
  }
}
