/** The keyword watcher: a bounded buffer of recognised text, a trigger, and a cooldown. */
module Watcher {
  import opened Wrappers
  import opened Behaviours

  const MAX_RESULT_BUFFER_SIZE: nat := 1024

  // A point on the clock; the clock never shows zero, which stands for "no trigger yet".
  type Time = int

  datatype StreamState = First | Continue

  datatype Watch = Watch(buffer: string, lastTrigger: Time, cooldownLogged: bool, waitLogged: bool, next: StreamState)

  const FRESH: Watch := Watch("", 0, false, false, First)

  // What never changes while the watcher runs.
  datatype Settings = Settings(keyword: string, cooldown: int)

  predicate OccursAt(k: string, s: string, i: int) {
    0 <= i <= |s| - |k| && s[i..i + |k|] == k
  }

  predicate Occurs(k: string, s: string) {
    exists i :: 0 <= i <= |s| - |k| && OccursAt(k, s, i)
  }

  function Last(n: nat, s: string): string {
    if |s| > n then s[|s| - n..] else s
  }

  // The last n characters, or all if there are fewer.
  predicate IsEnd(n: nat, end: string, all: string) {
    |end| <= n && |end| <= |all| && all[|all| - |end|..] == end && (|end| == n || end == all)
  }

  lemma LastIsEnd(n: nat, s: string)
    ensures IsEnd(n, Last(n, s), s) && forall e :: IsEnd(n, e, s) ==> e == Last(n, s)
  {
  }

  predicate InCooldown(cfg: Settings, w: Watch, now: Time) {
    w.lastTrigger != 0 && now - w.lastTrigger < cfg.cooldown
  }

  predicate Heard(cfg: Settings, buffer: string, suffix: string) {
    cfg.keyword != "" && (Occurs(cfg.keyword, buffer) || (suffix != "" && Occurs(cfg.keyword, buffer + suffix)))
  }

  // -- operations -------------------------------------------------------------------------

  // should_drop_audio_input: also the end of the cooldown.
  function AudioChecked(cfg: Settings, w: Watch, now: Time): Watch {
    var cooling := InCooldown(cfg, w, now);
    var w1 := if cooling then w.(waitLogged := true) else w;
    if !cooling && w1.cooldownLogged then Watch("", 0, false, false, First) else w1
  }

  // should_drop_asr_result
  function ResultChecked(cfg: Settings, w: Watch, now: Time): Watch {
    if InCooldown(cfg, w, now) then w.(buffer := "") else w
  }

  predicate Triggers(cfg: Settings, w: Watch, text: string, suffix: string, now: Time) {
    && text != "" && !InCooldown(cfg, w, now)
    && Heard(cfg, Last(MAX_RESULT_BUFFER_SIZE, w.buffer + text), suffix)
  }

  // append_result_buffer
  function Appended(cfg: Settings, w: Watch, text: string, suffix: string, now: Time): Watch {
    if text == "" then w
    else if Triggers(cfg, w, text, suffix, now) then Watch("", now, true, false, First)
    else w.(buffer := Last(MAX_RESULT_BUFFER_SIZE, w.buffer + text))
  }

  datatype Op =
    | CheckAudio
    | CheckResult
    | Append(text: string, suffix: string)
    | TakeStreamState

  function Did(cfg: Settings, w: Watch, op: Op, now: Time): Watch {
    match op
    case CheckAudio => AudioChecked(cfg, w, now)
    case CheckResult => ResultChecked(cfg, w, now)
    case Append(text, suffix) => Appended(cfg, w, text, suffix, now)
    case TakeStreamState => w.(next := Continue)
  }

  // -- the class --------------------------------------------------------------------------

  method ContainsKeyword(s: string, k: string) returns (found: bool)
    ensures found == Occurs(k, s)
  {
    var i := 0;
    while i + |k| <= |s|
      invariant 0 <= i && forall j :: 0 <= j < i ==> !OccursAt(k, s, j)
    {
      if OccursAt(k, s, i) {
        return true;
      }
      i := i + 1;
    }
    return false;
  }

  class KeywordWatcherState {
    const cfg: Settings
    var resultBuffer: string
    var lastTriggerTime: Time
    var cooldownLogged: bool
    var cooldownWaitLogged: bool
    var nextStreamState: StreamState

    function State(): Watch
      reads this
    {
      Watch(resultBuffer, lastTriggerTime, cooldownLogged, cooldownWaitLogged, nextStreamState)
    }

    constructor (cfg: Settings)
      ensures this.cfg == cfg && State() == FRESH
    {
      this.cfg := cfg;
      resultBuffer, lastTriggerTime, cooldownLogged, cooldownWaitLogged, nextStreamState := "", 0, false, false, First;
    }

    method ShouldDropAudioInput(now: Time) returns (drop: bool)
      modifies this
      ensures State() == AudioChecked(cfg, old(State()), now) && drop == InCooldown(cfg, old(State()), now)
      ensures drop <==> old(lastTriggerTime) != 0 && now - old(lastTriggerTime) < cfg.cooldown
      ensures State() == if drop then old(State()).(waitLogged := true)
                         else if old(cooldownLogged) then Watch("", 0, false, false, First) else old(State())
    {
      drop := InCooldown(cfg, State(), now);
      if drop && !cooldownWaitLogged {
        cooldownWaitLogged := true;
      }
      if !drop && cooldownLogged {
        cooldownLogged := false;
        cooldownWaitLogged := false;
        lastTriggerTime := 0;
        resultBuffer := "";
        nextStreamState := First;
      }
    }

    method ShouldDropAsrResult(now: Time) returns (drop: bool)
      modifies this
      ensures State() == ResultChecked(cfg, old(State()), now) && drop == InCooldown(cfg, old(State()), now)
      ensures drop <==> old(lastTriggerTime) != 0 && now - old(lastTriggerTime) < cfg.cooldown
      ensures State() == if drop then old(State()).(buffer := "") else old(State())
    {
      drop := InCooldown(cfg, State(), now);
      if drop {
        resultBuffer := "";
      }
    }

    method AppendResultBuffer(text: string, suffix: string, now: Time) returns (triggered: bool)
      modifies this
      ensures State() == Appended(cfg, old(State()), text, suffix, now)
      ensures triggered == Triggers(cfg, old(State()), text, suffix, now)
      ensures text == "" ==> !triggered && State() == old(State())
      ensures text != "" ==> forall end :: IsEnd(1024, end, old(resultBuffer) + text) ==>
                (triggered <==> cfg.keyword != "" && !(old(lastTriggerTime) != 0 && now - old(lastTriggerTime) < cfg.cooldown)
                                && Occurs(cfg.keyword, end + suffix))
      ensures triggered ==> State() == Watch("", now, true, false, First)
      ensures text != "" && !triggered ==> IsEnd(1024, resultBuffer, old(resultBuffer) + text) && State() == old(State()).(buffer := resultBuffer)
    {
      if text == "" {
        return false;
      }
      ghost var all := resultBuffer + text;
      resultBuffer := resultBuffer + text;
      if |resultBuffer| > MAX_RESULT_BUFFER_SIZE {
        resultBuffer := resultBuffer[|resultBuffer| - MAX_RESULT_BUFFER_SIZE..];
      }
      assert forall end :: IsEnd(1024, end, all) ==> end == resultBuffer;
      if cfg.keyword != "" {
        HeardIs(cfg, resultBuffer, suffix);
      }
      var cooling := InCooldown(cfg, State(), now);
      var heard := false;
      if cfg.keyword != "" {
        heard := ContainsKeyword(resultBuffer, cfg.keyword);
        if !heard && suffix != "" {
          heard := ContainsKeyword(resultBuffer + suffix, cfg.keyword);
        }
      }
      if heard && !cooling {
        lastTriggerTime := now;
        cooldownLogged := true;
        cooldownWaitLogged := false;
        resultBuffer := "";
        nextStreamState := First;
        return true;
      }
      return false;
    }

    method ConsumeStreamState() returns (s: StreamState)
      modifies this
      ensures s == old(nextStreamState) && State() == Did(cfg, old(State()), TakeStreamState, 0)
    {
      s := nextStreamState;
      nextStreamState := Continue;
    }

    // handle_asr_result; the two clock readings are those of its two critical sections.
    method HandleAsrResult(result: string, newResult: string, t1: Time, t2: Time) returns (triggered: bool)
      modifies this
      ensures triggered == (!InCooldown(cfg, old(State()), t1) && Triggers(cfg, old(State()), result, newResult, t2))
      ensures State() == if InCooldown(cfg, old(State()), t1) then ResultChecked(cfg, old(State()), t1)
                         else Appended(cfg, old(State()), result, newResult, t2)
    {
      var drop := ShouldDropAsrResult(t1);
      if drop {
        return false;
      }
      triggered := AppendResultBuffer(result, newResult, t2);
    }
  }

  // -- the buffer and the transcript ------------------------------------------------------

  // A watch together with all text since its buffer was last cleared, the clock, and the trigger
  // times so far.
  datatype History = History(watch: Watch, transcript: string, clock: Time, triggers: seq<Time>)

  const BEGINNING: History := History(FRESH, "", 1, [])

  predicate Clears(cfg: Settings, w: Watch, op: Op, now: Time) {
    match op
    case CheckAudio => !InCooldown(cfg, w, now) && w.cooldownLogged
    case CheckResult => InCooldown(cfg, w, now)
    case Append(text, suffix) => Triggers(cfg, w, text, suffix, now)
    case TakeStreamState => false
  }

  // The transcript keeps everything the buffer was given since it was cleared.
  function Transcribed(cfg: Settings, h: History, op: Op, now: Time): string {
    if Clears(cfg, h.watch, op, now) then "" else if op.Append? then h.transcript + op.text else h.transcript
  }

  predicate Fires(cfg: Settings, w: Watch, op: Op, now: Time) {
    op.Append? && Triggers(cfg, w, op.text, op.suffix, now)
  }

  // One operation of any thread, at a time the clock has reached; time does not run backwards.
  function Next(cfg: Settings, h: History, step: (Op, Time)): History {
    var now := if step.1 >= h.clock then step.1 else h.clock;
    History(Did(cfg, h.watch, step.0, now), Transcribed(cfg, h, step.0, now), now,
            if Fires(cfg, h.watch, step.0, now) then h.triggers + [now] else h.triggers)
  }

  function Reached(cfg: Settings, steps: seq<(Op, Time)>): History {
    After((h, step) => Next(cfg, h, step), BEGINNING, steps)
  }

  lemma LastAppend(n: nat, s: string, t: string)
    ensures Last(n, Last(n, s) + t) == Last(n, s + t)
  {
    if |s| > n {
      assert s[|s| - n..] + t == (s + t)[|s| - n..];
    }
  }

  // The triggers so far, and what is remembered of them: the last one, or nothing once its
  // cooldown is over for good.
  ghost predicate TriggersSound(cfg: Settings, triggers: seq<Time>, clock: Time, last: Time) {
    && clock > 0
    && (forall i :: 0 <= i < |triggers| ==> 0 < triggers[i] <= clock)
    && (forall i, j :: 0 <= i < j < |triggers| ==> triggers[j] - triggers[i] >= cfg.cooldown && triggers[j] >= triggers[i])
    && (if triggers == [] then last == 0
        else last == triggers[|triggers| - 1] || (last == 0 && clock - triggers[|triggers| - 1] >= cfg.cooldown))
  }

  // What holds along every run.
  ghost predicate Sound(cfg: Settings, h: History) {
    && h.watch.buffer == Last(MAX_RESULT_BUFFER_SIZE, h.transcript)
    && TriggersSound(cfg, h.triggers, h.clock, h.watch.lastTrigger)
  }

  lemma ClockPasses(cfg: Settings, triggers: seq<Time>, clock: Time, last: Time, now: Time)
    requires TriggersSound(cfg, triggers, clock, last) && now >= clock
    ensures TriggersSound(cfg, triggers, now, last)
    ensures last == 0 || now - last >= cfg.cooldown ==> TriggersSound(cfg, triggers, now, 0)
  {
  }

  lemma TriggerAdds(cfg: Settings, triggers: seq<Time>, now: Time, last: Time)
    requires TriggersSound(cfg, triggers, now, last) && (last == 0 || now - last >= cfg.cooldown)
    ensures TriggersSound(cfg, triggers + [now], now, now)
  {
    forall i | 0 <= i < |triggers|
      ensures now - triggers[i] >= cfg.cooldown
    {
      assert i == |triggers| - 1 || triggers[i] <= triggers[|triggers| - 1];
    }
  }

  lemma BufferFollows(cfg: Settings, h: History, op: Op, now: Time)
    requires h.watch.buffer == Last(MAX_RESULT_BUFFER_SIZE, h.transcript)
    ensures Did(cfg, h.watch, op, now).buffer == Last(MAX_RESULT_BUFFER_SIZE, Transcribed(cfg, h, op, now))
  {
    if op.Append? {
      LastAppend(MAX_RESULT_BUFFER_SIZE, h.transcript, op.text);
      assert h.transcript + "" == h.transcript;
    }
  }

  lemma LastTriggerAfter(cfg: Settings, w: Watch, op: Op, now: Time)
    ensures Did(cfg, w, op, now).lastTrigger ==
            if Fires(cfg, w, op, now) then now
            else if op.CheckAudio? && !InCooldown(cfg, w, now) && w.cooldownLogged then 0 else w.lastTrigger
    ensures Fires(cfg, w, op, now) ==> !InCooldown(cfg, w, now)
  {
  }

  lemma TriggersAfter(cfg: Settings, triggers: seq<Time>, clock: Time, last: Time, now: Time, fires: bool, over: bool)
    requires TriggersSound(cfg, triggers, clock, last) && now >= clock
    requires fires || over ==> last == 0 || now - last >= cfg.cooldown
    ensures TriggersSound(cfg, if fires then triggers + [now] else triggers, now, if fires then now else if over then 0 else last)
  {
    ClockPasses(cfg, triggers, clock, last, now);
    if fires {
      TriggerAdds(cfg, triggers, now, last);
    }
  }

  lemma NextSound(cfg: Settings, h: History, step: (Op, Time))
    requires Sound(cfg, h)
    ensures Sound(cfg, Next(cfg, h, step))
  {
    var now := if step.1 >= h.clock then step.1 else h.clock;
    var fires := Fires(cfg, h.watch, step.0, now);
    var over := step.0.CheckAudio? && !InCooldown(cfg, h.watch, now) && h.watch.cooldownLogged;
    BufferFollows(cfg, h, step.0, now);
    LastTriggerAfter(cfg, h.watch, step.0, now);
    TriggersAfter(cfg, h.triggers, h.clock, h.watch.lastTrigger, now, fires, over);
  }

  lemma {:induction false} SoundReached(cfg: Settings, steps: seq<(Op, Time)>)
    ensures Sound(cfg, Reached(cfg, steps))
  {
    var keep := (h: History) => Sound(cfg, h);
    var next := (h, step) => Next(cfg, h, step);
    forall h, e: (Op, Time) | keep(h)
      ensures keep(next(h, e))
    {
      NextSound(cfg, h, e);
    }
    AlwaysAfter(keep, next, BEGINNING, steps);
  }

  /** Whatever the threads do and in whatever order: the buffer always holds the last 1024
      characters of the text since it was last cleared. */
  lemma BufferIsTranscript(cfg: Settings, steps: seq<(Op, Time)>)
    ensures IsEnd(1024, Reached(cfg, steps).watch.buffer, Reached(cfg, steps).transcript)
  {
    SoundReached(cfg, steps);
  }

  /** Any two triggers are at least the cooldown apart. */
  lemma TriggersApart(cfg: Settings, steps: seq<(Op, Time)>, i: nat, j: nat)
    requires i < j < |Reached(cfg, steps).triggers|
    ensures Reached(cfg, steps).triggers[j] - Reached(cfg, steps).triggers[i] >= cfg.cooldown
  {
    SoundReached(cfg, steps);
  }

  // -- the first completion triggers ------------------------------------------------------

  lemma OccursInFront(k: string, s: string, t: string, i: int)
    ensures 0 <= i <= |s| - |k| ==> OccursAt(k, s + t, i) == OccursAt(k, s, i)
  {
    if 0 <= i <= |s| - |k| {
      assert (s + t)[i..i + |k|] == s[i..i + |k|];
    }
  }

  lemma OccursTail(k: string, s: string, cut: int, i: int)
    requires 0 <= cut <= |s|
    ensures cut <= i ==> (OccursAt(k, s, i) <==> OccursAt(k, s[cut..], i - cut))
  {
    if cut <= i <= |s| - |k| {
      assert s[cut..][i - cut..i - cut + |k|] == s[i..i + |k|];
    }
  }

  // What occurs late enough occurs in the tail.
  lemma OccursCut(k: string, s: string, cut: int)
    requires 0 <= cut <= |s| && forall i :: 0 <= i < cut ==> !OccursAt(k, s, i)
    ensures Occurs(k, s) <==> Occurs(k, s[cut..])
  {
    if Occurs(k, s) {
      var i :| 0 <= i <= |s| - |k| && OccursAt(k, s, i);
      OccursTail(k, s, cut, i);
    }
    if Occurs(k, s[cut..]) {
      var i :| 0 <= i <= |s[cut..]| - |k| && OccursAt(k, s[cut..], i);
      OccursTail(k, s, cut, i + cut);
    }
  }

  // An occurrence in s + t + x that is not one in s ends behind s, so it begins in the last |k| - 1
  // characters of s or later.
  lemma OccursLate(k: string, s: string, t: string, x: string, n: nat)
    requires k != "" && !Occurs(k, s) && |t| + |k| - 1 <= n
    ensures Occurs(k, s + t + x) <==> Occurs(k, Last(n, s + t) + x)
  {
    var all := s + t + x;
    var cut := if |s + t| > n then |s + t| - n else 0;
    assert Last(n, s + t) + x == all[cut..];
    assert all == s + (t + x);
    forall i | 0 <= i < cut
      ensures !OccursAt(k, all, i)
    {
      OccursInFront(k, s, t + x, i);
      assert !OccursAt(k, s, i);
    }
    OccursCut(k, all, cut);
  }

  // With or without a suffix: the keyword is heard in the buffer with the suffix behind it.
  lemma HeardIs(cfg: Settings, buffer: string, suffix: string)
    requires cfg.keyword != ""
    ensures Heard(cfg, buffer, suffix) <==> Occurs(cfg.keyword, buffer + suffix)
  {
    OccursLess(cfg.keyword, buffer, suffix);
    assert buffer + "" == buffer;
  }

  /** If a text and the keyword less one character fit in the buffer and no cooldown is on, then a
      result that is not empty triggers exactly if it completes the keyword: the transcript did not
      hold it before, and holds it with the result and the suffix that came with it. */
  lemma TriggersOnCompletion(cfg: Settings, h: History, text: string, suffix: string, now: Time)
    requires IsEnd(1024, h.watch.buffer, h.transcript) && !InCooldown(cfg, h.watch, now)
    requires cfg.keyword != "" && |text| + |cfg.keyword| - 1 <= 1024 && !Occurs(cfg.keyword, h.transcript)
    ensures Triggers(cfg, h.watch, text, suffix, now) <==> text != "" && Occurs(cfg.keyword, h.transcript + text + suffix)
  {
    LastAppend(MAX_RESULT_BUFFER_SIZE, h.transcript, text);
    OccursLate(cfg.keyword, h.transcript, text, suffix, MAX_RESULT_BUFFER_SIZE);
    HeardIs(cfg, Last(MAX_RESULT_BUFFER_SIZE, h.watch.buffer + text), suffix);
  }

  // A recognised text, what is new in it, and when it comes in.
  datatype Result = Result(text: string, suffix: string, now: Time)

  function Transcript(results: seq<Result>): string {
    if results == [] then "" else Transcript(results[..|results| - 1]) + results[|results| - 1].text
  }

  // Results come in one after the other.
  function Listened(cfg: Settings, w: Watch, results: seq<Result>): Watch {
    if results == [] then w
    else
      var last := results[|results| - 1];
      Appended(cfg, Listened(cfg, w, results[..|results| - 1]), last.text, last.suffix, last.now)
  }

  // No cooldown is on when the result comes, and it fits in the buffer with the keyword less one.
  predicate Receivable(cfg: Settings, w: Watch, r: Result) {
    !InCooldown(cfg, w, r.now) && |r.text| + |cfg.keyword| - 1 <= MAX_RESULT_BUFFER_SIZE
  }

  // The keyword is in all the text before with the result and its suffix.
  predicate Completes(k: string, before: string, r: Result) {
    r.text != "" && Occurs(k, before + r.text + r.suffix)
  }

  predicate NoneCompletes(k: string, results: seq<Result>) {
    forall i :: 0 <= i < |results| ==> !Completes(k, Transcript(results[..i]), results[i])
  }

  lemma NoneBefore(k: string, init: seq<Result>, last: Result)
    requires NoneCompletes(k, init + [last])
    ensures NoneCompletes(k, init) && !Completes(k, Transcript(init), last)
  {
    var results := init + [last];
    forall i | 0 <= i < |init|
      ensures !Completes(k, Transcript(init[..i]), init[i])
    {
      assert results[..i] == init[..i] && results[i] == init[i];
    }
    assert results[..|init|] == init && results[|init|] == last;
  }

  // Then the transcript does not hold it either.
  lemma {:induction false} NoneInTranscript(k: string, results: seq<Result>)
    requires k != "" && NoneCompletes(k, results)
    ensures !Occurs(k, Transcript(results))
  {
    if results != [] {
      var init, last := results[..|results| - 1], results[|results| - 1];
      assert results == init + [last];
      NoneBefore(k, init, last);
      NoneInTranscript(k, init);
      OccursLess(k, Transcript(init) + last.text, last.suffix);
      assert Transcript(init) + "" == Transcript(init);
    }
  }

  lemma ListenedNext(cfg: Settings, w: Watch, init: seq<Result>, last: Result)
    requires Listened(cfg, w, init) == w.(buffer := Last(MAX_RESULT_BUFFER_SIZE, Transcript(init)))
    requires !Triggers(cfg, Listened(cfg, w, init), last.text, last.suffix, last.now)
    ensures Listened(cfg, w, init + [last]) == w.(buffer := Last(MAX_RESULT_BUFFER_SIZE, Transcript(init + [last])))
  {
    assert (init + [last])[..|init|] == init;
    LastAppend(MAX_RESULT_BUFFER_SIZE, Transcript(init), last.text);
    assert Transcript(init) + "" == Transcript(init);
  }

  lemma NextTriggers(cfg: Settings, w: Watch, results: seq<Result>, next: Result)
    requires cfg.keyword != "" && NoneCompletes(cfg.keyword, results) && Receivable(cfg, w, next)
    requires Listened(cfg, w, results) == w.(buffer := Last(MAX_RESULT_BUFFER_SIZE, Transcript(results)))
    ensures Triggers(cfg, Listened(cfg, w, results), next.text, next.suffix, next.now) <==> Completes(cfg.keyword, Transcript(results), next)
  {
    NoneInTranscript(cfg.keyword, results);
    LastIsEnd(MAX_RESULT_BUFFER_SIZE, Transcript(results));
    TriggersOnCompletion(cfg, History(Listened(cfg, w, results), Transcript(results), next.now, []), next.text, next.suffix, next.now);
  }

  /** From a cleared buffer outside a cooldown, as long as no result has completed the keyword
      there is no trigger and the buffer is the end of all the text; and the next result triggers
      exactly if it completes the keyword. */
  lemma {:induction false} FirstCompletionTriggers(cfg: Settings, w: Watch, results: seq<Result>, next: Result)
    requires w.buffer == "" && cfg.keyword != "" && NoneCompletes(cfg.keyword, results)
    requires forall r :: r in results + [next] ==> Receivable(cfg, w, r)
    ensures Listened(cfg, w, results) == w.(buffer := Last(MAX_RESULT_BUFFER_SIZE, Transcript(results)))
    ensures Triggers(cfg, Listened(cfg, w, results), next.text, next.suffix, next.now) <==> Completes(cfg.keyword, Transcript(results), next)
  {
    if results != [] {
      var init, last := results[..|results| - 1], results[|results| - 1];
      assert results == init + [last];
      assert last in results + [next];
      NoneBefore(cfg.keyword, init, last);
      FirstCompletionTriggers(cfg, w, init, last);
      ListenedNext(cfg, w, init, last);
    }
    assert next in results + [next];
    NextTriggers(cfg, w, results, next);
  }

  lemma OccursLess(k: string, s: string, t: string)
    ensures Occurs(k, s) ==> Occurs(k, s + t)
  {
    if Occurs(k, s) {
      var i :| 0 <= i <= |s| - |k| && OccursAt(k, s, i);
      OccursInFront(k, s, t, i);
    }
  }
}
