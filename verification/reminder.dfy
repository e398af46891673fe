/** The camera monitor: when it reminds, over a run of frames with and without a match. */
module Reminder {
  type Time = int

  datatype Config = Config(hitConfirmations: int, missClearCount: int, cooldown: int, maxSilence: int)

  // The part of the target's state that decides about reminders.
  datatype Target = Target(present: bool, lastRemindAt: Time, misses: int, hitStreak: int)

  const INITIAL: Target := Target(false, 0, 0, 0)

  // A frame: whether the detection has a match, and when it was taken.
  datatype Frame = Frame(hit: bool, now: Time)

  function Max(a: int, b: int): int {
    if a >= b then a else b
  }

  predicate Reminds(cfg: Config, t: Target, f: Frame) {
    && f.hit && t.hitStreak + 1 >= cfg.hitConfirmations
    && (t.present ==> f.now - t.lastRemindAt >= Max(cfg.cooldown, cfg.maxSilence))
  }

  function Updated(cfg: Config, t: Target, f: Frame): Target {
    if f.hit then Target(true, if Reminds(cfg, t, f) then f.now else t.lastRemindAt, 0, t.hitStreak + 1)
    else if t.misses + 1 >= cfg.missClearCount then Target(false, 0, t.misses + 1, 0)
    else Target(t.present, t.lastRemindAt, t.misses + 1, 0)
  }

  // -- the object -------------------------------------------------------------------------

  class Monitor {
    const cfg: Config
    var present: bool
    var lastRemindAt: Time
    var misses: int
    var hitStreak: int

    function State(): Target
      reads this
    {
      Target(present, lastRemindAt, misses, hitStreak)
    }

    constructor (cfg: Config)
      ensures this.cfg == cfg && State() == INITIAL
    {
      this.cfg := cfg;
      present, lastRemindAt, misses, hitStreak := false, 0, 0, 0;
    }

    // update_monitor_state: whether a reminder is among the events.
    method Update(f: Frame) returns (reminded: bool)
      modifies this
      ensures State() == Updated(cfg, old(State()), f) && reminded == Reminds(cfg, old(State()), f)
    {
      reminded := false;
      if f.hit {
        misses := 0;
        hitStreak := hitStreak + 1;
        var remind := false;
        if hitStreak >= cfg.hitConfirmations {
          if !present {
            remind := true;
          } else {
            var elapsed := f.now - lastRemindAt;
            if elapsed >= cfg.maxSilence {
              remind := true;
            }
          }
        }
        var blocked := present && f.now - lastRemindAt < cfg.cooldown;
        if remind && !blocked {
          lastRemindAt := f.now;
          reminded := true;
        }
        present := true;
      } else {
        misses := misses + 1;
        hitStreak := 0;
        if misses >= cfg.missClearCount {
          present := false;
          lastRemindAt := 0;
        }
      }
    }
  }

  // -- runs -------------------------------------------------------------------------------

  function After(cfg: Config, t: Target, frames: seq<Frame>): Target {
    if frames == [] then t else Updated(cfg, After(cfg, t, frames[..|frames| - 1]), frames[|frames| - 1])
  }

  // The state before frame i, from the first frame on.
  function Before(cfg: Config, frames: seq<Frame>, i: nat): Target
    requires i <= |frames|
  {
    After(cfg, INITIAL, frames[..i])
  }

  predicate RemindsAt(cfg: Config, frames: seq<Frame>, i: nat)
    requires i < |frames|
  {
    Reminds(cfg, Before(cfg, frames, i), frames[i])
  }

  lemma BeforeNext(cfg: Config, frames: seq<Frame>, i: nat)
    requires i < |frames|
    ensures Before(cfg, frames, i + 1) == Updated(cfg, Before(cfg, frames, i), frames[i])
  {
    assert frames[..i + 1][..i] == frames[..i];
  }

  // Frames from a to b are all hits, or all misses.
  predicate AllAre(frames: seq<Frame>, a: int, b: int, hit: bool) {
    0 <= a <= b <= |frames| && forall k :: a <= k < b ==> frames[k].hit == hit
  }

  // The streak counts the hits just before, the misses the misses just before.
  lemma {:induction false} CountsAreStreaks(cfg: Config, frames: seq<Frame>, i: nat)
    requires i <= |frames|
    ensures var t := Before(cfg, frames, i);
            && 0 <= t.hitStreak && AllAre(frames, i - t.hitStreak, i, true)
            && 0 <= t.misses && AllAre(frames, i - t.misses, i, false)
  {
    if i > 0 {
      CountsAreStreaks(cfg, frames, i - 1);
      BeforeNext(cfg, frames, i - 1);
    }
  }

  // Frame i ends a run of n hits, enough to confirm.
  predicate Confirms(cfg: Config, frames: seq<Frame>, i: nat, n: nat) {
    n >= cfg.hitConfirmations && n >= 1 && AllAre(frames, i + 1 - n, i + 1, true)
  }

  /** Every reminder comes at the end of at least hit_confirmations consecutive hits. */
  lemma RemindersConfirmed(cfg: Config, frames: seq<Frame>, i: nat)
    requires i < |frames| && RemindsAt(cfg, frames, i)
    ensures exists n :: Confirms(cfg, frames, i, n)
  {
    var t := Before(cfg, frames, i);
    CountsAreStreaks(cfg, frames, i);
    assert Confirms(cfg, frames, i, t.hitStreak + 1);
  }

  // Between a and b lie enough misses in a row to clear the target.
  ghost predicate Cleared(cfg: Config, frames: seq<Frame>, a: nat, b: nat) {
    exists from, to :: a <= from < to <= b && to - from >= cfg.missClearCount && AllAre(frames, from, to, false)
  }

  // Since the reminder at i, and none after it, the target was cleared or remembers it.
  ghost predicate Remembers(cfg: Config, frames: seq<Frame>, i: nat, j: nat)
    requires i < j <= |frames|
  {
    var t := Before(cfg, frames, j);
    && 0 <= t.misses <= j - i - 1
    && (Cleared(cfg, frames, i + 1, j) || (t.present && t.lastRemindAt == frames[i].now))
  }

  lemma ClearedStays(cfg: Config, frames: seq<Frame>, a: nat, b: nat, c: nat)
    requires Cleared(cfg, frames, a, b) && b <= c
    ensures Cleared(cfg, frames, a, c)
  {
  }

  lemma MissRemembers(cfg: Config, frames: seq<Frame>, i: nat, j: nat)
    requires i < j < |frames| && Remembers(cfg, frames, i, j) && !frames[j].hit
    ensures Remembers(cfg, frames, i, j + 1)
  {
    var t := Before(cfg, frames, j);
    BeforeNext(cfg, frames, j);
    CountsAreStreaks(cfg, frames, j);
    if t.misses + 1 >= cfg.missClearCount {
      assert AllAre(frames, j - t.misses, j + 1, false);
      assert Cleared(cfg, frames, i + 1, j + 1);
    } else if Cleared(cfg, frames, i + 1, j) {
      ClearedStays(cfg, frames, i + 1, j, j + 1);
    }
  }

  lemma HitRemembers(cfg: Config, frames: seq<Frame>, i: nat, j: nat)
    requires i < j < |frames| && Remembers(cfg, frames, i, j) && frames[j].hit && !RemindsAt(cfg, frames, j)
    ensures Remembers(cfg, frames, i, j + 1)
  {
    BeforeNext(cfg, frames, j);
    if Cleared(cfg, frames, i + 1, j) {
      ClearedStays(cfg, frames, i + 1, j, j + 1);
    }
  }

  lemma {:induction false} RemindRemembered(cfg: Config, frames: seq<Frame>, i: nat, j: nat)
    requires i < j <= |frames| && RemindsAt(cfg, frames, i) && forall k :: i < k < j ==> !RemindsAt(cfg, frames, k)
    ensures Remembers(cfg, frames, i, j)
  {
    BeforeNext(cfg, frames, j - 1);
    if j > i + 1 {
      RemindRemembered(cfg, frames, i, j - 1);
      if frames[j - 1].hit {
        HitRemembers(cfg, frames, i, j - 1);
      } else {
        MissRemembers(cfg, frames, i, j - 1);
      }
    }
  }

  /** Two consecutive reminders are at least max(cooldown, max silence) apart, or enough misses in a
      row to clear the target lie between them. */
  lemma RemindersSpaced(cfg: Config, frames: seq<Frame>, i: nat, j: nat)
    requires i < j < |frames| && RemindsAt(cfg, frames, i) && RemindsAt(cfg, frames, j)
    requires forall k :: i < k < j ==> !RemindsAt(cfg, frames, k)
    ensures frames[j].now - frames[i].now >= Max(cfg.cooldown, cfg.maxSilence) || Cleared(cfg, frames, i + 1, j)
  {
    RemindRemembered(cfg, frames, i, j);
  }

  /** A confirmed hit reminds exactly if the target was not present or the last reminder it
      remembers is long enough ago; in particular enough time always suffices. */
  lemma ConfirmedHitReminds(cfg: Config, frames: seq<Frame>, i: nat, n: nat)
    requires i < |frames| && Confirms(cfg, frames, i, n)
    ensures var t := Before(cfg, frames, i);
            RemindsAt(cfg, frames, i) <==> !t.present || frames[i].now - t.lastRemindAt >= Max(cfg.cooldown, cfg.maxSilence)
  {
    StreakAtLeast(cfg, frames, i, n - 1);
  }

  lemma {:induction false} StreakAtLeast(cfg: Config, frames: seq<Frame>, i: nat, n: nat)
    requires i <= |frames| && n <= i && AllAre(frames, i - n, i, true)
    ensures Before(cfg, frames, i).hitStreak >= n
  {
    if n > 0 {
      StreakAtLeast(cfg, frames, i - 1, n - 1);
      BeforeNext(cfg, frames, i - 1);
    } else {
      CountsAreStreaks(cfg, frames, i);
    }
  }

  // A first hit makes the target present without a reminder when more hits are asked for: what
  // reminds later is then the time since zero.
  lemma PresentBeforeConfirmed(cfg: Config, now: Time)
    requires cfg.hitConfirmations > 1
    ensures var t := Updated(cfg, INITIAL, Frame(true, now));
            t.present && t.lastRemindAt == 0 && !Reminds(cfg, INITIAL, Frame(true, now))
  {
  }

  // Before the first reminder the target remembers none, and a hit leaves it present.
  lemma {:induction false} NoneRemembered(cfg: Config, frames: seq<Frame>, i: nat)
    requires i <= |frames| && forall k :: 0 <= k < i ==> !RemindsAt(cfg, frames, k)
    ensures Before(cfg, frames, i).lastRemindAt == 0
    ensures i > 0 && frames[i - 1].hit ==> Before(cfg, frames, i).present
  {
    if i > 0 {
      NoneRemembered(cfg, frames, i - 1);
      BeforeNext(cfg, frames, i - 1);
      assert !RemindsAt(cfg, frames, i - 1);
    }
  }

  /** The target counts as present exactly from a hit until misses in a row clear it. */
  lemma {:induction false} PresentSince(cfg: Config, frames: seq<Frame>, i: nat, j: nat)
    requires j < i <= |frames| && frames[j].hit && AllAre(frames, j + 1, i, false)
    ensures Before(cfg, frames, i).misses == i - j - 1
    ensures Before(cfg, frames, i).present <==> i == j + 1 || i - j - 1 < cfg.missClearCount
  {
    BeforeNext(cfg, frames, i - 1);
    if i > j + 1 {
      PresentSince(cfg, frames, i - 1, j);
    }
  }

  // Misses in a row clear the target once there are enough of them.
  lemma {:induction false} MissesClear(cfg: Config, frames: seq<Frame>, i: nat, n: nat)
    requires i <= |frames| && 0 < n && AllAre(frames, i - n, i, false)
    ensures var t := Before(cfg, frames, i);
            t.misses >= n && t.hitStreak == 0 && (n >= cfg.missClearCount ==> !t.present && t.lastRemindAt == 0)
  {
    BeforeNext(cfg, frames, i - 1);
    if n > 1 {
      MissesClear(cfg, frames, i - 1, n - 1);
    } else {
      CountsAreStreaks(cfg, frames, i - 1);
    }
  }

  /** Misses in a row that clear the target forget its reminder too: when one hit is enough, the next
      frame reminds exactly if it is a hit, whatever the time. */
  lemma ClearedReminds(cfg: Config, frames: seq<Frame>, i: nat, n: nat)
    requires i < |frames| && 0 < n && cfg.missClearCount <= n && AllAre(frames, i - n, i, false) && cfg.hitConfirmations <= 1
    ensures RemindsAt(cfg, frames, i) <==> frames[i].hit
  {
    MissesClear(cfg, frames, i, n);
  }

  /** The first reminder of a run, when more than one hit is asked for: a confirmed hit brings it
      exactly if the time since zero is long enough, for the target has been present since its
      first hit. */
  lemma FirstReminderSinceZero(cfg: Config, frames: seq<Frame>, i: nat, n: nat)
    requires i < |frames| && Confirms(cfg, frames, i, n) && cfg.hitConfirmations > 1
    requires forall k :: 0 <= k < i ==> !RemindsAt(cfg, frames, k)
    ensures RemindsAt(cfg, frames, i) <==> frames[i].now >= Max(cfg.cooldown, cfg.maxSilence)
  {
    NoneRemembered(cfg, frames, i);
    ConfirmedHitReminds(cfg, frames, i, n);
    assert frames[i - 1].hit;
  }
}
