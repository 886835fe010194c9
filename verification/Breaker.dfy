/**
 The circuit breaker.  Execute enters and leaves in two separate critical
 sections with the guarded function running unlocked in between, so any number
 of calls overlap: a history is an arbitrary sequence of attempted entries and
 completions.
 */
module Breaker {

  datatype Mode = CLOSED | HALF_OPEN | OPEN

  datatype Config = Config(failureThreshold: int, successThreshold: int, timeout: int)

  datatype Breaker = Breaker(mode: Mode, failures: int, successes: int, changedAt: int)

  /** An attempt to enter, or the completion of an admitted call, at some time. */
  datatype Event = Try(now: int) | Done(now: int, failed: bool)

  predicate Admits(cfg: Config, b: Breaker, now: int) {
    b.mode == OPEN ==> now - b.changedAt > cfg.timeout
  }

  /** First critical section of Execute. */
  function Enter(cfg: Config, b: Breaker, now: int): Breaker {
    if b.mode == OPEN && Admits(cfg, b, now) then b.(mode := HALF_OPEN, successes := 0) else b
  }

  /** Does this completion open, or re-open, the breaker? */
  predicate Opens(cfg: Config, b: Breaker, e: Event) {
    e.Done? && e.failed && (b.mode == HALF_OPEN || b.failures + 1 >= cfg.failureThreshold)
  }

  /** Second critical section of Execute. */
  function Leave(cfg: Config, b: Breaker, now: int, failed: bool): Breaker {
    if failed then
      if b.mode == HALF_OPEN || b.failures + 1 >= cfg.failureThreshold then Breaker(OPEN, 0, b.successes, now)
      else b.(failures := b.failures + 1)
    else if b.mode == HALF_OPEN then
      if b.successes + 1 >= cfg.successThreshold then Breaker(CLOSED, 0, b.successes + 1, now)
      else b.(successes := b.successes + 1)
    else if b.mode == CLOSED then b.(failures := 0)
    else b
  }

  function Next(cfg: Config, b: Breaker, e: Event): Breaker {
    match e
    case Try(now) => Enter(cfg, b, now)
    case Done(now, failed) => Leave(cfg, b, now, failed)
  }

  function New(now: int): Breaker {
    Breaker(CLOSED, 0, 0, now)
  }

  /** The breaker made at `t0`, after a history. */
  function After(cfg: Config, t0: int, h: seq<Event>): Breaker {
    if h == [] then New(t0) else Next(cfg, After(cfg, t0, h[..|h| - 1]), h[|h| - 1])
  }

  lemma AfterSnoc(cfg: Config, t0: int, h: seq<Event>, e: Event)
    ensures After(cfg, t0, h + [e]) == Next(cfg, After(cfg, t0, h), e)
  {
    assert (h + [e])[..|h|] == h;
  }

  // ---------------------------------------------------------------------------
  // What a history says, without counters
  // ---------------------------------------------------------------------------

  /** How many events had happened when the present mode was entered. */
  function Since(cfg: Config, t0: int, h: seq<Event>): nat {
    if h == [] then 0
    else if After(cfg, t0, h[..|h| - 1]).mode == After(cfg, t0, h).mode then Since(cfg, t0, h[..|h| - 1])
    else |h|
  }

  lemma {:induction false} SinceBound(cfg: Config, t0: int, h: seq<Event>)
    ensures Since(cfg, t0, h) <= |h|
  {
    if h != [] {
      SinceBound(cfg, t0, h[..|h| - 1]);
    }
  }

  /** The failed completions at the end of a history, back to the last successful one. */
  function TrailingFailures(h: seq<Event>): nat {
    if h == [] then 0
    else match h[|h| - 1]
      case Try(_) => TrailingFailures(h[..|h| - 1])
      case Done(_, failed) => if failed then TrailingFailures(h[..|h| - 1]) + 1 else 0
  }

  function Completions(h: seq<Event>): nat {
    if h == [] then 0 else Completions(h[..|h| - 1]) + (if h[|h| - 1].Done? then 1 else 0)
  }

  predicate NoFailure(h: seq<Event>) {
    forall i :: 0 <= i < |h| ==> !(h[i].Done? && h[i].failed)
  }

  /** When the breaker last opened or re-opened (`t0` if never). */
  function LastOpening(cfg: Config, t0: int, h: seq<Event>): int {
    if h == [] then t0
    else if Opens(cfg, After(cfg, t0, h[..|h| - 1]), h[|h| - 1]) then h[|h| - 1].now
    else LastOpening(cfg, t0, h[..|h| - 1])
  }

  /** The present mode's part of the history grows by the new event as long as the mode lasts. */
  lemma SinceExtends(cfg: Config, t0: int, h: seq<Event>, e: Event)
    ensures Since(cfg, t0, h) <= |h|
    ensures After(cfg, t0, h + [e]) == Next(cfg, After(cfg, t0, h), e)
    ensures if After(cfg, t0, h + [e]).mode == After(cfg, t0, h).mode
            then Since(cfg, t0, h + [e]) == Since(cfg, t0, h)
                 && (h + [e])[Since(cfg, t0, h)..] == h[Since(cfg, t0, h)..] + [e]
            else Since(cfg, t0, h + [e]) == |h| + 1 && (h + [e])[|h| + 1..] == []
  {
    assert (h + [e])[..|h|] == h;
    SinceBound(cfg, t0, h);
  }

  lemma CountsExtend(h: seq<Event>, e: Event)
    ensures TrailingFailures(h + [e]) ==
            (if e.Try? then TrailingFailures(h) else if e.failed then TrailingFailures(h) + 1 else 0)
    ensures Completions(h + [e]) == Completions(h) + (if e.Done? then 1 else 0)
    ensures NoFailure(h + [e]) <==> NoFailure(h) && !(e.Done? && e.failed)
  {
    assert (h + [e])[..|h|] == h;
    assert (h + [e])[|h|] == e;
    assert NoFailure(h + [e]) ==> forall i :: 0 <= i < |h| ==> h[i] == (h + [e])[i];
  }

  // ---------------------------------------------------------------------------
  // Theorems over every history of overlapping calls
  // ---------------------------------------------------------------------------

  /**
   In CLOSED the failure counter is the trailing run of failed completions
   since CLOSED was entered; in HALF_OPEN the success counter is the number of
   completions since HALF_OPEN was entered, all of them successful.
   */
  lemma {:induction false} CountersTellHistory(cfg: Config, t0: int, h: seq<Event>)
    ensures Since(cfg, t0, h) <= |h|
    ensures var b := After(cfg, t0, h);
            var since := h[Since(cfg, t0, h)..];
            && (b.mode == CLOSED ==> b.failures == TrailingFailures(since))
            && (b.mode == HALF_OPEN ==> NoFailure(since) && b.successes == Completions(since))
  {
    if h != [] {
      var before, e := h[..|h| - 1], h[|h| - 1];
      assert before + [e] == h;
      CountersTellHistory(cfg, t0, before);
      SinceExtends(cfg, t0, before, e);
      CountsExtend(before[Since(cfg, t0, before)..], e);
      hide After, Since, TrailingFailures, Completions;
    }
  }

  /** From CLOSED the breaker opens exactly with the failure that makes the run reach the threshold. */
  lemma OpensAtThreshold(cfg: Config, t0: int, h: seq<Event>, e: Event)
    requires After(cfg, t0, h).mode == CLOSED
    ensures Since(cfg, t0, h) <= |h|
    ensures After(cfg, t0, h + [e]).mode != CLOSED <==>
            e.Done? && e.failed && TrailingFailures(h[Since(cfg, t0, h)..] + [e]) >= cfg.failureThreshold
    ensures After(cfg, t0, h + [e]).mode != HALF_OPEN
  {
    CountersTellHistory(cfg, t0, h);
    SinceExtends(cfg, t0, h, e);
    CountsExtend(h[Since(cfg, t0, h)..], e);
    hide After, Since, TrailingFailures, Completions, NoFailure;
  }

  /** From HALF_OPEN it closes exactly with the completion that makes `successThreshold`, all successes. */
  lemma ClosesAfterSuccesses(cfg: Config, t0: int, h: seq<Event>, e: Event)
    requires After(cfg, t0, h).mode == HALF_OPEN
    ensures Since(cfg, t0, h) <= |h|
    ensures var since := h[Since(cfg, t0, h)..] + [e];
            && (After(cfg, t0, h + [e]).mode == CLOSED <==>
                e.Done? && NoFailure(since) && Completions(since) >= cfg.successThreshold)
            && (After(cfg, t0, h + [e]).mode == OPEN <==> !NoFailure(since))
  {
    CountersTellHistory(cfg, t0, h);
    SinceExtends(cfg, t0, h, e);
    CountsExtend(h[Since(cfg, t0, h)..], e);
    hide After, Since, TrailingFailures, Completions, NoFailure;
  }

  lemma {:induction false} OpenSinceLastOpening(cfg: Config, t0: int, h: seq<Event>)
    ensures After(cfg, t0, h).mode == OPEN ==> After(cfg, t0, h).changedAt == LastOpening(cfg, t0, h)
  {
    if h != [] {
      OpenSinceLastOpening(cfg, t0, h[..|h| - 1]);
    }
  }

  // ---------------------------------------------------------------------------
  // A breaker that keeps no counters
  // ---------------------------------------------------------------------------

  /** The present mode, and after how many events it was entered; re-opening enters OPEN anew. */
  datatype Stretch = Stretch(mode: Mode, start: nat)

  function Failures(h: seq<Event>): nat {
    if h == [] then 0
    else Failures(h[..|h| - 1]) + (if h[|h| - 1].Done? && h[|h| - 1].failed then 1 else 0)
  }

  /**
   What the history alone says.  CLOSED opens with the failure that makes the run of
   failures at its end reach the threshold; OPEN re-opens with the failure that
   makes all its failures reach it, and is left by the first entry later than the
   timeout; HALF_OPEN opens with any failure, and closes with the completion that
   reaches the success threshold.
   */
  function Told(cfg: Config, h: seq<Event>): (s: Stretch)
    ensures s.start <= |h| && (s.mode == OPEN ==> s.start > 0)
  {
    if h == [] then Stretch(CLOSED, 0)
    else
      var before, e := h[..|h| - 1], h[|h| - 1];
      var s := Told(cfg, before);
      var part := h[s.start..];
      match s.mode
      case CLOSED =>
        if e.Done? && e.failed && TrailingFailures(part) >= cfg.failureThreshold then Stretch(OPEN, |h|) else s
      case OPEN =>
        if e.Try? && e.now - h[s.start - 1].now > cfg.timeout then Stretch(HALF_OPEN, |h|)
        else if e.Done? && e.failed && Failures(part) >= cfg.failureThreshold then Stretch(OPEN, |h|)
        else s
      case HALF_OPEN =>
        if e.Done? && e.failed then Stretch(OPEN, |h|)
        else if e.Done? && Completions(part) >= cfg.successThreshold then Stretch(CLOSED, |h|)
        else s
  }

  lemma FailuresExtend(h: seq<Event>, e: Event)
    ensures Failures(h + [e]) == Failures(h) + (if e.Done? && e.failed then 1 else 0)
  {
    assert (h + [e])[..|h|] == h;
  }

  /** What the breaker's fields say of a history, given its stretch. */
  predicate Tells(b: Breaker, s: Stretch, h: seq<Event>)
    requires s.start <= |h| && (s.mode == OPEN ==> s.start > 0)
  {
    var part := h[s.start..];
    && b.mode == s.mode
    && (s.mode == CLOSED ==> b.failures == TrailingFailures(part))
    && (s.mode == OPEN ==> b.failures == Failures(part) && b.changedAt == h[s.start - 1].now)
    && (s.mode == HALF_OPEN ==> b.successes == Completions(part))
  }

  /**
   Refinement: after every history of overlapping calls the breaker's mode is what
   the history alone says; in OPEN the failure counter is the number of failures
   since the latest opening or re-opening, and the time of change is its time.
   */
  lemma {:induction false} CountersRefineHistory(cfg: Config, t0: int, h: seq<Event>)
    ensures Tells(After(cfg, t0, h), Told(cfg, h), h)
  {
    if h != [] {
      var before, e := h[..|h| - 1], h[|h| - 1];
      assert before + [e] == h;
      CountersRefineHistory(cfg, t0, before);
      TellsNext(cfg, t0, before, e);
    }
  }

  lemma TellsNext(cfg: Config, t0: int, h: seq<Event>, e: Event)
    requires Tells(After(cfg, t0, h), Told(cfg, h), h)
    ensures Tells(After(cfg, t0, h + [e]), Told(cfg, h + [e]), h + [e])
  {
    hide Tells, After;
    match Told(cfg, h).mode
    case CLOSED => TellsFromClosed(cfg, t0, h, e);
    case OPEN => TellsFromOpen(cfg, t0, h, e);
    case HALF_OPEN => TellsFromHalfOpen(cfg, t0, h, e);
  }

  lemma TellsSetting(cfg: Config, t0: int, h: seq<Event>, e: Event)
    ensures var s := Told(cfg, h);
            var part := h[s.start..] + [e];
            && After(cfg, t0, h + [e]) == Next(cfg, After(cfg, t0, h), e)
            && (h + [e])[s.start..] == part && (h + [e])[|h| + 1..] == []
            && TrailingFailures(part) ==
               (if e.Try? then TrailingFailures(h[s.start..]) else if e.failed then TrailingFailures(h[s.start..]) + 1 else 0)
            && Completions(part) == Completions(h[s.start..]) + (if e.Done? then 1 else 0)
            && Failures(part) == Failures(h[s.start..]) + (if e.Done? && e.failed then 1 else 0)
            && Failures([]) == 0 && Completions([]) == 0 && TrailingFailures([]) == 0
    ensures var s := Told(cfg, h);
            var part := h[s.start..] + [e];
            Told(cfg, h + [e]) ==
              match s.mode
              case CLOSED =>
                if e.Done? && e.failed && TrailingFailures(part) >= cfg.failureThreshold then Stretch(OPEN, |h| + 1) else s
              case OPEN =>
                if e.Try? && e.now - h[s.start - 1].now > cfg.timeout then Stretch(HALF_OPEN, |h| + 1)
                else if e.Done? && e.failed && Failures(part) >= cfg.failureThreshold then Stretch(OPEN, |h| + 1)
                else s
              case HALF_OPEN =>
                if e.Done? && e.failed then Stretch(OPEN, |h| + 1)
                else if e.Done? && Completions(part) >= cfg.successThreshold then Stretch(CLOSED, |h| + 1)
                else s
  {
    assert Failures([]) == 0 && Completions([]) == 0 && TrailingFailures([]) == 0;
    hide After, Next, TrailingFailures, Completions, NoFailure;
    var s := Told(cfg, h);
    AfterSnoc(cfg, t0, h, e);
    assert (h + [e])[..|h|] == h;
    assert (h + [e])[s.start..] == h[s.start..] + [e];
    CountsExtend(h[s.start..], e);
    FailuresExtend(h[s.start..], e);
  }

  lemma TellsFromClosed(cfg: Config, t0: int, h: seq<Event>, e: Event)
    requires Tells(After(cfg, t0, h), Told(cfg, h), h) && Told(cfg, h).mode == CLOSED
    ensures Tells(After(cfg, t0, h + [e]), Told(cfg, h + [e]), h + [e])
  {
    TellsSetting(cfg, t0, h, e);
    hide After, Told, NoFailure, Failures, Completions, TrailingFailures;
  }

  lemma TellsFromOpen(cfg: Config, t0: int, h: seq<Event>, e: Event)
    requires Tells(After(cfg, t0, h), Told(cfg, h), h) && Told(cfg, h).mode == OPEN
    ensures Tells(After(cfg, t0, h + [e]), Told(cfg, h + [e]), h + [e])
  {
    TellsSetting(cfg, t0, h, e);
    hide After, Told, NoFailure, Failures, Completions, TrailingFailures;
  }

  lemma TellsFromHalfOpen(cfg: Config, t0: int, h: seq<Event>, e: Event)
    requires Tells(After(cfg, t0, h), Told(cfg, h), h) && Told(cfg, h).mode == HALF_OPEN
    ensures Tells(After(cfg, t0, h + [e]), Told(cfg, h + [e]), h + [e])
  {
    TellsSetting(cfg, t0, h, e);
    hide After, Told, NoFailure, Failures, Completions, TrailingFailures;
  }

  /** So an entry is admitted exactly unless the history says OPEN since no longer than the timeout. */
  lemma AdmitsByHistory(cfg: Config, t0: int, h: seq<Event>, now: int)
    ensures var s := Told(cfg, h);
            Admits(cfg, After(cfg, t0, h), now) <==> s.mode != OPEN || now - h[s.start - 1].now > cfg.timeout
  {
    CountersRefineHistory(cfg, t0, h);
  }

  predicate InOrder(h: seq<Event>) {
    forall i, j :: 0 <= i < j < |h| ==> h[i].now <= h[j].now
  }

  /** While OPEN, a call is admitted exactly when more than `timeout` has passed since the last (re-)opening. */
  lemma AdmittedAfterTimeout(cfg: Config, t0: int, h: seq<Event>, now: int)
    requires After(cfg, t0, h).mode == OPEN
    ensures Admits(cfg, After(cfg, t0, h), now) <==> now - LastOpening(cfg, t0, h) > cfg.timeout
  {
    OpenSinceLastOpening(cfg, t0, h);
  }

  /** After an opening at `at` the breaker stays OPEN until `timeout` has passed, whatever calls complete. */
  lemma {:induction false} StaysOpen(cfg: Config, t0: int, h: seq<Event>, e: Event, later: seq<Event>)
    requires Opens(cfg, After(cfg, t0, h), e)
    requires forall i :: 0 <= i < |later| ==> e.now <= later[i].now <= e.now + cfg.timeout
    ensures var b := After(cfg, t0, h + [e] + later); b.mode == OPEN && b.changedAt >= e.now
  {
    if later == [] {
      assert h + [e] + later == h + [e];
      AfterSnoc(cfg, t0, h, e);
      hide After;
    } else {
      var n := |later| - 1;
      StaysOpen(cfg, t0, h, e, later[..n]);
      assert h + [e] + later == (h + [e] + later[..n]) + [later[n]];
      AfterSnoc(cfg, t0, h + [e] + later[..n], later[n]);
      hide After;
    }
  }

  /** No call is admitted within `timeout` of any opening or re-opening. */
  lemma NoAdmissionWhileCooling(cfg: Config, t0: int, h: seq<Event>, e: Event, later: seq<Event>, now: int)
    requires Opens(cfg, After(cfg, t0, h), e) && InOrder([e] + later + [Try(now)])
    requires now - e.now <= cfg.timeout
    ensures !Admits(cfg, After(cfg, t0, h + [e] + later), now)
  {
    var all := [e] + later + [Try(now)];
    forall i | 0 <= i < |later| ensures e.now <= later[i].now <= e.now + cfg.timeout {
      assert all[0] == e && all[i + 1] == later[i] && all[|all| - 1] == Try(now);
    }
    assert all[0] == e && all[|all| - 1] == Try(now);
    StaysOpen(cfg, t0, h, e, later);
  }

  /** HALF_OPEN does not limit its probes: any number of calls enter before the first completes. */
  lemma {:induction false} HalfOpenAdmitsAll(cfg: Config, t0: int, h: seq<Event>, tries: seq<Event>)
    requires After(cfg, t0, h).mode == HALF_OPEN
    requires forall i :: 0 <= i < |tries| ==> tries[i].Try?
    ensures After(cfg, t0, h + tries) == After(cfg, t0, h)
    ensures forall now :: Admits(cfg, After(cfg, t0, h + tries), now)
  {
    if tries == [] {
      assert h + tries == h;
    } else {
      var n := |tries| - 1;
      HalfOpenAdmitsAll(cfg, t0, h, tries[..n]);
      assert h + tries == (h + tries[..n]) + [tries[n]];
      AfterSnoc(cfg, t0, h + tries[..n], tries[n]);
      hide After;
    }
  }

  // ---------------------------------------------------------------------------
  // The breaker itself
  // ---------------------------------------------------------------------------

  class CircuitBreaker {
    const cfg: Config
    var state: Mode
    var failureCount: int
    var successCount: int
    var lastStateChange: int

    ghost function View(): Breaker
      reads this
    {
      Breaker(state, failureCount, successCount, lastStateChange)
    }

    constructor (failureThreshold: int, successThreshold: int, timeout: int, now: int)
      ensures cfg == Config(failureThreshold, successThreshold, timeout) && View() == New(now)
    {
      cfg := Config(failureThreshold, successThreshold, timeout);
      state, failureCount, successCount, lastStateChange := CLOSED, 0, 0, now;
    }

    /** The part of Execute before the function runs; `false` is ErrCircuitOpen. */
    method Before(now: int) returns (admitted: bool)
      modifies this
      ensures admitted <==> Admits(cfg, old(View()), now)
      ensures View() == Next(cfg, old(View()), Try(now))
    {
      if state == OPEN {
        if now - lastStateChange > cfg.timeout {
          state := HALF_OPEN;
          successCount := 0;
        } else {
          return false;
        }
      }
      return true;
    }

    /** The part of Execute after the function has run. */
    method AfterCall(now: int, failed: bool)
      modifies this
      ensures View() == Next(cfg, old(View()), Done(now, failed))
    {
      if failed {
        failureCount := failureCount + 1;
        if state == HALF_OPEN || failureCount >= cfg.failureThreshold {
          state := OPEN;
          lastStateChange := now;
          failureCount := 0;
        }
        return;
      }
      if state == HALF_OPEN {
        successCount := successCount + 1;
        if successCount >= cfg.successThreshold {
          state := CLOSED;
          failureCount := 0;
          lastStateChange := now;
        }
      } else if state == CLOSED {
        failureCount := 0;
      }
    }
  }
}
