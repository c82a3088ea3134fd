/** Retrying a model request: attempts stream events to a consumer, a failed attempt may be
    replayed after a reset and a growing delay, and nothing is replayed once its effects
    could have been seen. */
module Retry {

  import opened Wrappers

  const SECOND: int := 1_000_000_000
  const MINUTE: int := 60 * SECOND

  function Max(a: int, b: int): int { if a > b then a else b }

  function Min(a: int, b: int): int { if a < b then a else b }

  // ----- backoff

  function Pow2(n: nat): nat {
    if n == 0 then 1 else 2 * Pow2(n - 1)
  }

  /** The delay after `retry` doublings under a positive cap. */
  function Backoff(retry: nat, base: int, cap: int): int {
    if retry == 0 then Min(base, cap)
    else if Doubled(retry - 1, base, cap) >= cap / 2 then cap
    else 2 * Doubled(retry - 1, base, cap)
  }

  /** The loop's running value: doubled until it would reach half the cap. */
  function Doubled(retry: nat, base: int, cap: int): int {
    if retry == 0 then base
    else
      var before := Doubled(retry - 1, base, cap);
      if before >= cap / 2 then before else 2 * before
  }

  function BaseDelay(base: int): int {
    if base <= 0 then SECOND else base
  }

  function DelayCap(base: int, cap: int): int {
    if cap <= 0 then BaseDelay(base) else cap
  }

  lemma {:induction false} DoubledStays(retry: nat, more: nat, base: int, cap: int)
    requires retry <= more && Doubled(retry, base, cap) >= cap / 2
    ensures Doubled(more, base, cap) == Doubled(retry, base, cap)
    decreases more
  {
    if retry == more {
    } else {
      DoubledStays(retry, more - 1, base, cap);
    }
  }

  method RetryDelayForAttempt(retry: int, base: int, cap: int) returns (delay: int)
    ensures delay == Backoff(Max(retry, 0), BaseDelay(base), DelayCap(base, cap))
  {
    var n, b, c := Max(retry, 0), BaseDelay(base), DelayCap(base, cap);
    delay := b;
    for i := 0 to n
      invariant delay == Doubled(i, b, c)
      invariant i > 0 ==> Doubled(i - 1, b, c) < c / 2
    {
      if delay >= c / 2 {
        DoubledStays(i, n - 1, b, c);
        return c;
      }
      delay := 2 * delay;
    }
    if delay > c {
      return c;
    }
  }

  lemma {:induction false} DoubledBound(retry: nat, base: int, cap: int)
    requires base > 0 && cap > 0
    ensures Doubled(retry, base, cap) >= 1
    ensures Doubled(retry, base, cap) < cap / 2 ==> Doubled(retry, base, cap) == base * Pow2(retry)
    ensures Doubled(retry, base, cap) <= base * Pow2(retry)
    ensures retry > 0 ==> Doubled(retry, base, cap) <= Max(base, cap - 1)
  {
    if retry == 0 {
    } else {
      DoubledBound(retry - 1, base, cap);
      var before := Doubled(retry - 1, base, cap);
      PowStep(base, retry);
      assert base * Pow2(retry) == 2 * (base * Pow2(retry - 1));
    }
  }

  lemma PowStep(base: int, retry: nat)
    requires retry > 0
    ensures base * Pow2(retry) == 2 * (base * Pow2(retry - 1))
  {
  }

  /** Never above the cap, never shorter for a later retry, and at most one nanosecond above
      the exact exponential, which it never undercuts. */
  lemma {:induction false} BackoffBounds(retry: nat, base: int, cap: int)
    requires base > 0 && cap > 0
    ensures 0 < Backoff(retry, base, cap) <= cap
    ensures Min(base * Pow2(retry), cap) <= Backoff(retry, base, cap) <= Min(base * Pow2(retry), cap) + 1
    ensures Backoff(retry, base, cap) <= Backoff(retry + 1, base, cap)
  {
    DoubledBound(retry, base, cap);
    if retry == 0 {
    } else {
      DoubledBound(retry - 1, base, cap);
      PowStep(base, retry);
    }
  }

  lemma {:induction false} BackoffMonotone(retry: nat, later: nat, base: int, cap: int)
    requires base > 0 && cap > 0 && retry <= later
    ensures Backoff(retry, base, cap) <= Backoff(later, base, cap)
    decreases later
  {
    if retry == later {
    } else {
      BackoffMonotone(retry, later - 1, base, cap);
      BackoffBounds(later - 1, base, cap);
    }
  }

  /** It exceeds the exact exponential only where doubling would stop just below the cap. */
  lemma {:induction false} BackoffExact(retry: nat, base: int, cap: int)
    requires base > 0 && cap > 0
    ensures Backoff(retry, base, cap) == Min(base * Pow2(retry), cap) <==> !(retry > 0 && base * Pow2(retry) == cap - 1)
  {
    DoubledBound(retry, base, cap);
    if retry == 0 {
    } else {
      DoubledBound(retry - 1, base, cap);
      PowStep(base, retry);
    }
  }

  // ----- limits

  datatype Config = Config(maxRetries: int, baseDelay: int, maxDelay: int,
                           rateLimitMaxRetries: int, rateLimitBaseDelay: int, rateLimitMaxDelay: int)

  function Normalize(cfg: Config): Config {
    Config(if cfg.maxRetries <= 0 then -1 else cfg.maxRetries,
           if cfg.baseDelay <= 0 then SECOND else cfg.baseDelay,
           if cfg.maxDelay <= 0 then MINUTE else cfg.maxDelay,
           if cfg.rateLimitMaxRetries <= 0 then -1 else cfg.rateLimitMaxRetries,
           if cfg.rateLimitBaseDelay <= 0 then 5 * SECOND else cfg.rateLimitBaseDelay,
           if cfg.rateLimitMaxDelay <= 0 then MINUTE else cfg.rateLimitMaxDelay)
  }

  /** How an attempt failed; a failure class may clamp a finite retry count. */
  datatype Failure = Failure(retryable: bool, backpressure: bool, clamp: Option<int>, retryAfter: int)

  /** The retries a failure allows; negative is no limit. */
  function Limit(cfg: Config, f: Failure): int {
    var n := Normalize(cfg);
    var count := if f.backpressure then n.rateLimitMaxRetries else n.maxRetries;
    if count >= 0 && f.clamp.Some? && 0 <= f.clamp.value < count then f.clamp.value else count
  }

  /** The configured number of retries of the failure's class; none if it is not positive. */
  function ClassRetries(cfg: Config, f: Failure): int {
    if f.backpressure then cfg.rateLimitMaxRetries else cfg.maxRetries
  }

  /** A failure limits the retries exactly when its class is configured to, and then to the smaller
      of that number and what the failure itself allows. */
  lemma LimitExactly(cfg: Config, f: Failure)
    ensures Limit(cfg, f) >= 0 <==> ClassRetries(cfg, f) > 0
    ensures Limit(cfg, f) >= 0 ==>
      && Limit(cfg, f) <= ClassRetries(cfg, f)
      && (f.clamp.Some? && f.clamp.value >= 0 ==> Limit(cfg, f) <= f.clamp.value)
      && (Limit(cfg, f) == ClassRetries(cfg, f) || f.clamp == Some(Limit(cfg, f)))
  {
  }

  /** The running limit of the loop. */
  function Tighter(effective: int, limit: int): int {
    if limit >= 0 && (effective < 0 || limit < effective) then limit else effective
  }

  function Effective(cfg: Config, failures: seq<Failure>): int {
    if failures == [] then -1
    else Tighter(Effective(cfg, failures[..|failures| - 1]), Limit(cfg, failures[|failures| - 1]))
  }

  /** The running limit is the smallest finite limit seen, and absent exactly when none was. */
  lemma {:induction false} EffectiveIsLeast(cfg: Config, failures: seq<Failure>)
    ensures Effective(cfg, failures) >= 0 ==> exists i :: 0 <= i < |failures| && Limit(cfg, failures[i]) == Effective(cfg, failures)
    ensures forall i :: 0 <= i < |failures| && Limit(cfg, failures[i]) >= 0 ==> 0 <= Effective(cfg, failures) <= Limit(cfg, failures[i])
  {
    if failures == [] {
    } else {
      var n := |failures| - 1;
      EffectiveIsLeast(cfg, failures[..n]);
      hide Limit;
      var before := Effective(cfg, failures[..n]);
      if before >= 0 {
        var i :| 0 <= i < n && Limit(cfg, failures[..n][i]) == before;
        assert failures[i] == failures[..n][i];
      }
      assert forall i :: 0 <= i < n ==> failures[i] == failures[..n][i];
    }
  }

  function Wait(cfg: Config, f: Failure, attempt: nat, jitter: nat): int {
    var n := Normalize(cfg);
    var backoff := if f.backpressure then Backoff(attempt, n.rateLimitBaseDelay, n.rateLimitMaxDelay)
                   else Backoff(attempt, n.baseDelay, n.maxDelay);
    var jittered := if backoff > 1 then backoff / 2 + jitter % (backoff - backoff / 2) else backoff;
    Max(jittered, f.retryAfter)
  }

  /** A wait is at least half the backoff and the server's minimum, and below the backoff
      unless the server asked for more. */
  lemma WaitBounds(cfg: Config, f: Failure, attempt: nat, jitter: nat)
    ensures Wait(cfg, f, attempt, jitter) >= f.retryAfter
    ensures var n := Normalize(cfg);
      var backoff := if f.backpressure then Backoff(attempt, n.rateLimitBaseDelay, n.rateLimitMaxDelay)
                     else Backoff(attempt, n.baseDelay, n.maxDelay);
      && backoff / 2 <= Wait(cfg, f, attempt, jitter)
      && (Wait(cfg, f, attempt, jitter) <= backoff || Wait(cfg, f, attempt, jitter) == f.retryAfter)
  {
    var n := Normalize(cfg);
    BackoffBounds(attempt, n.rateLimitBaseDelay, n.rateLimitMaxDelay);
    BackoffBounds(attempt, n.baseDelay, n.maxDelay);
  }

  /** The first delay and the longest one of the failure's class, as configured. */
  function ClassBase(cfg: Config, f: Failure): int {
    if f.backpressure then if cfg.rateLimitBaseDelay > 0 then cfg.rateLimitBaseDelay else 5_000_000_000
    else if cfg.baseDelay > 0 then cfg.baseDelay else 1_000_000_000
  }

  function ClassCap(cfg: Config, f: Failure): int {
    if f.backpressure then if cfg.rateLimitMaxDelay > 0 then cfg.rateLimitMaxDelay else 60_000_000_000
    else if cfg.maxDelay > 0 then cfg.maxDelay else 60_000_000_000
  }

  /** How long to wait before retry `n`: at least what the server asked for and half the capped
      exponential of the class, and beyond that exponential only if the server asked. */
  ghost predicate WaitFits(cfg: Config, f: Failure, n: nat, wait: int)
    requires n > 0
  {
    var exact := Min(ClassBase(cfg, f) * Pow2(n - 1), ClassCap(cfg, f));
    && wait >= f.retryAfter
    && wait >= exact / 2
    && (wait > exact + 1 ==> wait == f.retryAfter)
  }

  lemma WaitIsFitting(cfg: Config, f: Failure, attempt: nat, jitter: nat)
    ensures WaitFits(cfg, f, attempt + 1, Wait(cfg, f, attempt, jitter))
  {
    BackoffBounds(attempt, ClassBase(cfg, f), ClassCap(cfg, f));
    WaitBounds(cfg, f, attempt, jitter);
    hide Backoff, Wait, Pow2;
  }

  // ----- one call

  datatype Event = Nil | Plain | Final

  /** What happens around one attempt: what the provider streams and how it ends, after how
      many events the consumer stops, whether the caller's context has ended, whether the
      consumer refuses the reset, and whether the wait is cut short. */
  datatype Script = Script(events: seq<Event>, failure: Option<Failure>, stopAfter: Option<nat>,
                           cancelled: bool, refused: bool, cut: bool, jitter: nat)

  datatype Ending = Succeeded | Stopped | Cancelled | Rejected | Exhausted | Refused | Interrupted

  datatype Item = Attempt(n: nat) | Out(final: bool) | Reset(n: nat, maxRetries: int, wait: int) | End(ending: Ending)

  function Attempts(trace: seq<Item>): nat {
    if trace == [] then 0 else Attempts(trace[..|trace| - 1]) + if trace[|trace| - 1].Attempt? then 1 else 0
  }

  predicate SeenFinal(trace: seq<Item>) {
    Out(true) in trace
  }

  predicate LastIsReset(trace: seq<Item>) {
    trace != [] && trace[|trace| - 1].Reset?
  }

  predicate Ended(trace: seq<Item>) {
    trace != [] && trace[|trace| - 1].End?
  }

  /** What may come next in the stream a consumer sees. */
  ghost predicate MayFollow(trace: seq<Item>, item: Item) {
    && !Ended(trace)
    && match item
       case Attempt(n) => n == Attempts(trace) && !SeenFinal(trace) && (trace == [] || LastIsReset(trace))
       case Reset(n, _, _) => n == Attempts(trace) > 0 && !SeenFinal(trace) && !LastIsReset(trace)
       case Out(_) => Attempts(trace) > 0 && !LastIsReset(trace)
       case End(_) => true
  }

  ghost predicate Legal(trace: seq<Item>) {
    forall i :: 0 <= i < |trace| ==> MayFollow(trace[..i], trace[i])
  }

  lemma LegalSnoc(trace: seq<Item>, item: Item)
    requires Legal(trace) && MayFollow(trace, item)
    ensures Legal(trace + [item])
    ensures Attempts(trace + [item]) == Attempts(trace) + if item.Attempt? then 1 else 0
  {
    hide MayFollow;
    var longer := trace + [item];
    assert longer[..|trace|] == trace;
    forall i | 0 <= i < |longer|
      ensures MayFollow(longer[..i], longer[i])
    {
      assert longer[..i] == trace[..i];
    }
  }

  /** Resets stay within the smallest limit of the failures they follow. */
  ghost predicate Budgeted(cfg: Config, trace: seq<Item>, failures: seq<Failure>) {
    forall i :: 0 <= i < |trace| && trace[i].Reset? ==> WithinBudget(cfg, trace[i], failures)
  }

  ghost predicate WithinBudget(cfg: Config, reset: Item, failures: seq<Failure>)
    requires reset.Reset?
  {
    && 0 < reset.n <= |failures|
    && reset.maxRetries == Effective(cfg, failures[..reset.n])
    && (reset.maxRetries >= 0 ==> reset.n <= reset.maxRetries)
    && WaitFits(cfg, failures[reset.n - 1], reset.n, reset.wait)
  }

  lemma BudgetGrows(cfg: Config, trace: seq<Item>, failures: seq<Failure>, more: Failure)
    requires Budgeted(cfg, trace, failures)
    ensures Budgeted(cfg, trace, failures + [more])
  {
    hide Effective;
    forall i | 0 <= i < |trace| && trace[i].Reset?
      ensures WithinBudget(cfg, trace[i], failures + [more])
    {
      assert WithinBudget(cfg, trace[i], failures);
      assert (failures + [more])[..trace[i].n] == failures[..trace[i].n];
    }
  }

  lemma BudgetSnoc(cfg: Config, trace: seq<Item>, failures: seq<Failure>, item: Item)
    requires Budgeted(cfg, trace, failures) && (item.Reset? ==> WithinBudget(cfg, item, failures))
    ensures Budgeted(cfg, trace + [item], failures)
  {
  }

  /** What the consumer sees of a stream. */
  function Outs(events: seq<Event>): seq<Item> {
    if events == [] then []
    else
      var last := events[|events| - 1];
      Outs(events[..|events| - 1]) + if last == Nil then [] else [Out(last == Final)]
  }

  lemma {:induction false} OutsGrow(events: seq<Event>, i: nat)
    requires i <= |events|
    ensures Outs(events[..i]) <= Outs(events)
    decreases |events|
  {
    if i == |events| {
      assert events[..i] == events;
    } else {
      OutsGrow(events[..|events| - 1], i);
      assert events[..|events| - 1][..i] == events[..i];
    }
  }

  lemma OutsNext(events: seq<Event>, i: nat)
    requires i < |events|
    ensures Outs(events[..i + 1]) == Outs(events[..i]) + if events[i] == Nil then [] else [Out(events[i] == Final)]
  {
    assert events[..i + 1][..i] == events[..i];
  }

  /** Exactly the events that are not nil, in order, each saying whether it was final. */
  lemma {:induction false} OutsExactly(events: seq<Event>) returns (at: seq<nat>)
    ensures |at| == |Outs(events)| && forall j, k :: 0 <= j < k < |at| ==> at[j] < at[k]
    ensures forall k :: 0 <= k < |at| ==> at[k] < |events| && Outs(events)[k] == Out(events[at[k]].Final?)
    ensures forall i: nat :: i in at <==> i < |events| && !events[i].Nil?
  {
    if events == [] {
      at := [];
    } else {
      var n := |events| - 1;
      at := OutsExactly(events[..n]);
      OutsNext(events, n);
      assert events[..n + 1] == events;
      hide Outs;
      assert forall k :: 0 <= k < |at| ==> at[k] < n;
      if !events[n].Nil? {
        assert forall i: nat :: i in at + [n] <==> i in at || i == n;
        at := at + [n];
      }
    }
  }

  /** The consumer stops before the stream has ended. */
  predicate Quits(script: Script) {
    script.stopAfter.Some? && Outs(script.events) != [] && script.stopAfter.value <= |Outs(script.events)|
  }

  /** The part of the stream the consumer takes; it takes an event before it can stop. */
  function Taken(script: Script): seq<Item> {
    if Quits(script) then Outs(script.events)[..if script.stopAfter.value == 0 then 1 else script.stopAfter.value]
    else Outs(script.events)
  }

  /** The stream is inside an attempt, and legal so far. */
  ghost predicate Streaming(cfg: Config, trace: seq<Item>, failures: seq<Failure>, attempts: nat) {
    && Legal(trace)
    && Attempts(trace) == attempts > 0
    && !LastIsReset(trace)
    && !Ended(trace)
    && Budgeted(cfg, trace, failures)
  }

  /** Streams one attempt to the consumer. */
  method RunAttempt(cfg: Config, script: Script, before: seq<Item>, ghost failures: seq<Failure>)
    returns (committed: bool, stopped: bool, failure: Option<Failure>, out: seq<Item>)
    requires Streaming(cfg, before, failures, Attempts(before)) && !SeenFinal(before)
    ensures Streaming(cfg, before + out, failures, Attempts(before))
    ensures committed <==> SeenFinal(before + out)
    ensures out == Taken(script)
    ensures stopped <==> Quits(script)
    ensures failure == if stopped then None else script.failure
  {
    assert Outs(script.events[..0]) == [] && before + [] == before;
    hide *;
    committed, out := false, [];
    for i := 0 to |script.events|
      invariant Streaming(cfg, before + out, failures, Attempts(before))
      invariant committed <==> SeenFinal(before + out)
      invariant out == Outs(script.events[..i])
      invariant script.stopAfter.Some? ==> |out| == 0 || |out| < script.stopAfter.value
    {
      OutsNext(script.events, i);
      var event := script.events[i];
      if event != Nil {
        Passed(cfg, before, out, failures, Attempts(before), Out(event == Final));
        committed := committed || event == Final;
        out := out + [Out(event == Final)];
        if script.stopAfter.Some? && |out| >= script.stopAfter.value {
          StoppedAt(script, i + 1);
          return committed, true, None, out;
        }
      }
    }
    assert script.events[..|script.events|] == script.events;
    NeverStopped(script);
    return committed, false, script.failure, out;
  }

  lemma Passed(cfg: Config, before: seq<Item>, out: seq<Item>, failures: seq<Failure>, attempts: nat, item: Item)
    requires Streaming(cfg, before + out, failures, attempts) && item.Out?
    ensures Streaming(cfg, before + (out + [item]), failures, attempts)
    ensures SeenFinal(before + (out + [item])) <==> SeenFinal(before + out) || item.final
  {
    assert before + (out + [item]) == before + out + [item];
    LegalSnoc(before + out, item);
    BudgetSnoc(cfg, before + out, failures, item);
    hide Legal, Budgeted, Attempts;
  }

  lemma StoppedAt(script: Script, i: nat)
    requires i <= |script.events| && script.stopAfter.Some?
    requires |Outs(script.events[..i])| == if script.stopAfter.value == 0 then 1 else script.stopAfter.value
    ensures Quits(script) && Taken(script) == Outs(script.events[..i])
  {
    OutsGrow(script.events, i);
    hide Outs;
  }

  lemma NeverStopped(script: Script)
    requires script.stopAfter.Some? ==> |Outs(script.events)| == 0 || |Outs(script.events)| < script.stopAfter.value
    ensures !Quits(script) && Taken(script) == Outs(script.events)
  {
  }

  /** The failures are those of the first attempts. */
  ghost predicate Observed(scripts: seq<Script>, failures: seq<Failure>) {
    |failures| <= |scripts| && forall i :: 0 <= i < |failures| ==> scripts[i].failure == Some(failures[i])
  }

  /** Why an attempt was the last one, from what it met. */
  ghost predicate Reason(cfg: Config, last: Script, ending: Ending, final: bool, failures: seq<Failure>, providerTool: bool) {
    match ending
    case Stopped => Quits(last)
    case Succeeded => !Quits(last) && last.failure.None?
    case _ =>
      && !Quits(last)
      && failures != []
      && last.failure == Some(failures[|failures| - 1])
      && (last.cancelled <==> ending == Cancelled)
      && (ending == Cancelled || (!failures[|failures| - 1].retryable || providerTool || final <==> ending == Rejected))
      && (ending == Cancelled || ending == Rejected || (0 <= Effective(cfg, failures) < |failures| <==> ending == Exhausted))
      && (ending == Refused ==> last.refused)
      && (ending == Interrupted ==> !last.refused && last.cut)
  }

  /** The call ended for the reason it gives: its last attempt met it. */
  ghost predicate EndsRight(cfg: Config, scripts: seq<Script>, trace: seq<Item>, failures: seq<Failure>, providerTool: bool) {
    Ended(trace) ==>
      && 0 < Attempts(trace) <= |scripts|
      && Reason(cfg, scripts[Attempts(trace) - 1], trace[|trace| - 1].ending, SeenFinal(trace), failures, providerTool)
  }

  /** Behind every attempt stands exactly what the consumer took of it, and then a reset or the
      end of the call. */
  ghost predicate Streamed(scripts: seq<Script>, trace: seq<Item>) {
    forall i :: 0 <= i < |trace| && trace[i].Attempt? ==> FollowedBy(scripts, trace, i)
  }

  ghost predicate FollowedBy(scripts: seq<Script>, trace: seq<Item>, i: nat)
    requires i < |trace| && trace[i].Attempt?
  {
    && trace[i].n < |scripts|
    && var taken := Taken(scripts[trace[i].n]);
       var next := i + 1 + |taken|;
       && next <= |trace|
       && trace[i + 1..next] == taken
       && (next < |trace| ==> trace[next].Reset? || trace[next].End?)
  }

  lemma StreamedSnoc(scripts: seq<Script>, trace: seq<Item>, item: Item)
    requires Streamed(scripts, trace) && (item.Reset? || item.End?)
    ensures Streamed(scripts, trace + [item])
  {
    hide Taken;
    var longer := trace + [item];
    forall i | 0 <= i < |longer| && longer[i].Attempt?
      ensures FollowedBy(scripts, longer, i)
    {
      assert longer[i] == trace[i] && FollowedBy(scripts, trace, i);
      var next := i + 1 + |Taken(scripts[trace[i].n])|;
      assert longer[i + 1..next] == trace[i + 1..next];
    }
  }

  lemma {:induction false} OnlyOuts(events: seq<Event>)
    ensures forall i :: 0 <= i < |Outs(events)| ==> Outs(events)[i].Out?
  {
    if events == [] {
    } else {
      OnlyOuts(events[..|events| - 1]);
    }
  }

  /** What follows an attempt stays when more is appended behind a reset. */
  lemma FollowedStays(scripts: seq<Script>, trace: seq<Item>, more: seq<Item>, i: nat)
    requires i < |trace| && trace[i].Attempt? && FollowedBy(scripts, trace, i) && LastIsReset(trace)
    ensures (trace + more)[i] == trace[i] && FollowedBy(scripts, trace + more, i)
  {
    LastNotInside(scripts, trace, i);
    hide Taken;
    var longer, next := trace + more, i + 1 + |Taken(scripts[trace[i].n])|;
    assert longer[i] == trace[i] && longer[next] == trace[next];
    assert longer[i + 1..next] == trace[i + 1..next];
  }

  lemma FollowedNow(scripts: seq<Script>, trace: seq<Item>, k: nat)
    requires k < |scripts|
    ensures var longer := trace + ([Attempt(k)] + Taken(scripts[k]));
      longer[|trace|] == Attempt(k) && FollowedBy(scripts, longer, |trace|)
  {
    hide Taken;
    var longer := trace + ([Attempt(k)] + Taken(scripts[k]));
    assert longer[|trace| + 1..] == Taken(scripts[k]);
  }

  lemma TakenOuts(script: Script)
    ensures forall i :: 0 <= i < |Taken(script)| ==> Taken(script)[i].Out?
  {
    OnlyOuts(script.events);
    hide Outs;
  }

  lemma StreamedAttempt(scripts: seq<Script>, trace: seq<Item>, k: nat)
    requires Streamed(scripts, trace) && k < |scripts| && (trace == [] || LastIsReset(trace))
    ensures Streamed(scripts, trace + [Attempt(k)] + Taken(scripts[k]))
  {
    hide Taken, FollowedBy, LastIsReset;
    var more := [Attempt(k)] + Taken(scripts[k]);
    var longer := trace + more;
    assert trace + [Attempt(k)] + Taken(scripts[k]) == longer;
    TakenOuts(scripts[k]);
    assert forall j :: 0 < j < |more| ==> more[j] == Taken(scripts[k])[j - 1];
    FollowedNow(scripts, trace, k);
    forall i | 0 <= i < |longer| && longer[i].Attempt?
      ensures FollowedBy(scripts, longer, i)
    {
      if i < |trace| {
        assert longer[i] == trace[i];
        FollowedStays(scripts, trace, more, i);
      } else {
        assert longer[i] == more[i - |trace|];
      }
    }
  }

  /** A reset at the end lies behind what was taken. */
  lemma LastNotInside(scripts: seq<Script>, trace: seq<Item>, i: nat)
    requires i < |trace| && trace[i].Attempt? && FollowedBy(scripts, trace, i) && LastIsReset(trace)
    ensures i + 1 + |Taken(scripts[trace[i].n])| < |trace|
  {
    var taken := Taken(scripts[trace[i].n]);
    OnlyOuts(scripts[trace[i].n].events);
    assert forall j :: 0 <= j < |taken| ==> taken[j].Out?;
    hide Taken, Outs;
    assert taken != [] ==> trace[i + |taken|] == taken[|taken| - 1];
  }

  /** Everything about the stream so far. */
  ghost predicate Sound(cfg: Config, scripts: seq<Script>, trace: seq<Item>, failures: seq<Failure>, providerTool: bool) {
    && Legal(trace)
    && Budgeted(cfg, trace, failures)
    && Streamed(scripts, trace)
    && (providerTool ==> Attempts(trace) <= 1)
    && EndsRight(cfg, scripts, trace, failures, providerTool)
  }

  method Finish(cfg: Config, scripts: seq<Script>, trace: seq<Item>, ghost failures: seq<Failure>, providerTool: bool, ending: Ending)
    returns (full: seq<Item>)
    requires Legal(trace) && Budgeted(cfg, trace, failures) && Streamed(scripts, trace) && !Ended(trace)
    requires providerTool ==> Attempts(trace) <= 1
    requires 0 < Attempts(trace) <= |scripts|
    requires Reason(cfg, scripts[Attempts(trace) - 1], ending, SeenFinal(trace), failures, providerTool)
    ensures Sound(cfg, scripts, full, failures, providerTool) && Ended(full) && Attempts(full) == Attempts(trace)
  {
    hide Legal, Budgeted, Reason, Attempts, Streamed;
    StreamedSnoc(scripts, trace, End(ending));
    full := trace + [End(ending)];
    LegalSnoc(trace, End(ending));
    BudgetSnoc(cfg, trace, failures, End(ending));
    assert SeenFinal(full) <==> SeenFinal(trace);
  }

  lemma EffectiveSnoc(cfg: Config, failures: seq<Failure>, f: Failure)
    ensures Effective(cfg, failures + [f]) == Tighter(Effective(cfg, failures), Limit(cfg, f))
  {
  }

  /** One call of the retrying client: `scripts` says what every attempt would meet, so a
      stream that has not ended is still waiting for its next attempt. */
  method Generate(cfg: Config, scripts: seq<Script>, providerTool: bool) returns (trace: seq<Item>, failures: seq<Failure>)
    ensures Sound(cfg, scripts, trace, failures, providerTool) && Observed(scripts, failures)
    ensures Ended(trace) || Attempts(trace) == |scripts|
  {
    hide Legal, Budgeted, Effective, Limit, Attempts, Wait, Tighter, Quits, Taken, Streamed, WaitFits;
    trace, failures := [], [];
    EmptyIsSound(cfg, scripts, providerTool);
    var effective := -1;
    for attempt := 0 to |scripts|
      invariant Legal(trace) && Budgeted(cfg, trace, failures) && Attempts(trace) == attempt && !Ended(trace) && !SeenFinal(trace)
      invariant (trace == [] || LastIsReset(trace)) && Streamed(scripts, trace)
      invariant providerTool ==> attempt == 0
      invariant |failures| == attempt && Observed(scripts, failures) && effective == Effective(cfg, failures)
    {
      LegalSnoc(trace, Attempt(attempt));
      BudgetSnoc(cfg, trace, failures, Attempt(attempt));
      var committed, stopped, failure, out := RunAttempt(cfg, scripts[attempt], trace + [Attempt(attempt)], failures);
      var streamed := trace + [Attempt(attempt)] + out;
      StreamedAttempt(scripts, trace, attempt);
      if stopped || failure.None? {
        trace := Finish(cfg, scripts, streamed, failures, providerTool, if stopped then Stopped else Succeeded);
        return;
      }
      var f := failure.value;
      BudgetGrows(cfg, streamed, failures, f);
      EffectiveSnoc(cfg, failures, f);
      failures := failures + [f];
      if scripts[attempt].cancelled {
        trace := Finish(cfg, scripts, streamed, failures, providerTool, Cancelled);
        return;
      }
      if committed || providerTool || !f.retryable {
        trace := Finish(cfg, scripts, streamed, failures, providerTool, Rejected);
        return;
      }
      effective := Tighter(effective, Limit(cfg, f));
      if effective >= 0 && attempt >= effective {
        trace := Finish(cfg, scripts, streamed, failures, providerTool, Exhausted);
        return;
      }
      var reset := Reset(attempt + 1, effective, Wait(cfg, f, attempt, scripts[attempt].jitter));
      assert failures[..attempt + 1] == failures;
      WaitIsFitting(cfg, f, attempt, scripts[attempt].jitter);
      StreamedSnoc(scripts, streamed, reset);
      LegalSnoc(streamed, reset);
      BudgetSnoc(cfg, streamed, failures, reset);
      trace := streamed + [reset];
      if scripts[attempt].refused || scripts[attempt].cut {
        trace := Finish(cfg, scripts, trace, failures, providerTool, if scripts[attempt].refused then Refused else Interrupted);
        return;
      }
    }
  }

  lemma EmptyIsSound(cfg: Config, scripts: seq<Script>, providerTool: bool)
    ensures Sound(cfg, scripts, [], [], providerTool) && Attempts([]) == 0 && Effective(cfg, []) == -1
  {
  }

  // ----- what a consumer can rely on

  /** No attempt starts once a final response was passed on. */
  lemma {:induction false} NoAttemptAfterFinal(trace: seq<Item>, i: nat, j: nat)
    requires Legal(trace) && i < j < |trace| && trace[i] == Out(true)
    ensures !trace[j].Attempt?
  {
    assert MayFollow(trace[..j], trace[j]);
    assert trace[..j][i] == Out(true);
  }

  lemma AfterReset(trace: seq<Item>, k: nat)
    requires Legal(trace) && k + 1 < |trace| && trace[k].Reset?
    ensures trace[k + 1].Attempt? || (trace[k + 1].End? && k + 2 == |trace|)
  {
    hide Attempts;
    assert MayFollow(trace[..k + 1], trace[k + 1]);
    assert trace[..k + 1][k] == trace[k];
    if k + 2 < |trace| {
      assert MayFollow(trace[..k + 2], trace[k + 2]);
      assert trace[..k + 2][k + 1] == trace[k + 1];
    }
  }

  /** Between two consecutive attempts there is exactly one reset, right before the second. */
  lemma {:induction false} OneResetBetween(trace: seq<Item>, i: nat, j: nat, k: nat)
    requires Legal(trace) && i < k < j < |trace| && trace[i].Attempt? && trace[j].Attempt?
    requires forall m :: i < m < j ==> !trace[m].Attempt?
    ensures trace[k].Reset? <==> k == j - 1
  {
    AttemptAfterReset(trace, j);
    if trace[k].Reset? {
      AfterReset(trace, k);
    }
  }

  lemma AttemptAfterReset(trace: seq<Item>, j: nat)
    requires Legal(trace) && j < |trace| && trace[j].Attempt? && j > 0
    ensures trace[j - 1].Reset? && trace[j - 1].n == trace[j].n
  {
    assert MayFollow(trace[..j], trace[j]);
    assert trace[..j][j - 1] == trace[j - 1];
    assert MayFollow(trace[..j - 1], trace[j - 1]);
    assert trace[..j][..j - 1] == trace[..j - 1];
  }

  /** A retry is never beyond a finite limit any failure before it set. */
  lemma {:induction false} RetriesWithinLimits(cfg: Config, scripts: seq<Script>, trace: seq<Item>, failures: seq<Failure>, providerTool: bool, j: nat, i: nat)
    requires Sound(cfg, scripts, trace, failures, providerTool) && 0 < j < |trace| && trace[j].Attempt?
    requires i < trace[j].n && i < |failures| && Limit(cfg, failures[i]) >= 0
    ensures trace[j].n <= Limit(cfg, failures[i])
  {
    AttemptAfterReset(trace, j);
    var n := trace[j].n;
    assert WithinBudget(cfg, trace[j - 1], failures);
    EffectiveIsLeast(cfg, failures[..n]);
    hide Limit, Effective, Legal;
    assert failures[..n][i] == failures[i];
  }
}
