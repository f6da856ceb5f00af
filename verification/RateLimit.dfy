/** The per-client fixed-window limiter. Times are ticks of a monotonic clock. */
module RateLimit {
  import Cidr

  type Client = Cidr.IpAddress

  const TICKS_PER_SECOND := 1_000_000_000

  /** How many windows the map may hold before a request first clears the dead ones. */
  const SWEEP_THRESHOLD := 10_000

  datatype Config = Config(enabled: bool, requests: nat, windowSecs: nat)
  {
    predicate Enabled() {
      enabled && requests > 0
    }

    /** At least one second, whatever is configured. */
    function Window(): (w: nat)
      ensures w > 0
    {
      (if windowSecs < 1 then 1 else windowSecs) * TICKS_PER_SECOND
    }
  }

  datatype Decision = Allowed(remaining: nat) | Limited(retryAfter: nat)

  datatype Window = Window(started: nat, count: nat)

  type Windows = map<Client, Window>

  /** `Instant::duration_since`, which saturates at zero. */
  function Elapsed(now: nat, since: nat): (d: nat)
  {
    if now >= since then now - since else 0
  }

  predicate Live(w: Window, now: nat, length: nat)
  {
    Elapsed(now, w.started) < length
  }

  function Sweep(m: Windows, now: nat, length: nat): (m': Windows)
  {
    map c | c in m && Live(m[c], now, length) :: m[c]
  }

  /** The client's window at `now`: found, inserted, or started over. */
  function Current(m: Windows, c: Client, now: nat, length: nat): (w: Window)
  {
    if c in m && Live(m[c], now, length) then m[c] else Window(now, 0)
  }

  /** One request by an enabled limiter, as a value. `sweeps` is false for the
      reference limiter that never forgets a client. */
  function Step(config: Config, sweeps: bool, m: Windows, c: Client, now: nat): (r: (Decision, Windows))
    requires config.Enabled()
  {
    var length := config.Window();
    var kept := if sweeps && |m| > SWEEP_THRESHOLD then Sweep(m, now, length) else m;
    var w := Current(kept, c, now, length);
    if w.count >= config.requests then
      (Limited(length - Elapsed(now, w.started)), kept[c := w])
    else
      (Allowed(config.requests - (w.count + 1)), kept[c := w.(count := w.count + 1)])
  }

  class RateLimiter {
    const config: Config
    var windows: Windows

    constructor (config: Config)
      ensures this.config == config && windows == map[]
    {
      this.config := config;
      windows := map[];
    }

    method CheckAt(key: Client, now: nat) returns (d: Decision)
      modifies this
      ensures !config.Enabled() ==> d == Allowed(config.requests) && windows == old(windows)
      ensures config.Enabled() ==> (d, windows) == Step(config, true, old(windows), key, now)
      // Memory stays bounded: a map past the threshold holds only live windows.
      ensures config.Enabled() && |windows| > SWEEP_THRESHOLD + 1 ==>
                forall c | c in windows :: Live(windows[c], now, config.Window())
    {
      if !config.Enabled() {
        return Allowed(config.requests);
      }
      var length := config.Window();
      if |windows| > SWEEP_THRESHOLD {
        windows := map c | c in windows && Elapsed(now, windows[c].started) < length :: windows[c];
      }
      ghost var kept := windows;
      assert kept == if |old(windows)| > SWEEP_THRESHOLD then Sweep(old(windows), now, length) else old(windows);
      if key !in windows {
        windows := windows[key := Window(now, 0)];
      }
      var elapsed := Elapsed(now, windows[key].started);
      if elapsed >= length {
        windows := windows[key := Window(now, 0)];
      }
      assert windows == kept[key := Current(kept, key, now, length)];
      if windows[key].count >= config.requests {
        return Limited(length - Elapsed(now, windows[key].started));
      }
      windows := windows[key := windows[key].(count := windows[key].count + 1)];
      assert windows == kept[key := windows[key]];
      d := Allowed(config.requests - windows[key].count);
    }
  }

  datatype Request = Request(client: Client, at: nat)

  ghost predicate NonDecreasing(reqs: seq<Request>)
  {
    forall i, j | 0 <= i < j < |reqs| :: reqs[i].at <= reqs[j].at
  }

  function Decisions(config: Config, sweeps: bool, m: Windows, reqs: seq<Request>): (ds: seq<Decision>)
    requires config.Enabled()
    ensures |ds| == |reqs|
    decreases |reqs|
  {
    if reqs == [] then []
    else
      var (d, m') := Step(config, sweeps, m, reqs[0].client, reqs[0].at);
      [d] + Decisions(config, sweeps, m', reqs[1..])
  }

  function After(config: Config, sweeps: bool, m: Windows, reqs: seq<Request>): (m': Windows)
    requires config.Enabled()
    decreases |reqs|
  {
    if reqs == [] then m
    else After(config, sweeps, Step(config, sweeps, m, reqs[0].client, reqs[0].at).1, reqs[1..])
  }

  // ---- The sweep is invisible ----

  /** A swept map: what it still holds is right, what it lost had run out. */
  ghost predicate Forgot(swept: Windows, full: Windows, now: nat, length: nat)
  {
    && (forall c | c in swept :: c in full && swept[c] == full[c])
    && (forall c | c in full && c !in swept :: !Live(full[c], now, length))
  }

  lemma StepForgets(config: Config, swept: Windows, full: Windows, before: nat, c: Client, now: nat)
    requires config.Enabled() && before <= now
    requires Forgot(swept, full, before, config.Window())
    ensures Step(config, true, swept, c, now).0 == Step(config, false, full, c, now).0
    ensures Forgot(Step(config, true, swept, c, now).1, Step(config, false, full, c, now).1, now, config.Window())
  {
    var length := config.Window();
    var kept := if |swept| > SWEEP_THRESHOLD then Sweep(swept, now, length) else swept;
    assert Forgot(kept, full, now, length);
    assert Current(kept, c, now, length) == Current(full, c, now, length);
  }

  lemma {:induction false} SweepInvisibleFrom(config: Config, swept: Windows, full: Windows, before: nat, reqs: seq<Request>)
    requires config.Enabled() && NonDecreasing(reqs)
    requires |reqs| > 0 ==> before <= reqs[0].at
    requires Forgot(swept, full, before, config.Window())
    ensures Decisions(config, true, swept, reqs) == Decisions(config, false, full, reqs)
    decreases |reqs|
  {
    if reqs != [] {
      StepForgets(config, swept, full, before, reqs[0].client, reqs[0].at);
      SweepInvisibleFrom(config, Step(config, true, swept, reqs[0].client, reqs[0].at).1,
                         Step(config, false, full, reqs[0].client, reqs[0].at).1, reqs[0].at, reqs[1..]);
    }
  }

  /** No client can tell the sweeping limiter from one that never sweeps. */
  lemma SweepInvisible(config: Config, reqs: seq<Request>)
    requires config.Enabled() && NonDecreasing(reqs)
    ensures Decisions(config, true, map[], reqs) == Decisions(config, false, map[], reqs)
  {
    SweepInvisibleFrom(config, map[], map[], 0, reqs);
  }

  // ---- The rate bound ----

  /** How many of `c`'s requests in the half-open span [from, to) were allowed. */
  function CountAllowed(reqs: seq<Request>, ds: seq<Decision>, c: Client, from: nat, to: nat): (n: nat)
    requires |reqs| == |ds|
  {
    if reqs == [] then 0
    else
      (if reqs[0].client == c && from <= reqs[0].at < to && ds[0].Allowed? then 1 else 0)
      + CountAllowed(reqs[1..], ds[1..], c, from, to)
  }

  /** The most that windows starting at `from` or later can admit before `to`. */
  function Allowance(from: nat, to: nat, length: nat, requests: nat): (n: nat)
    requires length > 0
    decreases if from < to then to - from else 0
  {
    if from >= to then 0 else requests + Allowance(from + length, to, length, requests)
  }

  lemma {:induction false} AllowanceShrinks(from: nat, later: nat, to: nat, length: nat, requests: nat)
    requires length > 0 && from <= later
    ensures Allowance(from, to, length, requests) >= Allowance(later, to, length, requests)
    decreases if later < to then to - later else 0
  {
    if later < to {
      AllowanceShrinks(from + length, later + length, to, length, requests);
    }
  }

  lemma {:induction false} AllowanceOfSpan(from: nat, k: nat, length: nat, requests: nat)
    requires length > 0
    ensures Allowance(from, from + k * length, length, requests) == k * requests
    decreases k
  {
    if k == 0 {
    } else {
      assert k * length == length + (k - 1) * length;
      assert k * requests == requests + (k - 1) * requests;
      AllowanceOfSpan(from + length, k - 1, length, requests);
      assert (from + length) + (k - 1) * length == from + k * length;
    }
  }

  /** Every tracked window was opened by an allowed request. */
  ghost predicate Opened(config: Config, m: Windows, now: nat)
  {
    forall c | c in m :: 1 <= m[c].count <= config.requests && m[c].started <= now
  }

  lemma StepOpens(config: Config, m: Windows, before: nat, c: Client, now: nat)
    requires config.Enabled() && before <= now && Opened(config, m, before)
    ensures Opened(config, Step(config, false, m, c, now).1, now)
  {
  }

  /** What `c` may still be allowed inside the span, given its window. */
  function Potential(config: Config, m: Windows, c: Client, from: nat, to: nat): (n: int)
    requires config.Enabled()
  {
    var length, budget := config.Window(), config.requests;
    if c !in m then Allowance(from, to, length, budget)
    else if m[c].started >= to then 0
    else if m[c].started >= from then budget - m[c].count + Allowance(m[c].started + length, to, length, budget)
    else budget - m[c].count + Allowance(from, to, length, budget)
  }

  lemma StepPays(config: Config, m: Windows, before: nat, r: Request, c: Client, from: nat, to: nat)
    requires config.Enabled() && Opened(config, m, before) && before <= r.at && from <= r.at
    ensures var s := Step(config, false, m, r.client, r.at);
            Potential(config, m, c, from, to)
            >= (if r.client == c && r.at < to && s.0.Allowed? then 1 else 0) + Potential(config, s.1, c, from, to)
  {
    var length, budget := config.Window(), config.requests;
    if r.client == c {
      AllowanceShrinks(from, r.at, to, length, budget);
      if c in m {
        AllowanceShrinks(m[c].started + length, if Live(m[c], r.at, length) then m[c].started + length else r.at,
                         to, length, budget);
      }
    }
  }

  lemma {:induction false} SpanBound(config: Config, m: Windows, before: nat, reqs: seq<Request>, c: Client, from: nat, to: nat)
    requires config.Enabled() && NonDecreasing(reqs) && Opened(config, m, before)
    requires |reqs| > 0 ==> before <= reqs[0].at && from <= reqs[0].at
    ensures CountAllowed(reqs, Decisions(config, false, m, reqs), c, from, to) <= Potential(config, m, c, from, to)
    decreases |reqs|
  {
    if reqs != [] {
      var m' := Step(config, false, m, reqs[0].client, reqs[0].at).1;
      StepOpens(config, m, before, reqs[0].client, reqs[0].at);
      StepPays(config, m, before, reqs[0], c, from, to);
      assert Decisions(config, false, m, reqs)[1..] == Decisions(config, false, m', reqs[1..]);
      SpanBound(config, m', reqs[0].at, reqs[1..], c, from, to);
    }
  }

  lemma {:induction false} RateBoundFrom(config: Config, m: Windows, before: nat, reqs: seq<Request>, c: Client, from: nat, to: nat)
    requires config.Enabled() && NonDecreasing(reqs) && Opened(config, m, before)
    requires |reqs| > 0 ==> before <= reqs[0].at
    ensures CountAllowed(reqs, Decisions(config, false, m, reqs), c, from, to)
            < config.requests + Allowance(from, to, config.Window(), config.requests)
    decreases |reqs|
  {
    if reqs != [] && reqs[0].at < from {
      var m' := Step(config, false, m, reqs[0].client, reqs[0].at).1;
      StepOpens(config, m, before, reqs[0].client, reqs[0].at);
      assert Decisions(config, false, m, reqs)[1..] == Decisions(config, false, m', reqs[1..]);
      RateBoundFrom(config, m', reqs[0].at, reqs[1..], c, from, to);
    } else {
      SpanBound(config, m, before, reqs, c, from, to);
      if c in m && m[c].started >= from {
        AllowanceShrinks(from, m[c].started + config.Window(), to, config.Window(), config.requests);
      }
    }
  }

  /** The bound over whole runs, sweeps included: a half-open span of `k` windows
      holds fewer than `(k + 1) * requests` allowed requests of one client, so one
      window fewer than twice the budget. */
  lemma RateBound(config: Config, reqs: seq<Request>, c: Client, from: nat, k: nat)
    requires config.Enabled() && NonDecreasing(reqs)
    ensures CountAllowed(reqs, Decisions(config, true, map[], reqs), c, from, from + k * config.Window())
            < (k + 1) * config.requests
  {
    SweepInvisible(config, reqs);
    RateBoundFrom(config, map[], 0, reqs, c, from, from + k * config.Window());
    AllowanceOfSpan(from, k, config.Window(), config.requests);
    assert (k + 1) * config.requests == k * config.requests + config.requests;
  }

  // ---- The bound is reached ----

  function Burst(c: Client, n: nat, at: nat): (reqs: seq<Request>)
    ensures |reqs| == n && forall i | 0 <= i < n :: reqs[i] == Request(c, at)
  {
    seq(n, i => Request(c, at))
  }

  /** One request opens the window; the rest of the budget comes at its last tick,
      and a fresh budget at the next. */
  function WorstCase(config: Config, c: Client): (reqs: seq<Request>)
    requires config.Enabled()
  {
    [Request(c, 0)] + (Burst(c, config.requests - 1, config.Window() - 1) + Burst(c, config.requests, config.Window()))
  }

  /** `CountAllowed` of a run without sweeps from `m`. */
  function Counted(config: Config, m: Windows, reqs: seq<Request>, c: Client, from: nat, to: nat): (n: nat)
    requires config.Enabled()
  {
    CountAllowed(reqs, Decisions(config, false, m, reqs), c, from, to)
  }

  lemma CountsHead(config: Config, m: Windows, c: Client, at: nat, tail: seq<Request>, from: nat, to: nat)
    requires config.Enabled() && from <= at < to
    requires Current(m, c, at, config.Window()).count < config.requests
    ensures var w := Current(m, c, at, config.Window());
            Counted(config, m, [Request(c, at)] + tail, c, from, to)
            == 1 + Counted(config, m[c := w.(count := w.count + 1)], tail, c, from, to)
  {
    var reqs := [Request(c, at)] + tail;
    assert reqs[1..] == tail;
    var m' := Step(config, false, m, c, at).1;
    assert Decisions(config, false, m, reqs)[1..] == Decisions(config, false, m', tail);
  }

  /** `m` after `n` allowed requests of `c` at `at`. */
  function Filled(config: Config, m: Windows, c: Client, n: nat, at: nat): (m': Windows)
  {
    if n == 0 then m
    else
      var w := Current(m, c, at, config.Window());
      m[c := w.(count := w.count + n)]
  }

  lemma FilledStep(config: Config, m: Windows, c: Client, n: nat, at: nat)
    requires n > 0
    ensures Current(Filled(config, m, c, 1, at), c, at, config.Window()).count
            == Current(m, c, at, config.Window()).count + 1
    ensures Filled(config, Filled(config, m, c, 1, at), c, n - 1, at) == Filled(config, m, c, n, at)
  {
    var w := Current(m, c, at, config.Window());
    assert Live(w, at, config.Window());
  }

  lemma {:induction false} BurstAllowed(config: Config, m: Windows, c: Client, n: nat, at: nat, rest: seq<Request>, from: nat, to: nat)
    requires config.Enabled() && from <= at < to
    requires Current(m, c, at, config.Window()).count + n <= config.requests
    ensures Counted(config, m, Burst(c, n, at) + rest, c, from, to)
            == n + Counted(config, Filled(config, m, c, n, at), rest, c, from, to)
    decreases n
  {
    if n == 0 {
      assert Burst(c, n, at) + rest == rest;
    } else {
      var tail := Burst(c, n - 1, at) + rest;
      assert Burst(c, n, at) + rest == [Request(c, at)] + tail;
      CountsHead(config, m, c, at, tail, from, to);
      FilledStep(config, m, c, n, at);
      BurstAllowed(config, Filled(config, m, c, 1, at), c, n - 1, at, rest, from, to);
    }
  }

  /** No smaller bound holds: this run has `2 * requests - 1` in one window's span. */
  lemma RateBoundReached(config: Config, c: Client)
    requires config.Enabled()
    ensures NonDecreasing(WorstCase(config, c))
    ensures CountAllowed(WorstCase(config, c), Decisions(config, true, map[], WorstCase(config, c)), c,
                         config.Window() - 1, config.Window() - 1 + config.Window())
            == 2 * config.requests - 1
  {
    var length := config.Window();
    var reqs := WorstCase(config, c);
    SweepInvisible(config, reqs);
    var m1: Windows := map[c := Window(0, 1)];
    var late, renewed := Burst(c, config.requests - 1, length - 1), Burst(c, config.requests, length);
    assert reqs[1..] == late + renewed;
    assert Step(config, false, map[], c, 0).1 == m1;
    assert Decisions(config, false, map[], reqs)[1..] == Decisions(config, false, m1, late + renewed);
    var from, to := length - 1, length - 1 + length;
    BurstAllowed(config, m1, c, config.requests - 1, length - 1, renewed, from, to);
    assert renewed == renewed + [];
    BurstAllowed(config, Filled(config, m1, c, config.requests - 1, length - 1), c, config.requests, length, [], from, to);
  }

  // ---- retry_after is exact ----

  lemma {:induction false} DecisionsSplit(config: Config, sweeps: bool, m: Windows, a: seq<Request>, b: seq<Request>)
    requires config.Enabled()
    ensures Decisions(config, sweeps, m, a + b)
            == Decisions(config, sweeps, m, a) + Decisions(config, sweeps, After(config, sweeps, m, a), b)
    decreases |a|
  {
    if a == [] {
      assert a + b == b;
    } else {
      assert (a + b)[1..] == a[1..] + b;
      DecisionsSplit(config, sweeps, Step(config, sweeps, m, a[0].client, a[0].at).1, a[1..], b);
    }
  }

  lemma {:induction false} OthersLeaveWindow(config: Config, m: Windows, c: Client, others: seq<Request>)
    requires config.Enabled() && c in m
    requires forall r | r in others :: r.client != c
    ensures var m' := After(config, false, m, others); c in m' && m'[c] == m[c]
    decreases |others|
  {
    if others != [] {
      assert others[0] in others;
      assert forall r | r in others[1..] :: r in others;
      OthersLeaveWindow(config, Step(config, false, m, others[0].client, others[0].at).1, c, others[1..]);
    }
  }

  lemma {:induction false} AfterOpens(config: Config, m: Windows, before: nat, reqs: seq<Request>, now: nat)
    requires config.Enabled() && Opened(config, m, before) && before <= now
    requires NonDecreasing(reqs) && forall r | r in reqs :: before <= r.at <= now
    ensures Opened(config, After(config, false, m, reqs), now)
    decreases |reqs|
  {
    if reqs != [] {
      assert reqs[0] in reqs;
      StepOpens(config, m, before, reqs[0].client, reqs[0].at);
      forall r | r in reqs[1..] ensures reqs[0].at <= r.at <= now {
        var i :| 0 <= i < |reqs[1..]| && reqs[1..][i] == r;
        assert reqs[i + 1] == r;
      }
      AfterOpens(config, Step(config, false, m, reqs[0].client, reqs[0].at).1, reqs[0].at, reqs[1..], now);
    }
  }

  /** The decisions on two requests, from the windows they find. */
  lemma DecisionsFound(config: Config, earlier: seq<Request>, first: Request, others: seq<Request>, last: Request)
    requires config.Enabled()
    ensures var ds := Decisions(config, false, map[], earlier + [first] + others + [last]);
            var m := After(config, false, map[], earlier);
            var m1 := Step(config, false, m, first.client, first.at).1;
            var m2 := After(config, false, m1, others);
            && |ds| == |earlier| + |others| + 2 && ds[|earlier|] == Step(config, false, m, first.client, first.at).0
            && ds[|ds| - 1] == Step(config, false, m2, last.client, last.at).0
  {
    hide Step, Decisions, After;
    var m := After(config, false, map[], earlier);
    var m1 := Step(config, false, m, first.client, first.at).1;
    assert earlier + [first] + others + [last] == earlier + ([first] + (others + [last]));
    DecisionsSplit(config, false, map[], earlier, [first] + (others + [last]));
    OneDecision(config, m, first);
    DecisionsSplit(config, false, m, [first], others + [last]);
    DecisionsSplit(config, false, m1, others, [last]);
    OneDecision(config, After(config, false, m1, others), last);
  }

  lemma OneDecision(config: Config, m: Windows, r: Request)
    requires config.Enabled()
    ensures Decisions(config, false, m, [r]) == [Step(config, false, m, r.client, r.at).0]
    ensures After(config, false, m, [r]) == Step(config, false, m, r.client, r.at).1
  {
    assert [r][1..] == [];
  }

  /** A client limited at `at`, and what the window it then has says at `next`. */
  lemma WaitIsExact(config: Config, m: Windows, m2: Windows, c: Client, at: nat, next: nat)
    requires config.Enabled() && Opened(config, m, at) && at <= next
    requires var (d, m1) := Step(config, false, m, c, at); d.Limited? && (c in m1 ==> c in m2 && m2[c] == m1[c])
    ensures Step(config, false, m2, c, next).0.Allowed? <==> next >= at + Step(config, false, m, c, at).0.retryAfter
    ensures c in Step(config, false, m, c, at).1
  {
    assert Step(config, false, m, c, at).1[c] == m[c] && Live(m[c], at, config.Window());
    assert Live(m2[c], next, config.Window()) <==> next < at + Step(config, false, m, c, at).0.retryAfter;
  }

  lemma EarlierOpens(config: Config, earlier: seq<Request>, at: nat, rest: seq<Request>)
    requires config.Enabled() && rest != [] && NonDecreasing(earlier + rest) && rest[0].at == at
    ensures Opened(config, After(config, false, map[], earlier), at)
  {
    var reqs := earlier + rest;
    forall r | r in earlier ensures 0 <= r.at <= at {
      var i :| 0 <= i < |earlier| && earlier[i] == r;
      assert reqs[i].at <= reqs[|earlier|].at;
    }
    assert earlier == reqs[..|earlier|];
    AfterOpens(config, map[], 0, earlier, at);
  }

  /** A limited client whose next request comes at `next` is let through exactly
      when it waited for `retry_after`, whatever other clients did meanwhile. */
  lemma RetryAfterIsExact(config: Config, earlier: seq<Request>, c: Client, at: nat, others: seq<Request>, next: nat)
    requires config.Enabled()
    requires NonDecreasing(earlier + [Request(c, at)] + others + [Request(c, next)])
    requires forall r | r in others :: r.client != c
    requires Decisions(config, true, map[], earlier + [Request(c, at)] + others + [Request(c, next)])[|earlier|].Limited?
    ensures var ds := Decisions(config, true, map[], earlier + [Request(c, at)] + others + [Request(c, next)]);
            ds[|ds| - 1].Allowed? <==> next >= at + ds[|earlier|].retryAfter
  {
    hide Step, Decisions, After, Opened;
    var asked, again := Request(c, at), Request(c, next);
    var reqs := earlier + [asked] + others + [again];
    SweepInvisible(config, reqs);
    DecisionsFound(config, earlier, asked, others, again);
    assert reqs == earlier + ([asked] + others + [again]);
    EarlierOpens(config, earlier, at, [asked] + others + [again]);
    assert at <= next by {
      assert reqs[|earlier|].at <= reqs[|reqs| - 1].at;
    }
    var m := After(config, false, map[], earlier);
    var m1 := Step(config, false, m, c, at).1;
    if c in m1 {
      OthersLeaveWindow(config, m1, c, others);
    }
    WaitIsExact(config, m, After(config, false, m1, others), c, at, next);
  }
}
