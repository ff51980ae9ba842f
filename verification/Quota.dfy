/** Quota and usage over one month: requests of any tenants are checked against a counter, served,
    charged to the counter and written as usage rows, each call a step of its own and the steps of
    all requests interleaved. */
module Quota {
  import opened Billing
  import S = Streaming

  const MaxTextChars: nat := 3000

  /** The enforced bound, the plan's limit with five percent of grace. */
  function Ceiling(limit: nat): (r: nat)
    ensures 20 * r <= 21 * limit < 20 * (r + 1)
  {
    21 * limit / 20
  }

  /** A plan without a positive limit is pay-as-you-go. */
  predicate Allowed(limit: int, used: nat, chars: nat) {
    limit <= 0 || used + chars <= Ceiling(limit)
  }

  /** How a request was served. */
  datatype Service =
    | Sync(ok: bool)
    | Streamed(bytes: nat, rate: int, outcome: S.Outcome)
    | Replayed(cancelled: bool)
    | Unserved

  /** What is added to the quota counter. */
  function Charge(chars: nat, v: Service): (r: nat)
    ensures r <= chars
  {
    match v
    case Sync(ok) => if ok then chars else 0
    case Streamed(bytes, rate, outcome) =>
      (match outcome
       case Completed => chars
       case Cancelled => DeliveredChars(bytes, rate, chars)
       case _ => 0)
    case Replayed(_) => chars
    case Unserved => 0
  }

  /** What is written to the usage log; a failed synchronous request is logged with its text's size. */
  function Usages(chars: nat, v: Service): seq<S.Usage> {
    match v
    case Sync(ok) => [S.Usage(chars, if ok then S.Ok else S.Error)]
    case Streamed(bytes, rate, outcome) => S.Bill(S.Request(chars, rate), bytes, outcome)
    case Replayed(cancelled) => [S.Usage(chars, if cancelled then S.ClientCancelled else S.Ok)]
    case Unserved => []
  }

  /** The two books agree on every way of serving a request. */
  lemma ChargeIsLogged(chars: nat, v: Service)
    ensures S.Counted(Usages(chars, v)) == Charge(chars, v)
  {
    var us := Usages(chars, v);
    if us != [] {
      assert us[..0] == [];
    }
  }

  // The state machine.

  datatype Place = Unchecked | Refused | Admitted | Served(service: Service) | Charged(service: Service) | Logged

  datatype Request = Request(tenant: nat, limit: int, chars: nat, at: Place)

  datatype Row = Row(tenant: nat, usage: S.Usage)

  datatype State = State(counters: map<nat, nat>, rows: seq<Row>, requests: seq<Request>)

  /** Reading a missing counter answers zero. */
  function Used(counters: map<nat, nat>, t: nat): nat {
    if t in counters then counters[t] else 0
  }

  datatype Event = Check(p: nat) | Serve(p: nat, service: Service) | Record(p: nat) | Log(p: nat)

  predicate Enabled(s: State, e: Event) {
    && e.p < |s.requests|
    && (match e
        case Check(p) => s.requests[p].at.Unchecked?
        case Serve(p, _) => s.requests[p].at.Admitted?
        case Record(p) => s.requests[p].at.Served?
        case Log(p) => s.requests[p].at.Charged?)
  }

  function Moved(s: State, p: nat, at: Place): State
    requires p < |s.requests|
  {
    s.(requests := s.requests[p := s.requests[p].(at := at)])
  }

  function Labelled(t: nat, us: seq<S.Usage>): (r: seq<Row>)
    ensures |r| == |us|
  {
    if us == [] then [] else Labelled(t, us[..|us| - 1]) + [Row(t, us[|us| - 1])]
  }

  function Apply(s: State, e: Event): State
    requires Enabled(s, e)
  {
    var r := s.requests[e.p];
    match e
    case Check(p) => Moved(s, p, if Allowed(r.limit, Used(s.counters, r.tenant), r.chars) then Admitted else Refused)
    case Serve(p, v) => Moved(s, p, Served(v))
    case Record(p) =>
      var charge := Charge(r.chars, r.at.service);
      var counters := if charge > 0 then s.counters[r.tenant := Used(s.counters, r.tenant) + charge] else s.counters;
      Moved(s.(counters := counters), p, Charged(r.at.service))
    case Log(p) => Moved(s.(rows := s.rows + Labelled(r.tenant, Usages(r.chars, r.at.service))), p, Logged)
  }

  predicate IsRun(run: seq<State>, events: seq<Event>) {
    && |run| == |events| + 1
    && forall k | 0 <= k < |events| :: Enabled(run[k], events[k]) && run[k + 1] == Apply(run[k], events[k])
  }

  // Sums.

  function Sum<T>(xs: seq<T>, w: T -> nat): nat {
    if xs == [] then 0 else Sum(xs[..|xs| - 1], w) + w(xs[|xs| - 1])
  }

  lemma {:induction false} SumUpdate<T>(xs: seq<T>, i: nat, x: T, w: T -> nat)
    requires i < |xs|
    ensures Sum(xs[i := x], w) + w(xs[i]) == Sum(xs, w) + w(x)
  {
    var n := |xs| - 1;
    if i < n {
      SumUpdate(xs[..n], i, x, w);
      assert xs[i := x][..n] == xs[..n][i := x];
    } else {
      assert xs[i := x][..n] == xs[..n];
    }
  }

  lemma {:induction false} SumConcat<T>(xs: seq<T>, ys: seq<T>, w: T -> nat)
    ensures Sum(xs + ys, w) == Sum(xs, w) + Sum(ys, w)
  {
    if ys == [] {
      assert xs + ys == xs;
    } else {
      var n := |ys| - 1;
      SumConcat(xs, ys[..n], w);
      assert (xs + ys)[..|xs| + n] == xs + ys[..n];
    }
  }

  lemma {:induction false} SumBounded<T>(xs: seq<T>, v: T -> nat, w: T -> nat, k: nat)
    requires forall x | x in xs :: v(x) <= k * w(x)
    ensures Sum(xs, v) <= k * Sum(xs, w)
  {
    if xs != [] {
      var n := |xs| - 1;
      SumBounded(xs[..n], v, w, k);
      assert k * (Sum(xs[..n], w) + w(xs[n])) == k * Sum(xs[..n], w) + k * w(xs[n]);
    }
  }

  /** The usage query: characters of a tenant's rows that were delivered or cut short by the client. */
  function Metered(t: nat): Row -> nat {
    (r: Row) => if r.tenant == t && r.usage.status in {S.Ok, S.ClientCancelled} then r.usage.chars else 0
  }

  /** Charged to the counter and not yet logged. */
  function Unlogged(t: nat): Request -> nat {
    (r: Request) => if r.tenant == t && r.at.Charged? then Charge(r.chars, r.at.service) else 0
  }

  predicate InFlight(r: Request) { r.at.Admitted? || r.at.Served? }

  /** Admitted and not yet charged. */
  function Pending(t: nat): Request -> nat {
    (r: Request) => if r.tenant == t && InFlight(r) then r.chars else 0
  }

  function Open(t: nat): Request -> nat {
    (r: Request) => if r.tenant == t && InFlight(r) then 1 else 0
  }

  // The counter and the log agree.

  ghost predicate Balanced(s: State, t: nat) {
    Used(s.counters, t) == Sum(s.rows, Metered(t)) + Sum(s.requests, Unlogged(t))
  }

  lemma {:induction false} LabelledSum(t: nat, u: nat, us: seq<S.Usage>)
    ensures Sum(Labelled(t, us), Metered(u)) == if u == t then S.Counted(us) else 0
  {
    if us != [] {
      LabelledSum(t, u, us[..|us| - 1]);
      SumConcat(Labelled(t, us[..|us| - 1]), [Row(t, us[|us| - 1])], Metered(u));
      assert [Row(t, us[|us| - 1])][..0] == [];
    }
  }

  lemma StepBalances(s: State, e: Event, t: nat)
    requires Balanced(s, t) && Enabled(s, e)
    ensures Balanced(Apply(s, e), t)
  {
    var r, s' := s.requests[e.p], Apply(s, e);
    SumUpdate(s.requests, e.p, s'.requests[e.p], Unlogged(t));
    if e.Log? {
      var us := Usages(r.chars, r.at.service);
      ChargeIsLogged(r.chars, r.at.service);
      LabelledSum(r.tenant, t, us);
      SumConcat(s.rows, Labelled(r.tenant, us), Metered(t));
    }
  }

  lemma {:induction false} RunBalances(run: seq<State>, events: seq<Event>, k: nat, t: nat)
    requires IsRun(run, events) && k < |run| && Balanced(run[0], t)
    ensures Balanced(run[k], t)
  {
    if k > 0 {
      RunBalances(run, events, k - 1, t);
      StepBalances(run[k - 1], events[k - 1], t);
    }
  }

  /** Nothing has happened this month. */
  predicate Fresh(s: State) {
    s.counters == map[] && s.rows == [] && forall p | 0 <= p < |s.requests| :: s.requests[p].at.Unchecked?
  }

  lemma {:induction false} SumZero<T>(xs: seq<T>, w: T -> nat)
    requires forall x | x in xs :: w(x) == 0
    ensures Sum(xs, w) == 0
  {
    if xs != [] {
      SumZero(xs[..|xs| - 1], w);
    }
  }

  /** The fast counter is the usage query's sum plus what is charged and not yet logged; with no
      request in between they are equal. */
  lemma CounterIsSum(run: seq<State>, events: seq<Event>, k: nat, t: nat)
    requires IsRun(run, events) && k < |run| && Fresh(run[0])
    ensures Used(run[k].counters, t) == Sum(run[k].rows, Metered(t)) + Sum(run[k].requests, Unlogged(t))
    ensures (forall r | r in run[k].requests :: !r.at.Charged?) ==>
              Used(run[k].counters, t) == Sum(run[k].rows, Metered(t))
  {
    SumZero(run[0].requests, Unlogged(t));
    RunBalances(run, events, k, t);
    if forall r | r in run[k].requests :: !r.at.Charged? {
      SumZero(run[k].requests, Unlogged(t));
    }
  }

  // Who pays.

  /** By how much the steps of request `p` have raised the counter of tenant `t`. */
  function Raised(run: seq<State>, events: seq<Event>, k: nat, p: nat, t: nat): int
    requires IsRun(run, events) && k < |run|
  {
    if k == 0 then 0
    else
      Raised(run, events, k - 1, p, t) + if events[k - 1].p == p then Rise(run, events, k, t) else 0
  }

  /** How request `p` was served, once it was. */
  function ServedAs(events: seq<Event>, k: nat, p: nat): Service
    requires k <= |events|
  {
    if k == 0 then Unserved
    else if events[k - 1].Serve? && events[k - 1].p == p then events[k - 1].service
    else ServedAs(events, k - 1, p)
  }

  predicate Paid(at: Place) { at.Charged? || at.Logged? }

  lemma {:induction false} RequestStays(run: seq<State>, events: seq<Event>, k: nat, p: nat)
    requires IsRun(run, events) && k < |run| && p < |run[0].requests|
    ensures |run[k].requests| == |run[0].requests|
    ensures run[k].requests[p] == run[0].requests[p].(at := run[k].requests[p].at)
  {
    if k > 0 {
      RequestStays(run, events, k - 1, p);
    }
  }

  /** Over a whole run a request raises its tenant's counter once, when it is charged, by the charge of
      the way it was served and so by no more than its text, and never anybody else's. */
  lemma {:induction false} ChargedOnce(run: seq<State>, events: seq<Event>, k: nat, p: nat, t: nat)
    requires IsRun(run, events) && k < |run| && p < |run[0].requests| && run[0].requests[p].at.Unchecked?
    ensures p < |run[k].requests|
    ensures var r := run[k].requests[p];
            && (r.at.Served? || r.at.Charged? ==> r.at.service == ServedAs(events, k, p))
            && Raised(run, events, k, p, t)
               == (if r.tenant == t && Paid(r.at) then Charge(r.chars, ServedAs(events, k, p)) else 0)
            && 0 <= Raised(run, events, k, p, t) <= r.chars
  {
    RequestStays(run, events, k, p);
    if k > 0 {
      ChargedOnce(run, events, k - 1, p, t);
      RequestStays(run, events, k - 1, p);
    }
  }

  function AllRaised(run: seq<State>, events: seq<Event>, k: nat, n: nat, t: nat): int
    requires IsRun(run, events) && k < |run|
  {
    if n == 0 then 0 else AllRaised(run, events, k, n - 1, t) + Raised(run, events, k, n - 1, t)
  }

  /** What the step before `k` added. */
  function Rise(run: seq<State>, events: seq<Event>, k: nat, t: nat): int
    requires IsRun(run, events) && 0 < k < |run|
  {
    Used(run[k].counters, t) - Used(run[k - 1].counters, t)
  }

  lemma {:induction false} OneMoreStep(run: seq<State>, events: seq<Event>, k: nat, n: nat, t: nat)
    requires IsRun(run, events) && 0 < k < |run|
    ensures AllRaised(run, events, k, n, t) - AllRaised(run, events, k - 1, n, t)
         == if events[k - 1].p < n then Rise(run, events, k, t) else 0
  {
    if n > 0 {
      OneMoreStep(run, events, k, n - 1, t);
    }
  }

  lemma {:induction false} Nobody(run: seq<State>, events: seq<Event>, n: nat, t: nat)
    requires IsRun(run, events)
    ensures AllRaised(run, events, 0, n, t) == 0
  {
    if n > 0 {
      Nobody(run, events, n - 1, t);
    }
  }

  /** And nothing else raises a counter: it is the sum of what the requests were charged. */
  lemma {:induction false} RequestsPayForAll(run: seq<State>, events: seq<Event>, k: nat, t: nat)
    requires IsRun(run, events) && k < |run|
    ensures Used(run[k].counters, t) == Used(run[0].counters, t) + AllRaised(run, events, k, |run[0].requests|, t)
  {
    var n := |run[0].requests|;
    if k == 0 {
      Nobody(run, events, n, t);
    } else {
      RequestsPayForAll(run, events, k - 1, t);
      OneMoreStep(run, events, k, n, t);
      SameRequests(run, events, k - 1);
    }
  }

  lemma {:induction false} SameRequests(run: seq<State>, events: seq<Event>, k: nat)
    requires IsRun(run, events) && k < |run|
    ensures |run[k].requests| == |run[0].requests|
  {
    if k > 0 {
      SameRequests(run, events, k - 1);
    }
  }

  // Overshoot.

  /** All requests of tenant `t` are on one plan and within the text limit. */
  predicate OnPlan(s: State, t: nat, limit: int) {
    forall r | r in s.requests && r.tenant == t :: r.limit == limit && r.chars <= MaxTextChars
  }

  /** Used and in flight together stay within the ceiling and one text for every further request that
      was in flight. */
  predicate Within(s: State, t: nat, limit: nat, n: nat)
    requires n > 0
  {
    Used(s.counters, t) + Sum(s.requests, Pending(t)) <= Ceiling(limit) + (n - 1) * MaxTextChars
  }

  lemma StepOnPlan(s: State, e: Event, t: nat, limit: int)
    requires OnPlan(s, t, limit) && Enabled(s, e)
    ensures OnPlan(Apply(s, e), t, limit)
  {
    var s' := Apply(s, e);
    forall r | r in s'.requests && r.tenant == t
      ensures r.limit == limit && r.chars <= MaxTextChars
    {
      assert s.requests[e.p] in s.requests;
      assert r in s.requests || r == s'.requests[e.p];
    }
  }

  lemma AdmitWithin(s: State, e: Event, t: nat, limit: nat, n: nat)
    requires limit > 0 && n > 0 && OnPlan(s, t, limit) && Enabled(s, e) && e.Check?
    requires Within(s, t, limit, n) && Sum(Apply(s, e).requests, Open(t)) <= n
    ensures Within(Apply(s, e), t, limit, n)
  {
    var r, s' := s.requests[e.p], Apply(s, e);
    assert r in s.requests;
    SumUpdate(s.requests, e.p, s'.requests[e.p], Pending(t));
    SumUpdate(s.requests, e.p, s'.requests[e.p], Open(t));
    SumBounded(s.requests, Pending(t), Open(t), MaxTextChars);
  }

  lemma StepWithin(s: State, e: Event, t: nat, limit: nat, n: nat)
    requires limit > 0 && n > 0 && OnPlan(s, t, limit) && Enabled(s, e)
    requires Within(s, t, limit, n) && Sum(Apply(s, e).requests, Open(t)) <= n
    ensures Within(Apply(s, e), t, limit, n)
  {
    if e.Check? {
      AdmitWithin(s, e, t, limit, n);
    } else {
      SumUpdate(s.requests, e.p, Apply(s, e).requests[e.p], Pending(t));
    }
  }

  /** Overshoot is bounded: with at most `n` requests of a tenant in flight at any time, used plus
      in-flight characters never exceed the ceiling by more than n - 1 texts. */
  lemma {:induction false} OvershootBounded(run: seq<State>, events: seq<Event>, k: nat, t: nat, limit: nat, n: nat)
    requires IsRun(run, events) && k < |run| && limit > 0 && n > 0
    requires OnPlan(run[0], t, limit) && Within(run[0], t, limit, n)
    requires forall j | 0 <= j < |run| :: Sum(run[j].requests, Open(t)) <= n
    ensures OnPlan(run[k], t, limit) && Within(run[k], t, limit, n)
  {
    if k > 0 {
      OvershootBounded(run, events, k - 1, t, limit, n);
      StepOnPlan(run[k - 1], events[k - 1], t, limit);
      StepWithin(run[k - 1], events[k - 1], t, limit, n);
    }
  }

  /** `n` full-length requests on a plan whose ceiling is one of them; the first `k` were checked. */
  function Rush(n: nat, k: nat): State {
    State(map[], [], seq(n, i => Request(0, 2858, MaxTextChars, if i < k then Admitted else Unchecked)))
  }

  lemma {:induction false} RushSums(n: nat, k: nat)
    requires k <= n
    ensures Sum(Rush(n, k).requests, Pending(0)) == k * MaxTextChars && Sum(Rush(n, k).requests, Open(0)) == k
  {
    if k == 0 {
      SumZero(Rush(n, 0).requests, Pending(0));
      SumZero(Rush(n, 0).requests, Open(0));
    } else {
      RushSums(n, k - 1);
      var before, r := Rush(n, k - 1).requests, Request(0, 2858, MaxTextChars, Admitted);
      assert Rush(n, k).requests == before[k - 1 := r];
      SumUpdate(before, k - 1, r, Pending(0));
      SumUpdate(before, k - 1, r, Open(0));
    }
  }

  /** The bound cannot be lowered: `n` requests that are all checked before any is charged reach it. */
  lemma BoundReached(n: nat) returns (run: seq<State>, events: seq<Event>)
    requires n > 0
    ensures IsRun(run, events) && |events| == n && Fresh(run[0]) && OnPlan(run[0], 0, 2858)
    ensures forall j | 0 <= j < |run| :: Sum(run[j].requests, Open(0)) <= n
    ensures Used(run[n].counters, 0) + Sum(run[n].requests, Pending(0)) == Ceiling(2858) + (n - 1) * MaxTextChars
  {
    run, events := seq(n + 1, k requires 0 <= k => Rush(n, k)), seq(n, k requires 0 <= k => Check(k));
    forall k: nat | k < n
      ensures Enabled(run[k], events[k]) && run[k + 1] == Apply(run[k], events[k])
    {
      assert Rush(n, k + 1).requests == Apply(Rush(n, k), Check(k)).requests;
    }
    forall j: nat | j <= n
      ensures Sum(run[j].requests, Open(0)) <= n
    {
      RushSums(n, j);
    }
    RushSums(n, n);
  }
}
