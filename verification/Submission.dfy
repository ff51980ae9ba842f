/** Concurrent job submissions: lookup by idempotency key, text upload, insert under the unique
    index, second lookup when the insert failed, enqueue. Each store call is one step, and the
    steps of any number of callers interleave. */
module Submission {

  type Id = nat

  datatype Request = Request(tenant: nat, key: string, fingerprint: string)

  datatype Result = Ok(id: Id, existed: bool) | Conflict | Error

  /** The next call of one `Create`. */
  datatype Place =
    | Lookup
    | PutText(id: Id)
    | Insert(id: Id)
    | LookupAgain
    | Enqueue(id: Id)
    | Returned(result: Result)

  datatype Caller = Caller(request: Request, at: Place)

  /** The jobs table keeps, per job, the request that created it. */
  datatype State = State(
    jobs: map<Id, Request>,
    texts: set<Id>,
    queue: set<Id>,
    callers: seq<Caller>)

  predicate SameKey(a: Request, b: Request) {
    a.tenant == b.tenant && a.key == b.key
  }

  ghost predicate Taken(jobs: map<Id, Request>, r: Request) {
    exists id | id in jobs :: SameKey(jobs[id], r)
  }

  ghost function Find(jobs: map<Id, Request>, r: Request): (id: Id)
    requires Taken(jobs, r)
    ensures id in jobs && SameKey(jobs[id], r)
  {
    var id :| id in jobs && SameKey(jobs[id], r);
    id
  }

  /** A fresh random identifier. */
  ghost predicate Fresh(s: State, id: Id) {
    && id !in s.jobs && id !in s.texts
    && forall p | 0 <= p < |s.callers| :: Draft(s.callers[p].at) != {id}
  }

  /** The identifier a caller has drawn and not yet tried to insert. */
  function Draft(at: Place): set<Id> {
    match at
    case PutText(id) => {id}
    case Insert(id) => {id}
    case _ => {}
  }

  /** How a caller answers when it found the job of an earlier submission. */
  ghost function Compare(jobs: map<Id, Request>, r: Request): Result
    requires Taken(jobs, r)
  {
    var id := Find(jobs, r);
    if jobs[id].fingerprint == r.fingerprint then Ok(id, true) else Conflict
  }

  /** One call: `ok` is whether it reported success, `applied` whether an insert took effect
      although its reply was lost, `id` the identifier drawn. */
  datatype Event = Event(p: nat, ok: bool, applied: bool, id: Id)

  ghost predicate Enabled(s: State, e: Event) {
    && e.p < |s.callers| && !s.callers[e.p].at.Returned?
    && (s.callers[e.p].at.Lookup? ==> Fresh(s, e.id))
  }

  ghost function Moved(s: State, p: nat, at: Place): State
    requires p < |s.callers|
  {
    s.(callers := s.callers[p := s.callers[p].(at := at)])
  }

  ghost function Apply(s: State, e: Event): State
    requires Enabled(s, e)
  {
    var r := s.callers[e.p].request;
    match s.callers[e.p].at
    case Lookup =>
      Moved(s, e.p, if !e.ok then Returned(Error)
            else if Taken(s.jobs, r) then Returned(Compare(s.jobs, r)) else PutText(e.id))
    case PutText(id) =>
      if e.ok then Moved(s.(texts := s.texts + {id}), e.p, Insert(id)) else Moved(s, e.p, Returned(Error))
    case Insert(id) =>
      var inserted := !Taken(s.jobs, r) && e.applied;
      var s' := if inserted then s.(jobs := s.jobs[id := r]) else s;
      Moved(s', e.p, if inserted && e.ok then Enqueue(id) else LookupAgain)
    case LookupAgain =>
      Moved(s, e.p, Returned(if e.ok && Taken(s.jobs, r) then Compare(s.jobs, r) else Error))
    case Enqueue(id) =>
      Moved(if e.ok then s.(queue := s.queue + {id}) else s, e.p, Returned(Ok(id, false)))
  }

  ghost predicate Initial(s: State) {
    s.jobs == map[] && s.queue == {} && s.texts == {} && forall p | 0 <= p < |s.callers| :: s.callers[p].at.Lookup?
  }

  ghost predicate IsRun(run: seq<State>, events: seq<Event>) {
    && |run| == |events| + 1 && Initial(run[0])
    && forall k | 0 <= k < |events| :: Enabled(run[k], events[k]) && run[k + 1] == Apply(run[k], events[k])
  }

  // What every step keeps.

  ghost predicate Unique(jobs: map<Id, Request>) {
    forall a, b | a in jobs && b in jobs && SameKey(jobs[a], jobs[b]) :: a == b
  }

  /** The job a caller has created, once it has. */
  function Creation(at: Place): set<Id> {
    match at
    case Enqueue(id) => {id}
    case Returned(Ok(id, false)) => {id}
    case _ => {}
  }

  ghost predicate CallerOk(s: State, c: Caller) {
    && (forall id | id in Draft(c.at) :: id !in s.jobs)
    && (c.at.Insert? ==> c.at.id in s.texts)
    && (forall id | id in Creation(c.at) :: id in s.jobs && s.jobs[id] == c.request)
    && (c.at.Returned? && c.at.result.Ok? ==> c.at.result.id in s.jobs && s.jobs[c.at.result.id] == c.request)
    && (c.at.Returned? && c.at.result.Conflict? ==>
          Taken(s.jobs, c.request) && s.jobs[Find(s.jobs, c.request)].fingerprint != c.request.fingerprint)
  }

  ghost predicate Apart(a: Place, b: Place) {
    Draft(a) !! Draft(b) && Creation(a) !! Creation(b)
  }

  ghost predicate Inv(s: State) {
    && Unique(s.jobs)
    && s.jobs.Keys <= s.texts
    && s.queue <= s.jobs.Keys
    && (forall p | 0 <= p < |s.callers| :: CallerOk(s, s.callers[p]))
    && (forall p, q | 0 <= p < q < |s.callers| :: Apart(s.callers[p].at, s.callers[q].at))
  }

  lemma FindUnique(jobs: map<Id, Request>, jobs': map<Id, Request>, r: Request)
    requires Unique(jobs') && Taken(jobs, r)
    requires forall id | id in jobs :: id in jobs' && jobs'[id] == jobs[id]
    ensures Taken(jobs', r) && Find(jobs', r) == Find(jobs, r)
  {
    var id := Find(jobs, r);
    assert id in jobs' && SameKey(jobs'[id], r);
  }

  /** Other callers do not notice a step that only adds a row, a text or a queue entry. */
  lemma CallerStays(s: State, s': State, c: Caller)
    requires CallerOk(s, c) && Unique(s'.jobs) && s.texts <= s'.texts
    requires forall id | id in s.jobs :: id in s'.jobs && s'.jobs[id] == s.jobs[id]
    requires forall id | id in s'.jobs && id !in s.jobs :: id !in Draft(c.at)
    ensures CallerOk(s', c)
  {
    if c.at.Returned? && c.at.result.Conflict? {
      FindUnique(s.jobs, s'.jobs, c.request);
    }
  }

  ghost predicate Grows(jobs: map<Id, Request>, jobs': map<Id, Request>) {
    forall id | id in jobs :: id in jobs' && jobs'[id] == jobs[id]
  }

  /** A step of caller `p` keeps the invariant when its own new place is in order, apart from the
      others, and the row it adds, if any, is nobody else's draft. */
  lemma Combine(s: State, s': State, p: nat, c': Caller)
    requires Inv(s) && p < |s.callers| && s'.callers == s.callers[p := c']
    requires Unique(s'.jobs) && Grows(s.jobs, s'.jobs)
    requires s.texts <= s'.texts && s'.jobs.Keys <= s'.texts && s'.queue <= s'.jobs.Keys
    requires CallerOk(s', c')
    requires Creation(c'.at) <= Creation(s.callers[p].at) + (s'.jobs.Keys - s.jobs.Keys)
    requires forall id | id in Draft(c'.at) && id !in Draft(s.callers[p].at) :: Fresh(s, id)
    requires s'.jobs.Keys - s.jobs.Keys <= Draft(s.callers[p].at)
    ensures Inv(s')
  {
    forall q | 0 <= q < |s.callers| && q != p
      ensures CallerOk(s', s'.callers[q]) && Apart(s'.callers[q].at, c'.at)
    {
      ApartPair(s, p, q);
      assert CallerOk(s, s.callers[q]);
      CallerStays(s, s', s.callers[q]);
      StillApart(s, s', p, q, c');
    }
    assert CallerOk(s', s'.callers[p]);
  }

  lemma ApartPair(s: State, p: nat, q: nat)
    requires Inv(s) && p < |s.callers| && q < |s.callers| && p != q
    ensures Apart(s.callers[q].at, s.callers[p].at)
  {
    if q < p {
      assert Apart(s.callers[q].at, s.callers[p].at);
    } else {
      assert Apart(s.callers[p].at, s.callers[q].at);
    }
  }

  lemma StillApart(s: State, s': State, p: nat, q: nat, c': Caller)
    requires p < |s.callers| && q < |s.callers| && p != q
    requires CallerOk(s, s.callers[q]) && Apart(s.callers[q].at, s.callers[p].at)
    requires Creation(c'.at) <= Creation(s.callers[p].at) + (s'.jobs.Keys - s.jobs.Keys)
    requires forall id | id in Draft(c'.at) && id !in Draft(s.callers[p].at) :: Fresh(s, id)
    ensures Apart(s.callers[q].at, c'.at)
  {
    var at := s.callers[q].at;
    forall id | id in Draft(at)
      ensures id !in Draft(c'.at)
    {
      assert Draft(at) == {id};
    }
    forall id | id in Creation(at)
      ensures id !in Creation(c'.at)
    {
      assert id in s.jobs;
    }
  }

  /** What comparing fingerprints answers is true of the table. */
  lemma CompareOk(s: State, r: Request)
    requires Taken(s.jobs, r)
    ensures CallerOk(s, Caller(r, Returned(Compare(s.jobs, r))))
  {
  }

  lemma InsertUnique(jobs: map<Id, Request>, id: Id, r: Request)
    requires Unique(jobs) && !Taken(jobs, r) && id !in jobs
    ensures Unique(jobs[id := r])
  {
    var jobs' := jobs[id := r];
    forall a, b | a in jobs' && b in jobs' && SameKey(jobs'[a], jobs'[b])
      ensures a == b
    {
      assert a in jobs ==> !SameKey(jobs[a], r);
      assert b in jobs ==> !SameKey(jobs[b], r);
    }
  }

  lemma InsertKeeps(s: State, e: Event)
    requires Inv(s) && Enabled(s, e) && s.callers[e.p].at.Insert?
    ensures Inv(Apply(s, e)) && Grows(s.jobs, Apply(s, e).jobs)
  {
    var c, s' := s.callers[e.p], Apply(s, e);
    assert CallerOk(s, c);
    var id := c.at.id;
    assert id in Draft(c.at) && id !in s.jobs;
    if !Taken(s.jobs, c.request) && e.applied {
      InsertUnique(s.jobs, id, c.request);
      assert s'.jobs == s.jobs[id := c.request];
      assert s'.jobs.Keys - s.jobs.Keys == {id};
    }
    Combine(s, s', e.p, s'.callers[e.p]);
  }

  lemma LookupKeeps(s: State, e: Event)
    requires Inv(s) && Enabled(s, e) && (s.callers[e.p].at.Lookup? || s.callers[e.p].at.LookupAgain?)
    ensures Inv(Apply(s, e)) && Apply(s, e).jobs == s.jobs
  {
    var c, s' := s.callers[e.p], Apply(s, e);
    if Taken(s.jobs, c.request) {
      CompareOk(s, c.request);
      assert CallerOk(s', Caller(c.request, Returned(Compare(s.jobs, c.request))));
    }
    Combine(s, s', e.p, s'.callers[e.p]);
  }

  lemma WriteKeeps(s: State, e: Event)
    requires Inv(s) && Enabled(s, e) && (s.callers[e.p].at.PutText? || s.callers[e.p].at.Enqueue?)
    ensures Inv(Apply(s, e)) && Apply(s, e).jobs == s.jobs
  {
    var c, s' := s.callers[e.p], Apply(s, e);
    assert CallerOk(s, c);
    if c.at.Enqueue? {
      assert c.at.id in Creation(c.at);
    } else {
      assert c.at.id in Draft(c.at);
    }
    Combine(s, s', e.p, s'.callers[e.p]);
  }

  lemma StepKeeps(s: State, e: Event)
    requires Inv(s) && Enabled(s, e)
    ensures Inv(Apply(s, e)) && Grows(s.jobs, Apply(s, e).jobs)
  {
    match s.callers[e.p].at
    case Insert(_) => InsertKeeps(s, e);
    case Lookup => LookupKeeps(s, e);
    case LookupAgain => LookupKeeps(s, e);
    case PutText(_) => WriteKeeps(s, e);
    case Enqueue(_) => WriteKeeps(s, e);
  }

  lemma {:induction false} RunKeeps(run: seq<State>, events: seq<Event>, k: nat)
    requires IsRun(run, events) && k < |run|
    ensures Inv(run[k])
  {
    if k > 0 {
      RunKeeps(run, events, k - 1);
      StepKeeps(run[k - 1], events[k - 1]);
    }
  }

  lemma {:induction false} RowsStay(run: seq<State>, events: seq<Event>, j: nat, k: nat)
    requires IsRun(run, events) && j <= k < |run|
    ensures Grows(run[j].jobs, run[k].jobs)
    decreases k
  {
    if j < k {
      RowsStay(run, events, j, k - 1);
      RunKeeps(run, events, k - 1);
      StepKeeps(run[k - 1], events[k - 1]);
    }
  }

  // The promises of `Create`, over every interleaving.

  /** At most one row per tenant and key. */
  lemma OneRowPerKey(run: seq<State>, events: seq<Event>, k: nat, a: Id, b: Id)
    requires IsRun(run, events) && k < |run|
    requires a in run[k].jobs && b in run[k].jobs && SameKey(run[k].jobs[a], run[k].jobs[b])
    ensures a == b
  {
    RunKeeps(run, events, k);
  }

  /** In every state, only ids with a row are queued, and only jobs whose text is stored have a row. */
  lemma TextThenRowThenQueue(run: seq<State>, events: seq<Event>, k: nat)
    requires IsRun(run, events) && k < |run|
    ensures run[k].queue <= run[k].jobs.Keys <= run[k].texts
  {
    RunKeeps(run, events, k);
  }

  /** All successful submissions with one key get the same job, made for exactly their body, and
      at most one of them is told that it created it. */
  lemma SuccessesAgree(run: seq<State>, events: seq<Event>, k: nat, p: nat, q: nat, a: Result, b: Result)
    requires IsRun(run, events) && k < |run| && p < |run[k].callers| && q < |run[k].callers| && p != q
    requires SameKey(run[k].callers[p].request, run[k].callers[q].request)
    requires run[k].callers[p].at == Returned(a) && a.Ok?
    requires run[k].callers[q].at == Returned(b) && b.Ok?
    ensures a.id == b.id
    ensures run[k].callers[p].request.fingerprint == run[k].callers[q].request.fingerprint
    ensures a.existed || b.existed
    ensures a.id in run[k].jobs && run[k].jobs[a.id] == run[k].callers[p].request
  {
    RunKeeps(run, events, k);
    var s := run[k];
    assert CallerOk(s, s.callers[p]) && CallerOk(s, s.callers[q]);
    assert SameKey(s.jobs[a.id], s.jobs[b.id]);
    ApartPair(s, p, q);
  }

  /** Nothing fails: every call reports success and took effect, unless the index refused it. */
  predicate Smooth(events: seq<Event>) {
    forall e | e in events :: e.ok && e.applied
  }

  ghost predicate Answered(s: State, c: Caller) {
    && (c.at.LookupAgain? ==> Taken(s.jobs, c.request))
    && (c.at.Returned? ==> c.at.result != Error)
  }

  lemma StepAnswers(s: State, e: Event, q: nat)
    requires Inv(s) && Enabled(s, e) && e.ok && e.applied && q < |s.callers|
    requires Answered(s, s.callers[q])
    ensures Answered(Apply(s, e), Apply(s, e).callers[q])
  {
    var c, s' := s.callers[q], Apply(s, e);
    StepKeeps(s, e);
    if q != e.p {
      assert s'.callers[q] == c;
      if c.at.LookupAgain? {
        FindUnique(s.jobs, s'.jobs, c.request);
      }
    }
  }

  lemma {:induction false} SmoothAnswers(run: seq<State>, events: seq<Event>, k: nat, p: nat)
    requires IsRun(run, events) && Smooth(events) && k < |run| && p < |run[0].callers|
    ensures |run[k].callers| == |run[0].callers|
    ensures Answered(run[k], run[k].callers[p])
    ensures run[k].callers[p].request == run[0].callers[p].request
  {
    if k > 0 {
      SmoothAnswers(run, events, k - 1, p);
      RunKeeps(run, events, k - 1);
      assert events[k - 1] in events;
      StepAnswers(run[k - 1], events[k - 1], p);
    }
  }

  /** When no call fails, a submission that returned left a row for its key, and it is answered
      with that row's job if the row was made from the same body and with a conflict if not. */
  lemma ConflictExactlyOnOtherBody(run: seq<State>, events: seq<Event>, k: nat, p: nat, r: Result)
    requires IsRun(run, events) && Smooth(events) && k < |run| && p < |run[k].callers|
    requires run[k].callers[p].at == Returned(r)
    ensures Taken(run[k].jobs, run[k].callers[p].request)
    ensures var id := Find(run[k].jobs, run[k].callers[p].request);
            if run[k].jobs[id].fingerprint == run[k].callers[p].request.fingerprint
            then r.Ok? && r.id == id else r == Conflict
  {
    RunKeeps(run, events, k);
    CallersStay(run, events, k);
    SmoothAnswers(run, events, k, p);
    var s := run[k];
    assert CallerOk(s, s.callers[p]);
    if r.Ok? {
      var id := Find(s.jobs, s.callers[p].request);
      assert SameKey(s.jobs[r.id], s.jobs[id]);
    }
  }

  lemma {:induction false} CallersStay(run: seq<State>, events: seq<Event>, k: nat)
    requires IsRun(run, events) && k < |run|
    ensures |run[k].callers| == |run[0].callers|
  {
    if k > 0 {
      CallersStay(run, events, k - 1);
    }
  }

  /** With or without failures, a body that differs from the row's is never accepted, and a
      conflict is reported only when such a row exists. */
  lemma OtherBodyNeverAccepted(run: seq<State>, events: seq<Event>, k: nat, p: nat, r: Result)
    requires IsRun(run, events) && k < |run| && p < |run[k].callers|
    requires run[k].callers[p].at == Returned(r)
    ensures forall id | id in run[k].jobs && SameKey(run[k].jobs[id], run[k].callers[p].request)
                        && run[k].jobs[id].fingerprint != run[k].callers[p].request.fingerprint :: !r.Ok?
    ensures r.Conflict? ==> (exists id | id in run[k].jobs && SameKey(run[k].jobs[id], run[k].callers[p].request)
                               :: run[k].jobs[id].fingerprint != run[k].callers[p].request.fingerprint)
  {
    RunKeeps(run, events, k);
    var s := run[k];
    assert CallerOk(s, s.callers[p]);
    if r.Ok? {
      forall id | id in s.jobs && SameKey(s.jobs[id], s.callers[p].request)
        ensures id == r.id
      {
        assert SameKey(s.jobs[r.id], s.jobs[id]);
      }
    } else if r.Conflict? {
      var id := Find(s.jobs, s.callers[p].request);
      assert id in s.jobs && SameKey(s.jobs[id], s.callers[p].request);
    }
  }
}
