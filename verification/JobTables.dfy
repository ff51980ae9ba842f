/** The `jobs` row and `job_segments` rows of one long-text job, and the conditional
    statements of the job repository. Each statement is one atomic update: the functions say
    what it does to the two tables, and `JobStore` performs it in place. */
module JobTables {
  import Decimal
  import opened Basics

  datatype Status = Queued | Segmenting | Synthesizing | Merging | Completed | Failed | Cancelled {
    predicate Terminal() {
      Completed? || Failed? || Cancelled?
    }

    /** Position in the life cycle; the three terminal states share the last place. */
    function Rank(): nat {
      match this
      case Queued => 0
      case Segmenting => 1
      case Synthesizing => 2
      case Merging => 3
      case _ => 4
    }
  }

  datatype SegmentStatus = Pending | Running | Done | Broken

  /** One `job_segments` row; `key` is empty while `s3_key` is null. `Broken` is 'failed'. */
  datatype Segment = Segment(status: SegmentStatus, attempts: nat, key: string) {
    predicate Claimable() {
      status.Pending? || status.Broken?
    }
  }

  type Rows = map<nat, Segment>

  datatype Job = Job(status: Status, total: Option<nat>, done: nat, output: string)

  datatype Tables = Tables(job: Job, rows: Rows)

  const MaxJobChars := 100_000
  const MaxSegmentAttempts := 3

  // The statements of jobs.sql.go.

  function TransitionJob(t: Tables, from: Status, to: Status): Tables {
    if t.job.status == from then t.(job := t.job.(status := to)) else t
  }

  function SetSegmentsTotal(t: Tables, total: nat): Tables {
    if t.job.status.Segmenting? then t.(job := t.job.(status := Synthesizing, total := Some(total))) else t
  }

  function CreateSegment(t: Tables, seqNo: nat): Tables {
    if seqNo in t.rows then t else t.(rows := t.rows[seqNo := Segment(Pending, 0, "")])
  }

  predicate ClaimAffects(t: Tables, seqNo: nat) {
    seqNo in t.rows && t.rows[seqNo].Claimable()
  }

  function ClaimSegment(t: Tables, seqNo: nat): Tables {
    if ClaimAffects(t, seqNo) then
      var row := t.rows[seqNo];
      t.(rows := t.rows[seqNo := row.(status := Running, attempts := row.attempts + 1)])
    else t
  }

  predicate CompleteAffects(t: Tables, seqNo: nat) {
    seqNo in t.rows && t.rows[seqNo].status.Running?
  }

  function CompleteSegment(t: Tables, seqNo: nat, key: string): Tables {
    if CompleteAffects(t, seqNo) then
      t.(rows := t.rows[seqNo := t.rows[seqNo].(status := Done, key := key)],
      job := t.job.(done := t.job.done + 1))
    else t
  }

  /** Carries no status guard: it would overwrite a done row just as well. */
  function FailSegment(t: Tables, seqNo: nat): Tables {
    if seqNo in t.rows then t.(rows := t.rows[seqNo := t.rows[seqNo].(status := Broken)]) else t
  }

  function FailJob(t: Tables): Tables {
    if t.job.status.Terminal() then t else t.(job := t.job.(status := Failed))
  }

  function CompleteJob(t: Tables, output: string): Tables {
    if t.job.status.Merging? then t.(job := t.job.(status := Completed, output := output)) else t
  }

  function CancelJob(t: Tables): Tables {
    if t.job.status.Terminal() then t else t.(job := t.job.(status := Cancelled))
  }

  // Reads.

  function DoneRows(rows: Rows): (s: set<nat>)
    ensures forall i :: i in s <==> i in rows && rows[i].status.Done?
  {
    set i | i in rows && rows[i].status.Done?
  }

  function UnfinishedRows(rows: Rows): (s: set<nat>)
    ensures forall i :: i in s <==> i in rows && !rows[i].status.Done?
  {
    set i | i in rows && !rows[i].status.Done?
  }

  predicate IsLeast(m: nat, keys: set<nat>) {
    m in keys && forall k | k in keys :: m <= k
  }

  lemma {:induction false} HasLeast(keys: set<nat>) returns (m: nat)
    requires keys != {}
    ensures IsLeast(m, keys)
  {
    m :| m in keys;
    var rest := keys - {m};
    assert forall k | k in keys :: k == m || k in rest;
    if rest != {} {
      var r := HasLeast(rest);
      m := if r < m then r else m;
    }
  }

  lemma LeastExists(keys: set<nat>)
    requires keys != {}
    ensures exists m :: IsLeast(m, keys)
  {
    var _ := HasLeast(keys);
  }

  function Least(keys: set<nat>): (m: nat)
    requires keys != {}
    ensures IsLeast(m, keys)
  {
    LeastExists(keys);
    var m :| IsLeast(m, keys);
    m
  }

  /** The keys once each, by size. */
  ghost predicate Lists(s: seq<nat>, keys: set<nat>) {
    |s| == |keys| && Increasing(s) && forall k :: k in s <==> k in keys
  }

  /** `order by seq`. */
  function Ordered(keys: set<nat>): (s: seq<nat>)
    ensures Lists(s, keys)
  {
    if keys == {} then []
    else
      var m := Least(keys);
      [m] + Ordered(keys - {m})
  }

  function Below(n: nat): (s: set<nat>)
    ensures |s| == n && forall k :: k in s <==> 0 <= k < n
  {
    if n == 0 then {} else Below(n - 1) + {n - 1}
  }

  predicate Increasing(s: seq<nat>) {
    forall i, j | 0 <= i < j < |s| :: s[i] < s[j]
  }

  lemma {:induction false} AtLeastItsIndex(s: seq<nat>, i: nat)
    requires Increasing(s) && i < |s|
    ensures s[i] >= i
  {
    if i > 0 { AtLeastItsIndex(s, i - 1); }
  }

  lemma {:induction false} AtMostItsPlace(s: seq<nat>, n: nat, i: nat)
    requires Increasing(s) && i < |s| && s[|s| - 1] < n
    ensures s[i] + |s| <= n + i
    decreases |s| - i
  {
    if i < |s| - 1 { AtMostItsPlace(s, n, i + 1); }
  }

  lemma ListedAt(s: seq<nat>, n: nat, i: nat)
    requires Increasing(s) && |s| == n && i < n && s[n - 1] < n
    ensures s[i] == i
  {
    AtLeastItsIndex(s, i);
    AtMostItsPlace(s, n, i);
  }

  /** Rows 0..n-1 are listed as 0, 1, ..., n-1. */
  lemma ListsBelow(s: seq<nat>, n: nat)
    requires Lists(s, Below(n))
    ensures |s| == n && forall i | 0 <= i < n :: s[i] == i
  {
    assert n > 0 ==> s[n - 1] in s;
    forall i | 0 <= i < n ensures s[i] == i {
      ListedAt(s, n, i);
    }
  }

  lemma DropLast(a: seq<nat>)
    requires Increasing(a) && a != []
    ensures var front, x := a[..|a| - 1], a[|a| - 1];
            && a == front + [x] && Increasing(front)
            && (forall i | i in a :: i <= x)
            && (forall i :: i in front <==> i in a && i != x)
  {
  }

  /** An increasing list is determined by its elements. */
  lemma {:induction false} IncreasingUnique(a: seq<nat>, b: seq<nat>)
    requires Increasing(a) && Increasing(b) && forall i :: i in a <==> i in b
    ensures a == b
  {
    assert b != [] ==> b[0] in b;
    if a != [] {
      assert a[0] in b;
      DropLast(a);
      DropLast(b);
      assert a[|a| - 1] in b && b[|b| - 1] in a;
      IncreasingUnique(a[..|a| - 1], b[..|b| - 1]);
    }
  }

  /** What `order by seq` gives, without saying how. */
  ghost function Listing(keys: set<nat>): (s: seq<nat>)
    ensures Lists(s, keys)
  {
    assert Lists(Ordered(keys), keys);
    var s :| Lists(s, keys);
    s
  }

  lemma {:induction false} SubsetSize(a: set<nat>, b: set<nat>)
    requires a <= b
    ensures |a| <= |b|
  {
    if a != {} {
      var x :| x in a;
      SubsetSize(a - {x}, b - {x});
    }
  }

  /** Object-store location of one segment's audio; distinct segments never share one. */
  function SegmentKey(prefix: string, seqNo: nat): (k: string)
    ensures k != ""
  {
    prefix + "/seg/" + Decimal.Padded(seqNo, 5) + ".pcm"
  }

  lemma SegmentKeyInjective(prefix: string, i: nat, j: nat)
    requires SegmentKey(prefix, i) == SegmentKey(prefix, j)
    ensures i == j
  {
    var a, b := SegmentKey(prefix, i), SegmentKey(prefix, j);
    var cut := |prefix + "/seg/"|;
    assert a[cut..|a| - 4] == Decimal.Padded(i, 5);
    assert b[cut..|b| - 4] == Decimal.Padded(j, 5);
    Decimal.PaddedRoundTrip(i, 5);
    Decimal.PaddedRoundTrip(j, 5);
  }

  function OutputKey(prefix: string): (k: string) {
    prefix + "/output"
  }
}
