/** The job repository: the two tables of one job, updated in place by the statements of
    jobs.sql.go. Each method performs exactly one statement. */
module JobStorage {
  import opened Basics
  import opened JobTables

  class JobStore {
    var job: Job
    var rows: Rows

    ghost function View(): Tables
      reads this
    {
      Tables(job, rows)
    }

    constructor ()
      ensures View() == Tables(Job(Queued, None, 0, ""), map[])
    {
      job := Job(Queued, None, 0, "");
      rows := map[];
    }

    method Transition(from: Status, to: Status) returns (moved: bool)
      modifies this
      ensures View() == TransitionJob(old(View()), from, to)
      ensures moved <==> old(job).status == from
    {
      moved := job.status == from;
      if moved {
        job := job.(status := to);
      }
    }

    method SetTotal(total: nat)
      modifies this
      ensures View() == SetSegmentsTotal(old(View()), total)
    {
      if job.status.Segmenting? {
        job := job.(status := Synthesizing, total := Some(total));
      }
    }

    method Create(seqNo: nat)
      modifies this
      ensures View() == CreateSegment(old(View()), seqNo)
    {
      if seqNo !in rows {
        rows := rows[seqNo := Segment(Pending, 0, "")];
      }
    }

    method Claim(seqNo: nat) returns (claimed: bool)
      modifies this
      ensures View() == ClaimSegment(old(View()), seqNo)
      ensures claimed <==> old(ClaimAffects(View(), seqNo))
    {
      claimed := seqNo in rows && rows[seqNo].Claimable();
      if claimed {
        var row := rows[seqNo];
        rows := rows[seqNo := row.(status := Running, attempts := row.attempts + 1)];
      }
    }

    method CompleteRow(seqNo: nat, key: string)
      modifies this
      ensures View() == CompleteSegment(old(View()), seqNo, key)
    {
      if seqNo in rows && rows[seqNo].status.Running? {
        rows := rows[seqNo := rows[seqNo].(status := Done, key := key)];
        job := job.(done := job.done + 1);
      }
    }

    method FailRow(seqNo: nat)
      modifies this
      ensures View() == FailSegment(old(View()), seqNo)
    {
      if seqNo in rows {
        rows := rows[seqNo := rows[seqNo].(status := Broken)];
      }
    }

    method Fail()
      modifies this
      ensures View() == FailJob(old(View()))
    {
      if !job.status.Terminal() {
        job := job.(status := Failed);
      }
    }

    method Complete(output: string)
      modifies this
      ensures View() == CompleteJob(old(View()), output)
    {
      if job.status.Merging? {
        job := job.(status := Completed, output := output);
      }
    }

    method Cancel()
      modifies this
      ensures View() == CancelJob(old(View()))
    {
      if !job.status.Terminal() {
        job := job.(status := Cancelled);
      }
    }

    /** `select ... order by seq`: the row numbers in ascending order. */
    function List(): (order: seq<nat>)
      reads this
      ensures Increasing(order) && forall i :: i in order <==> i in rows
    {
      Ordered(rows.Keys)
    }

    /** `count(*) ... where status <> 'done'`. */
    function CountUnfinished(): (count: nat)
      reads this
      ensures count == 0 <==> forall i | i in rows :: rows[i].status.Done?
    {
      var left := UnfinishedRows(rows);
      assert left == {} <==> forall i | i in rows :: i !in left;
      |left|
    }
  }
}
