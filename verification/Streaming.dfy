/** Delivery of one stream: the frame loop over the worker's answer with its tee and its ways to
    stop early, the replay of a cached object, and what each outcome stores and meters. */
module Streaming {
  import opened Basics
  import opened Billing

  /** One worker message; numbers are 32-bit and wrap. */
  datatype Frame = Frame(number: nat, pcm: seq<Byte>, last: bool)

  const Wrap: nat := 0x1_0000_0000

  /** How the worker's answer ends after its frames: cleanly, broken because the client hung up, or
      broken otherwise. */
  datatype Ending = Eof | HungUp | Broken

  datatype Request = Request(chars: nat, rate: int)

  // The client.

  datatype Write = Header(rate: int, ok: bool) | Chunk(pcm: seq<Byte>, ok: bool)

  /** The writes to the client so far; `ok` tells whether it took them. */
  datatype Log = Empty | Then(before: Log, write: Write)

  /** A header was taken. */
  predicate Opened(log: Log) {
    log.Then? && (Opened(log.before) || (log.write.Header? && log.write.ok))
  }

  /** The sink's protocol: no header after one that was taken, and no chunk before it. */
  predicate Proper(log: Log) {
    log.Then? ==> Proper(log.before) && (log.write.Chunk? <==> Opened(log.before))
  }

  /** The bytes the client took. */
  function Delivered(log: Log): seq<Byte> {
    if log.Empty? then []
    else if log.write.Chunk? && log.write.ok then Delivered(log.before) + log.write.pcm
    else Delivered(log.before)
  }

  function Length(log: Log): nat {
    if log.Empty? then 0 else Length(log.before) + 1
  }

  /** The client took exactly the writes it takes. */
  predicate Honest(log: Log, accepts: nat -> bool) {
    log.Then? ==> Honest(log.before, accepts) && log.write.ok == accepts(Length(log.before))
  }

  function HeadersTaken(log: Log): nat {
    if log.Empty? then 0 else HeadersTaken(log.before) + if log.write.Header? && log.write.ok then 1 else 0
  }

  /** The client takes at most one header, and no audio without it. */
  lemma {:induction false} OneHeader(log: Log)
    requires Proper(log)
    ensures HeadersTaken(log) == (if Opened(log) then 1 else 0)
    ensures !Opened(log) ==> Delivered(log) == []
  {
    if log.Then? {
      OneHeader(log.before);
    }
  }

  class Client {
    /** Whether the client takes the n-th write. */
    const accepts: nat -> bool
    var log: Log

    ghost predicate Valid()
      reads this
    {
      Proper(log) && Honest(log, accepts)
    }

    constructor (accepts: nat -> bool)
      ensures Valid() && this.accepts == accepts && log == Empty
    {
      this.accepts, log := accepts, Empty;
    }

    method SendHeader(rate: int) returns (ok: bool)
      requires Valid() && !Opened(log)
      modifies this
      ensures Valid() && log == Then(old(log), Header(rate, ok))
    {
      ok := accepts(Length(log));
      log := Then(log, Header(rate, ok));
    }

    method SendChunk(pcm: seq<Byte>) returns (ok: bool)
      requires Valid() && Opened(log)
      modifies this
      ensures Valid() && log == Then(old(log), Chunk(pcm, ok))
    {
      ok := accepts(Length(log));
      log := Then(log, Chunk(pcm, ok));
    }
  }

  // The worker's frames.

  /** Frame `i` does not carry the number after its predecessor's. */
  predicate Gap(frames: seq<Frame>, i: nat)
    requires i < |frames|
  {
    i > 0 && frames[i].number != (frames[i - 1].number + 1) % Wrap
  }

  /** The first `n` frames are numbered without a gap and none before the n-th ends the stream. */
  ghost predicate Smooth(frames: seq<Frame>, n: nat) {
    && n <= |frames|
    && (forall i: nat | i < n :: !Gap(frames, i))
    && (forall i: nat | i < n - 1 :: !frames[i].last)
  }

  /** Numbers count up from the first one, modulo 2^32. */
  lemma {:induction false} Consecutive(frames: seq<Frame>, n: nat, i: nat)
    requires Smooth(frames, n) && i < n && frames[0].number < Wrap
    ensures frames[i].number == (frames[0].number + i) % Wrap
  {
    if i > 0 {
      Consecutive(frames, n, i - 1);
      assert !Gap(frames, i);
    }
  }

  /** All the audio of the first `n` frames. */
  function Audio(frames: seq<Frame>, n: nat): seq<Byte>
    requires n <= |frames|
  {
    if n == 0 then [] else Audio(frames, n - 1) + frames[n - 1].pcm
  }

  /** The header goes with the first audio. */
  function Ready(log: Log, rate: int): Log {
    if Opened(log) then log else Then(log, Header(rate, true))
  }

  /** The log after the first `n` frames, all taken; frames without audio are passed over. */
  function Sent(log: Log, rate: int, frames: seq<Frame>, n: nat): Log
    requires n <= |frames|
  {
    if n == 0 then log
    else
      var before := Sent(log, rate, frames, n - 1);
      if frames[n - 1].pcm == [] then before else Then(Ready(before, rate), Chunk(frames[n - 1].pcm, true))
  }

  lemma {:induction false} SentDelivers(log: Log, rate: int, frames: seq<Frame>, n: nat)
    requires n <= |frames|
    ensures Delivered(Sent(log, rate, frames, n)) == Delivered(log) + Audio(frames, n)
  {
    if n > 0 {
      SentDelivers(log, rate, frames, n - 1);
    }
  }

  // Outcomes.

  /** `NotOpened`: no slot, or the worker refused before its first frame. */
  datatype Outcome = NotOpened | Completed | Cancelled | HeaderFailed | SequenceBroken | WorkerFailed

  /** Why and where the frame loop stopped, given that everything before was passed on. */
  ghost predicate Stopped(frames: seq<Frame>, n: nat, ending: Ending, outcome: Outcome)
    requires n <= |frames|
  {
    && (outcome.Completed? || n == 0 || !frames[n - 1].last)
    && (match outcome
        case NotOpened => frames == []
        case Completed => (n > 0 && frames[n - 1].last) || (n == |frames| && ending == Eof)
        case Cancelled =>
          (n == |frames| && ending == HungUp) || (n < |frames| && !Gap(frames, n) && frames[n].pcm != [])
        case HeaderFailed => n < |frames| && !Gap(frames, n) && frames[n].pcm != []
        case SequenceBroken => n < |frames| && Gap(frames, n)
        case WorkerFailed => n == |frames| && ending == Broken)
  }

  /** The log is what `n` frames call for and, if a refused write stopped the loop, that write. */
  ghost predicate Logged(log: Log, log': Log, rate: int, frames: seq<Frame>, n: nat, outcome: Outcome)
    requires n <= |frames|
  {
    var sent := Sent(log, rate, frames, n);
    if outcome.HeaderFailed? then !Opened(sent) && log' == Then(sent, Header(rate, false))
    else if outcome.Cancelled? && n < |frames| then log' == Then(Ready(sent, rate), Chunk(frames[n].pcm, false))
    else log' == sent
  }

  /** However the loop ended, the client has the audio of the frames that were passed on. */
  lemma DeliveredAll(log: Log, log': Log, rate: int, frames: seq<Frame>, n: nat, outcome: Outcome)
    requires n <= |frames| && Logged(log, log', rate, frames, n, outcome)
    ensures Delivered(log') == Delivered(log) + Audio(frames, n)
  {
    SentDelivers(log, rate, frames, n);
  }

  datatype Status = Ok | ClientCancelled | Error

  datatype Usage = Usage(chars: nat, status: Status)

  /** What an outcome is billed, for so many bytes delivered. */
  function Bill(req: Request, bytes: nat, outcome: Outcome): seq<Usage> {
    match outcome
    case NotOpened => []
    case Completed => [Usage(req.chars, Ok)]
    case Cancelled => [Usage(DeliveredChars(bytes, req.rate, req.chars), ClientCancelled)]
    case HeaderFailed => []
    case SequenceBroken => [Usage(0, Error)]
    case WorkerFailed => [Usage(0, Error)]
  }

  /** Characters that count against the quota. */
  function Counted(usage: seq<Usage>): nat {
    if usage == [] then 0
    else Counted(usage[..|usage| - 1]) + if usage[|usage| - 1].status == Error then 0 else usage[|usage| - 1].chars
  }

  class Delivery {
    const client: Client
    var stored: Option<seq<Byte>>
    var usage: seq<Usage>
    /** The quota counter of the tenant's month. */
    var counter: nat

    constructor (client: Client)
      ensures this.client == client && stored == None && usage == [] && counter == 0
    {
      this.client, stored, usage, counter := client, None, [], 0;
    }

    /** Quota first, and only for delivered audio; then the usage row. */
    method Meter(chars: nat, status: Status)
      modifies this`usage, this`counter
      ensures usage == old(usage) + [Usage(chars, status)]
      ensures counter == old(counter) + if status == Error then 0 else chars
      ensures counter - Counted(usage) == old(counter) - Counted(old(usage))
    {
      if status == Ok || status == ClientCancelled {
        if chars > 0 {
          counter := counter + chars;
        }
      }
      usage := usage + [Usage(chars, status)];
      assert usage[..|usage| - 1] == old(usage);
    }

    /** One frame to the client: the header first if it is due, then the audio, if any. */
    method Forward(rate: int, pcm: seq<Byte>, headerWritten: bool) returns (stop: Option<Outcome>)
      requires client.Valid() && headerWritten == Opened(client.log)
      modifies client
      ensures client.Valid()
      ensures stop in {None, Some(HeaderFailed), Some(Cancelled)} && (stop.Some? ==> pcm != [])
      ensures client.log ==
              if pcm == [] then old(client.log)
              else if stop == Some(HeaderFailed) then Then(old(client.log), Header(rate, false))
              else Then(Ready(old(client.log), rate), Chunk(pcm, stop == None))
      ensures stop == Some(HeaderFailed) ==> !headerWritten
    {
      if |pcm| > 0 {
        if !headerWritten {
          var ok := client.SendHeader(rate);
          if !ok {
            return Some(HeaderFailed);
          }
        }
        var ok := client.SendChunk(pcm);
        if !ok {
          return Some(Cancelled);
        }
      }
      return None;
    }

    /** The frame loop; the first frame is there, or the stream would not have been opened. `n` frames
        were passed on in full, and `teed` is their audio. */
    method Pump(rate: int, frames: seq<Frame>, ending: Ending) returns (outcome: Outcome, n: nat, teed: seq<Byte>)
      requires client.Valid() && !Opened(client.log) && frames != []
      modifies client
      ensures outcome != NotOpened
      ensures Smooth(frames, n) && client.Valid() && teed == Audio(frames, n)
      ensures Logged(old(client.log), client.log, rate, frames, n, outcome)
      ensures Stopped(frames, n, ending, outcome)
    {
      var headerWritten, seen := false, false;
      var lastNumber: nat := 0;
      teed, n := [], 0;
      while n < |frames|
        invariant Smooth(frames, n) && (n > 0 ==> !frames[n - 1].last)
        invariant seen == (n > 0) && (seen ==> lastNumber == frames[n - 1].number)
        invariant teed == Audio(frames, n)
        invariant client.Valid() && headerWritten == Opened(client.log)
        invariant client.log == Sent(old(client.log), rate, frames, n)
      {
        var frame := frames[n];
        if seen && frame.number != (lastNumber + 1) % Wrap {
          outcome := SequenceBroken;
          return;
        }
        lastNumber, seen := frame.number, true;
        var stop := Forward(rate, frame.pcm, headerWritten);
        if stop.Some? {
          outcome := stop.value;
          return;
        }
        headerWritten := headerWritten || |frame.pcm| > 0;
        teed := teed + frame.pcm;
        n := n + 1;
        if frame.last {
          outcome := Completed;
          return;
        }
      }
      outcome := match ending case Eof => Completed case HungUp => Cancelled case Broken => WorkerFailed;
    }

    /** Synthesis with its tee. What a completed stream caches is exactly what the client got; every
        other outcome caches nothing. A client that left pays for the audio it got, a failed stream
        costs nothing. */
    method StreamFromWorker(req: Request, frames: seq<Frame>, ending: Ending) returns (outcome: Outcome, n: nat)
      requires client.Valid() && !Opened(client.log) && Delivered(client.log) == [] && stored == None
      modifies this, client
      ensures Smooth(frames, n) && client.Valid() && Stopped(frames, n, ending, outcome)
      ensures outcome == NotOpened <==> frames == []
      ensures Logged(old(client.log), client.log, req.rate, frames, n, outcome)
      ensures Delivered(client.log) == Audio(frames, n)
      ensures stored == if outcome.Completed? then Some(Delivered(client.log)) else None
      ensures usage == old(usage) + Bill(req, |Delivered(client.log)|, outcome)
      ensures old(counter) <= counter <= old(counter) + req.chars
      ensures outcome in {NotOpened, HeaderFailed, SequenceBroken, WorkerFailed} ==> counter == old(counter)
      ensures counter - Counted(usage) == old(counter) - Counted(old(usage))
    {
      if frames == [] {
        outcome, n := NotOpened, 0;
        return;
      }
      var teed;
      outcome, n, teed := Pump(req.rate, frames, ending);
      DeliveredAll(old(client.log), client.log, req.rate, frames, n, outcome);
      match outcome
      case Completed =>
        stored := Some(teed);
        Meter(req.chars, Ok);
      case Cancelled => Meter(DeliveredChars(|teed|, req.rate, req.chars), ClientCancelled);
      case SequenceBroken => Meter(0, Error);
      case WorkerFailed => Meter(0, Error);
      case _ =>
    }

    /** Replays a cached object read in pieces. A client that refuses the header is handed on to the
        worker path; an object that breaks off while it is read counts as served. */
    method StreamFromCache(req: Request, hit: Option<seq<seq<Byte>>>) returns (served: bool, cancelled: bool, n: nat)
      requires client.Valid() && client.log == Empty
      modifies client
      ensures client.Valid()
      ensures !served ==> client.log in {Empty, Then(Empty, Header(req.rate, false))}
      ensures served ==> hit.Some? && Opened(client.log) && n <= |hit.value|
      ensures served ==> Delivered(client.log) == Joined(hit.value, n)
      ensures served ==> (cancelled <==> n < |hit.value|)
    {
      served, cancelled, n := false, false, 0;
      if hit == None {
        return;
      }
      var ok := client.SendHeader(req.rate);
      if !ok {
        return;
      }
      served := true;
      var pieces := hit.value;
      while n < |pieces|
        invariant n <= |pieces| && client.Valid() && Opened(client.log)
        invariant Delivered(client.log) == Joined(pieces, n)
      {
        if |pieces[n]| > 0 {
          ok := client.SendChunk(pieces[n]);
          if !ok {
            cancelled := true;
            return;
          }
        }
        n := n + 1;
      }
    }

    /** A whole stream request, from the cache or from the worker. Whatever the client refuses and
        whatever the worker sends, the sink's protocol holds, only a completed synthesis is cached
        and it is cached as delivered, and at most one usage row is written, for no more than the
        text, moving the quota counter by exactly its chargeable characters. */
    method Stream(req: Request, hit: Option<seq<seq<Byte>>>, frames: seq<Frame>, ending: Ending)
      returns (served: bool, outcome: Outcome, n: nat)
      requires client.Valid() && client.log == Empty && stored == None
      modifies this, client
      ensures client.Valid()
      ensures served ==> hit.Some? && outcome in {Completed, Cancelled} && n <= |hit.value|
      ensures served ==> Delivered(client.log) == Joined(hit.value, n) && (outcome == Completed <==> n == |hit.value|)
      ensures served ==> usage == old(usage) + [Usage(req.chars, if outcome == Completed then Ok else ClientCancelled)]
      ensures !served ==> (outcome == NotOpened <==> frames == [])
      ensures !served ==> Smooth(frames, n) && Stopped(frames, n, ending, outcome)
      ensures !served ==> Delivered(client.log) == Audio(frames, n)
      ensures !served ==> usage == old(usage) + Bill(req, |Delivered(client.log)|, outcome)
      ensures old(counter) <= counter <= old(counter) + req.chars
      ensures outcome in {NotOpened, HeaderFailed, SequenceBroken, WorkerFailed} ==> counter == old(counter)
      ensures stored == if !served && outcome == Completed then Some(Delivered(client.log)) else None
      ensures counter - Counted(usage) == old(counter) - Counted(old(usage))
    {
      var cancelled;
      served, cancelled, n := StreamFromCache(req, hit);
      if served {
        outcome := if cancelled then Cancelled else Completed;
        Meter(req.chars, if cancelled then ClientCancelled else Ok);
      } else {
        outcome, n := StreamFromWorker(req, frames, ending);
      }
    }
  }

  /** The first `n` pieces of a cached object, put together. */
  function Joined(pieces: seq<seq<Byte>>, n: nat): seq<Byte>
    requires n <= |pieces|
  {
    if n == 0 then [] else Joined(pieces, n - 1) + pieces[n - 1]
  }

  /** A client that leaves later never pays less, and never more than for the whole stream. */
  lemma LeavingLaterCostsMore(req: Request, bytes: nat, more: nat)
    requires bytes <= more
    ensures Counted(Bill(req, bytes, Cancelled)) <= Counted(Bill(req, more, Cancelled))
    ensures Counted(Bill(req, more, Cancelled)) <= Counted(Bill(req, more, Completed))
  {
    BillMonotone(bytes, more, req.rate, req.chars);
    assert Bill(req, bytes, Cancelled)[..0] == [] && Bill(req, more, Cancelled)[..0] == [];
    assert Bill(req, more, Completed)[..0] == [];
  }
}
