/** One upload: the copy loop, the job's fields and the events it reports. */
module UploadCopy {

  datatype Status = Uploading | Done | Error

  datatype Event = Event(job: string, progress: int, size: int, status: Status)

  // ----- what the loop is given -----

  datatype ReadErr = NoErr | Eof | ReadFailed

  /** One round of the loop: what `Read` returns, how much of it `Write` takes and whether it
      fails, and whether the last report is long enough ago. */
  datatype Round = Round(data: string, err: ReadErr, written: nat, writeFails: bool, late: bool)

  /** A read fills at most the buffer, and a short write is an error. */
  predicate Contract(r: Round) {
    && |r.data| <= 32768 && r.written <= |r.data|
    && (r.written < |r.data| ==> r.writeFails)
    && (r.data == "" ==> !r.writeFails)
  }

  function Concat(rounds: seq<Round>): string {
    if rounds == [] then "" else Concat(rounds[..|rounds| - 1]) + rounds[|rounds| - 1].data
  }

  /** The reader yields a stream: piece by piece, all of it if it ends with EOF. */
  ghost predicate Yields(stream: string, rounds: seq<Round>) {
    && rounds != [] && rounds[|rounds| - 1].err != NoErr
    && (forall i :: 0 <= i < |rounds| - 1 ==> rounds[i].err == NoErr)
    && (forall i :: 0 <= i < |rounds| ==> Contract(rounds[i]))
    && Concat(rounds) <= stream
    && (rounds[|rounds| - 1].err == Eof ==> Concat(rounds) == stream)
  }

  lemma ConcatMore(rounds: seq<Round>, i: nat)
    requires i < |rounds|
    ensures Concat(rounds[..i + 1]) == Concat(rounds[..i]) + rounds[i].data
  {
    assert rounds[..i + 1][..i] == rounds[..i];
  }

  lemma {:induction false} ConcatPrefix(rounds: seq<Round>, i: nat)
    requires i <= |rounds|
    ensures Concat(rounds[..i]) <= Concat(rounds)
    decreases |rounds| - i
  {
    if i < |rounds| {
      ConcatPrefix(rounds, i + 1);
      ConcatMore(rounds, i);
    } else {
      assert rounds[..i] == rounds;
    }
  }

  // ----- what the loop reports -----

  /** Later events follow uploading events only, with no less progress. */
  predicate MayPrecede(a: Event, b: Event) { a.status == Uploading && a.progress <= b.progress }

  ghost predicate Ordered(events: seq<Event>) {
    forall i, j :: 0 <= i < j < |events| ==> MayPrecede(events[i], events[j])
  }

  ghost predicate ProgressReports(id: string, size: int, events: seq<Event>, written: int) {
    && events != [] && events[0] == Event(id, 0, size, Uploading)
    && (forall i :: 0 <= i < |events| ==> events[i] == Event(id, events[i].progress, size, Uploading))
    && (forall i :: 0 <= i < |events| ==> events[i].progress <= written)
    && Ordered(events)
  }

  /** Progress reports, starting at zero, then one last event saying how it ended. */
  ghost predicate Reports(id: string, size: int, events: seq<Event>, written: int, last: Event) {
    && |events| >= 2 && events[|events| - 1] == last
    && ProgressReports(id, size, events[..|events| - 1], written)
  }

  lemma ReportMore(id: string, size: int, events: seq<Event>, before: int, written: int)
    requires ProgressReports(id, size, events, before) && before <= written
    ensures ProgressReports(id, size, events, written)
    ensures ProgressReports(id, size, events + [Event(id, written, size, Uploading)], written)
  {
  }

  lemma ReportLast(id: string, size: int, events: seq<Event>, written: int, last: Event)
    requires ProgressReports(id, size, events, written)
    ensures Reports(id, size, events + [last], written, last)
  {
    assert (events + [last])[..|events|] == events;
  }

  /** What an upload reports is ordered exactly when its last progress report does not exceed the
      progress of its last event. */
  lemma ReportsOrdered(id: string, size: int, events: seq<Event>, written: int, last: Event)
    requires Reports(id, size, events, written, last)
    ensures Ordered(events) <==> events[|events| - 2].progress <= last.progress
    ensures written <= last.progress ==> Ordered(events)
  {
    var n := |events| - 1;
    var init := events[..n];
    assert init[n - 1] == events[n - 1];
    if init[n - 1].progress <= last.progress {
      forall i, j | 0 <= i < j < |events|
        ensures MayPrecede(events[i], events[j])
      {
        assert events[i] == init[i];
        if j < n {
          assert events[j] == init[j];
        } else if i < n - 1 {
          assert init[i].progress <= init[n - 1].progress;
        }
      }
    }
  }

  // ----- which rounds report, and what -----

  /** The rounds that take place: up to the first failing write, or all. */
  function Taken(rounds: seq<Round>): (n: nat)
    ensures n <= |rounds| && (rounds != [] ==> n > 0)
  {
    if rounds == [] then 0
    else if rounds[0].writeFails then 1
    else 1 + Taken(rounds[1..])
  }

  lemma {:induction false} TakenIs(rounds: seq<Round>, n: nat)
    requires n <= |rounds| && CleanUpTo(rounds, n)
    ensures n == |rounds| ==> Taken(rounds) == n
    ensures n < |rounds| && rounds[n].writeFails ==> Taken(rounds) == n + 1
  {
    if n > 0 {
      assert forall j :: 0 <= j < |rounds| - 1 ==> rounds[1..][j] == rounds[j + 1];
      TakenIs(rounds[1..], n - 1);
    }
  }

  /** The round reads something when a report is due. */
  predicate IsDue(r: Round) { r.late && r.data != "" }

  /** The rounds among the first `n` in which a report is due, in order. */
  function Due(rounds: seq<Round>, n: nat): seq<nat>
    requires n <= |rounds|
  {
    if n == 0 then [] else Due(rounds, n - 1) + if IsDue(rounds[n - 1]) then [n - 1] else []
  }

  lemma {:induction false} DueIs(rounds: seq<Round>, n: nat)
    requires n <= |rounds|
    ensures forall i :: i in Due(rounds, n) <==> 0 <= i < n && IsDue(rounds[i])
    ensures forall k, l :: 0 <= k < l < |Due(rounds, n)| ==> Due(rounds, n)[k] < Due(rounds, n)[l]
  {
    if n > 0 {
      DueIs(rounds, n - 1);
      var before, due := Due(rounds, n - 1), Due(rounds, n);
      forall k, l | 0 <= k < l < |due|
        ensures due[k] < due[l]
      {
        assert due[k] == before[k] && before[k] in before;
        assert l < |before| ==> due[l] == before[l];
      }
    }
  }

  /** The report of round `i`: it carries the bytes written by the end of the round. */
  function ReportAt(id: string, size: int, rounds: seq<Round>, i: nat): Event
    requires i < |rounds|
  {
    Event(id, |Concat(rounds[..i])| + rounds[i].written, size, Uploading)
  }

  /** One report for each round of the first `n` in which one is due, and nothing else. */
  ghost predicate ReportsEach(id: string, size: int, rounds: seq<Round>, n: nat, reports: seq<Event>)
    requires n <= |rounds|
  {
    var due := Due(rounds, n);
    && |reports| == |due|
    && forall k :: 0 <= k < |due| ==> due[k] < |rounds| && reports[k] == ReportAt(id, size, rounds, due[k])
  }

  lemma EachMore(id: string, size: int, rounds: seq<Round>, n: nat, reports: seq<Event>)
    requires n < |rounds| && ReportsEach(id, size, rounds, n, reports)
    ensures ReportsEach(id, size, rounds, n + 1,
                        reports + if IsDue(rounds[n]) then [ReportAt(id, size, rounds, n)] else [])
  {
  }

  class UploadJob {
    const id: string
    const size: int
    var progress: int
    var status: Status

    constructor (jobId: string, declared: int)
      ensures id == jobId && size == declared && progress == 0
    {
      id, size, progress, status := jobId, declared, 0, Uploading;
    }
  }

  /** Everything before round `i` went well. */
  ghost predicate CleanUpTo(rounds: seq<Round>, i: nat)
    requires i <= |rounds|
  {
    forall j :: 0 <= j < i ==> !rounds[j].writeFails
  }

  /** What the loop has reached before round `i`. */
  ghost predicate Copied(rounds: seq<Round>, i: nat, remote: string)
    requires i <= |rounds|
  {
    remote == Concat(rounds[..i]) && CleanUpTo(rounds, i)
  }

  /** What is in the remote file after the first `n` rounds, of which only the last may have written
      less than it read. */
  ghost predicate Landed(rounds: seq<Round>, n: nat, remote: string)
    requires n <= |rounds|
  {
    && n > 0 && rounds[n - 1].written <= |rounds[n - 1].data|
    && remote == Concat(rounds[..n - 1]) + rounds[n - 1].data[..rounds[n - 1].written]
  }

  /** What one round does to the remote file. */
  lemma RoundCopies(stream: string, rounds: seq<Round>, i: nat, remote: string)
    requires Yields(stream, rounds) && i < |rounds| && Copied(rounds, i, remote)
    ensures var r := rounds[i];
            && Contract(r)
            && remote + r.data[..r.written] <= stream
            && (!r.writeFails ==> Copied(rounds, i + 1, remote + r.data[..r.written]))
            && (r.err != NoErr ==> i + 1 == |rounds|)
            && (r.err == NoErr ==> i + 1 < |rounds|)
  {
    ConcatMore(rounds, i);
    ConcatPrefix(rounds, i + 1);
    var r := rounds[i];
    assert r.data[..r.written] <= r.data;
    assert !r.writeFails ==> r.data[..r.written] == r.data;
  }

  lemma AllCopied(stream: string, rounds: seq<Round>, remote: string)
    requires Yields(stream, rounds) && Copied(rounds, |rounds|, remote)
    ensures rounds[|rounds| - 1].err == Eof ==> remote == stream
  {
    assert rounds[..|rounds|] == rounds;
  }

  /** The upload succeeds exactly when creating the file, every write and the reading succeed; the
      remote file then holds the whole stream. Otherwise it holds the part of the stream that was
      written, which `progress` counts. */
  method Upload(job: UploadJob, createFails: bool, rounds: seq<Round>, ghost stream: string)
    returns (ok: bool, remote: string, events: seq<Event>)
    requires Yields(stream, rounds)
    modifies job
    ensures ok <==> !createFails && rounds[|rounds| - 1].err == Eof && CleanUpTo(rounds, |rounds|)
    ensures ok ==> remote == stream && job.progress == job.size && job.status == Done
    ensures !ok ==> remote <= stream && job.status == Error
    ensures !ok ==> job.progress == |remote| || (remote == "" && job.progress == old(job.progress))
    ensures |events| >= 2
    ensures createFails ==> remote == "" && |events| == 2
    ensures !createFails ==>
              && Landed(rounds, Taken(rounds), remote)
              && ReportsEach(job.id, job.size, rounds, Taken(rounds), events[1..|events| - 1])
    ensures Reports(job.id, job.size, events, |remote|,
                    if ok then Event(job.id, job.size, job.size, Done) else Event(job.id, |remote|, job.size, Error))
  {
    job.status := Uploading;
    events := [Event(job.id, 0, job.size, Uploading)];
    remote := "";
    if createFails {
      job.status := Error;
      ReportLast(job.id, job.size, events, 0, Event(job.id, 0, job.size, Error));
      events := events + [Event(job.id, 0, job.size, Error)];
      return false, remote, events;
    }
    remote, events, ok := CopyLoop(job, rounds, stream, events);
    ghost var reported := events;
    if ok {
      job.status := Done;
      job.progress := job.size;
      events := events + [Event(job.id, job.size, job.size, Done)];
    } else {
      job.status := Error;
      events := events + [Event(job.id, |remote|, job.size, Error)];
    }
    ReportLast(job.id, job.size, reported, |remote|, events[|reported|]);
  }

  /** What a round leaves behind: the remote file, and the reports made so far. */
  ghost predicate After(job: UploadJob, rounds: seq<Round>, n: nat, reported: seq<Event>, remote: string,
                        events: seq<Event>)
    requires n <= |rounds|
  {
    && ProgressReports(job.id, job.size, events, |remote|)
    && reported <= events && ReportsEach(job.id, job.size, rounds, n, events[|reported|..])
  }

  /** The next round: what it wrote is added, and a report if one is due. */
  lemma RoundReports(job: UploadJob, rounds: seq<Round>, i: nat, reported: seq<Event>, remote: string,
                     events: seq<Event>, remote': string, more: seq<Event>)
    requires i < |rounds| && remote == Concat(rounds[..i]) && After(job, rounds, i, reported, remote, events)
    requires |remote'| == |remote| + rounds[i].written
    requires more == if IsDue(rounds[i]) then [Event(job.id, |remote'|, job.size, Uploading)] else []
    ensures After(job, rounds, i + 1, reported, remote', events + more)
  {
    ReportMore(job.id, job.size, events, |remote|, |remote'|);
    EachMore(job.id, job.size, rounds, i, events[|reported|..]);
    assert events + [] == events;
    assert (events + more)[|reported|..] == events[|reported|..] + more;
  }

  /** The loop inside: it ends on the first failing write or on the end of the reading. */
  method CopyLoop(job: UploadJob, rounds: seq<Round>, ghost stream: string, reported: seq<Event>)
    returns (remote: string, events: seq<Event>, ok: bool)
    requires Yields(stream, rounds)
    requires ProgressReports(job.id, job.size, reported, 0)
    modifies job`progress
    ensures ok <==> rounds[|rounds| - 1].err == Eof && CleanUpTo(rounds, |rounds|)
    ensures remote <= stream && (ok ==> remote == stream)
    ensures job.progress == |remote| || (remote == "" && job.progress == old(job.progress))
    ensures Landed(rounds, Taken(rounds), remote)
    ensures After(job, rounds, Taken(rounds), reported, remote, events)
  {
    remote, events := "", reported;
    var i := 0;
    while true
      invariant 0 <= i < |rounds| && Copied(rounds, i, remote)
      invariant job.progress == |remote| || (remote == "" && job.progress == old(job.progress))
      invariant After(job, rounds, i, reported, remote, events)
      decreases |rounds| - i
    {
      var r := rounds[i];
      RoundCopies(stream, rounds, i, remote);
      ghost var remote0, events0 := remote, events;
      if |r.data| > 0 {
        remote := remote + r.data[..r.written];
        job.progress := |remote|;
        if r.late {
          events := events + [Event(job.id, |remote|, job.size, Uploading)];
        }
        RoundReports(job, rounds, i, reported, remote0, events0, remote, events[|events0|..]);
        if r.writeFails {
          TakenIs(rounds, i);
          return remote, events, false;
        }
      } else {
        RoundReports(job, rounds, i, reported, remote0, events0, remote, []);
      }
      if r.err == Eof {
        break;
      }
      if r.err != NoErr {
        TakenIs(rounds, i + 1);
        return remote, events, false;
      }
      i := i + 1;
    }
    TakenIs(rounds, |rounds|);
    AllCopied(stream, rounds, remote);
    return remote, events, true;
  }
}
