/**
 * The bounded fan-out of expiry-notify.util.ts: workers pull the next index from one shared
 * cursor, in whatever order the event loop resumes them.
 */
module NotifyPool {
  import opened Options

  const NOTIFY_CONCURRENCY := 10

  // Between two of its steps a worker is about to pull, waiting for a callback, or finished.
  datatype Worker = Pulling | Notifying(index: nat) | Finished

  datatype Pool = Pool(total: nat, cursor: nat, workers: seq<Worker>, called: seq<nat>, reported: seq<nat>)

  function Start(total: nat, concurrency: int): Pool {
    Pool(total, 0, seq(if Min(concurrency, total) > 0 then Min(concurrency, total) else 0, _ => Pulling), [], [])
  }

  // Worker k runs until it next waits: it pulls and calls notify, or its callback settles and a
  // failure is reported.
  function Resume(p: Pool, fails: nat -> bool, k: nat): Pool
    requires k < |p.workers| && !p.workers[k].Finished?
  {
    match p.workers[k]
    case Pulling =>
      if p.cursor >= p.total then p.(cursor := p.cursor + 1, workers := p.workers[k := Finished])
      else p.(cursor := p.cursor + 1, workers := p.workers[k := Notifying(p.cursor)], called := p.called + [p.cursor])
    case Notifying(index) =>
      p.(workers := p.workers[k := Pulling], reported := if fails(index) then p.reported + [index] else p.reported)
  }

  predicate Runnable(p: Pool, k: nat) {
    k < |p.workers| && !p.workers[k].Finished?
  }

  predicate InFlight(p: Pool, i: nat) {
    exists k :: 0 <= k < |p.workers| && p.workers[k] == Notifying(i)
  }

  function FlightCount(workers: seq<Worker>): nat {
    if workers == [] then 0
    else FlightCount(workers[..|workers| - 1]) + if workers[|workers| - 1].Notifying? then 1 else 0
  }

  predicate NoRepeats(s: seq<nat>) {
    forall i, j :: 0 <= i < j < |s| ==> s[i] != s[j]
  }

  // ----- what every schedule keeps

  ghost predicate Sound(p: Pool, fails: nat -> bool, concurrency: int) {
    && |p.workers| == (if Min(concurrency, p.total) > 0 then Min(concurrency, p.total) else 0)
    && |p.called| == Min(p.cursor, p.total) && (forall i :: 0 <= i < |p.called| ==> p.called[i] == i)
    && (forall k, l :: 0 <= k < l < |p.workers| && p.workers[k].Notifying? ==> p.workers[k] != p.workers[l])
    && (forall k :: 0 <= k < |p.workers| && p.workers[k].Notifying? ==>
          p.workers[k].index < |p.called| && p.workers[k].index !in p.reported)
    && (forall k :: 0 <= k < |p.workers| && p.workers[k].Finished? ==> p.cursor >= p.total)
    && NoRepeats(p.reported)
    && (forall i :: i in p.reported ==> i < |p.called| && fails(i))
    && (forall i :: 0 <= i < |p.called| && fails(i) && !InFlight(p, i) ==> i in p.reported)
  }

  lemma StartIsSound(total: nat, fails: nat -> bool, concurrency: int)
    ensures Sound(Start(total, concurrency), fails, concurrency)
  {
  }

  lemma PullKeepsSound(p: Pool, fails: nat -> bool, concurrency: int, k: nat)
    requires Sound(p, fails, concurrency) && Runnable(p, k) && p.workers[k].Pulling?
    ensures Sound(Resume(p, fails, k), fails, concurrency)
  {
    var p' := Resume(p, fails, k);
    forall i: nat | InFlight(p, i)
      ensures InFlight(p', i)
    {
      var j :| 0 <= j < |p.workers| && p.workers[j] == Notifying(i);
      assert p'.workers[j] == Notifying(i);
    }
    if p.cursor < p.total {
      assert p'.workers[k] == Notifying(p.cursor);
      assert p.cursor !in p.reported;
    }
  }

  lemma SettleKeepsSound(p: Pool, fails: nat -> bool, concurrency: int, k: nat)
    requires Sound(p, fails, concurrency) && Runnable(p, k) && p.workers[k].Notifying?
    ensures Sound(Resume(p, fails, k), fails, concurrency)
  {
    var p' := Resume(p, fails, k);
    var done := p.workers[k].index;
    forall i: nat | InFlight(p, i) && i != done
      ensures InFlight(p', i)
    {
      var j :| 0 <= j < |p.workers| && p.workers[j] == Notifying(i);
      assert p'.workers[j] == Notifying(i);
    }
    if fails(done) {
      assert p'.reported[|p.reported|] == done;
      forall i | 0 <= i < |p.called| && fails(i) && !InFlight(p', i)
        ensures i in p'.reported
      {
        if i != done {
          assert i in p.reported;
        }
      }
    }
  }

  lemma ResumeKeepsSound(p: Pool, fails: nat -> bool, concurrency: int, k: nat)
    requires Sound(p, fails, concurrency) && Runnable(p, k)
    ensures Sound(Resume(p, fails, k), fails, concurrency)
  {
    if p.workers[k].Pulling? {
      PullKeepsSound(p, fails, concurrency, k);
    } else {
      SettleKeepsSound(p, fails, concurrency, k);
    }
  }

  lemma {:induction false} FlightsFit(workers: seq<Worker>)
    ensures FlightCount(workers) <= |workers|
  {
    if workers == [] {
    } else {
      FlightsFit(workers[..|workers| - 1]);
    }
  }

  // ----- every schedule

  predicate Schedule(p: Pool, fails: nat -> bool, picks: seq<nat>)
    decreases |picks|
  {
    picks == [] || (Runnable(p, picks[0]) && Schedule(Resume(p, fails, picks[0]), fails, picks[1..]))
  }

  function After(p: Pool, fails: nat -> bool, picks: seq<nat>): Pool
    requires Schedule(p, fails, picks)
    decreases |picks|
  {
    if picks == [] then p else After(Resume(p, fails, picks[0]), fails, picks[1..])
  }

  lemma {:induction false} SoundThroughout(p: Pool, fails: nat -> bool, concurrency: int, picks: seq<nat>)
    requires Sound(p, fails, concurrency) && Schedule(p, fails, picks)
    ensures Sound(After(p, fails, picks), fails, concurrency) && After(p, fails, picks).total == p.total
    decreases |picks|
  {
    if picks == [] {
    } else {
      ResumeKeepsSound(p, fails, concurrency, picks[0]);
      SoundThroughout(Resume(p, fails, picks[0]), fails, concurrency, picks[1..]);
    }
  }

  // At every moment of every schedule: indices are called in order, each at most once, never
  // more than concurrency of them at a time, and only failures are reported, each at most once.
  lemma NeverTooManyAtOnce(total: nat, fails: nat -> bool, concurrency: int, picks: seq<nat>)
    requires Schedule(Start(total, concurrency), fails, picks)
    ensures var p := After(Start(total, concurrency), fails, picks);
            && FlightCount(p.workers) <= (if concurrency > 0 then concurrency else 0)
            && |p.called| <= total && (forall i :: 0 <= i < |p.called| ==> p.called[i] == i)
            && NoRepeats(p.reported) && (forall i :: i in p.reported ==> i < |p.called| && fails(i))
  {
    StartIsSound(total, fails, concurrency);
    SoundThroughout(Start(total, concurrency), fails, concurrency, picks);
    FlightsFit(After(Start(total, concurrency), fails, picks).workers);
  }

  predicate AllFinished(p: Pool) {
    forall k :: 0 <= k < |p.workers| ==> p.workers[k].Finished?
  }

  ghost predicate Handled(p: Pool, fails: nat -> bool) {
    && |p.called| == p.total && (forall i :: 0 <= i < |p.called| ==> p.called[i] == i)
    && NoRepeats(p.reported) && forall i: nat :: i in p.reported <==> i < p.total && fails(i)
  }

  lemma FinishedIsHandled(p: Pool, fails: nat -> bool, concurrency: int)
    requires Sound(p, fails, concurrency) && AllFinished(p) && (concurrency >= 1 || p.total == 0)
    ensures Handled(p, fails)
  {
    if p.total > 0 {
      assert p.workers[0].Finished?;
    }
    forall i: nat | i < p.total && fails(i)
      ensures i in p.reported
    {
      assert !InFlight(p, i);
    }
  }

  // Whenever the fan-out's promise resolves, every index has been notified exactly once and
  // exactly the failures reported, if and only if there was a worker to do it or nothing to do.
  lemma EndsHandledIff(total: nat, fails: nat -> bool, concurrency: int, picks: seq<nat>)
    requires Schedule(Start(total, concurrency), fails, picks) && AllFinished(After(Start(total, concurrency), fails, picks))
    ensures Handled(After(Start(total, concurrency), fails, picks), fails) <==> concurrency >= 1 || total == 0
  {
    StartIsSound(total, fails, concurrency);
    SoundThroughout(Start(total, concurrency), fails, concurrency, picks);
    var p := After(Start(total, concurrency), fails, picks);
    if concurrency >= 1 || total == 0 {
      FinishedIsHandled(p, fails, concurrency);
    } else {
      NoWorkersNoProgress(Start(total, concurrency), fails, picks);
    }
  }

  lemma NoWorkersNoProgress(p: Pool, fails: nat -> bool, picks: seq<nat>)
    requires p.workers == [] && Schedule(p, fails, picks)
    ensures After(p, fails, picks) == p
  {
  }

  // ----- every schedule ends

  function Weight(w: Worker): nat {
    match w { case Pulling => 1 case Notifying(_) => 2 case Finished => 0 }
  }

  function Left(workers: seq<Worker>): nat {
    if workers == [] then 0 else Left(workers[..|workers| - 1]) + Weight(workers[|workers| - 1])
  }

  // Calls still to make weigh two each, a waiting callback two, a pulling worker one.
  function Work(p: Pool): int {
    2 * (p.total - |p.called|) + Left(p.workers)
  }

  lemma {:induction false} LeftUpdate(workers: seq<Worker>, k: nat, w: Worker)
    requires k < |workers|
    ensures Left(workers[k := w]) == Left(workers) - Weight(workers[k]) + Weight(w)
  {
    var last := |workers| - 1;
    if k == last {
      assert workers[k := w][..last] == workers[..last];
    } else {
      assert workers[k := w][..last] == workers[..last][k := w];
      LeftUpdate(workers[..last], k, w);
    }
  }

  lemma ResumeUsesWork(p: Pool, fails: nat -> bool, concurrency: int, k: nat)
    requires Sound(p, fails, concurrency) && Runnable(p, k)
    ensures 0 <= Work(Resume(p, fails, k)) == Work(p) - 1
  {
    ResumeKeepsSound(p, fails, concurrency, k);
    LeftUpdate(p.workers, k, Resume(p, fails, k).workers[k]);
  }

  // No schedule can go on for longer than twice the calls plus the workers.
  lemma {:induction false} SchedulesAreShort(p: Pool, fails: nat -> bool, concurrency: int, picks: seq<nat>)
    requires Sound(p, fails, concurrency) && Schedule(p, fails, picks)
    ensures |picks| <= Work(p)
    decreases |picks|
  {
    if picks == [] {
    } else {
      ResumeUsesWork(p, fails, concurrency, picks[0]);
      ResumeKeepsSound(p, fails, concurrency, picks[0]);
      SchedulesAreShort(Resume(p, fails, picks[0]), fails, concurrency, picks[1..]);
    }
  }

  // The fan-out itself: whichever unfinished worker the event loop picks next.
  method NotifyAllBoundedly(total: nat, fails: nat -> bool, concurrency: int := NOTIFY_CONCURRENCY)
    returns (called: seq<nat>, reported: seq<nat>)
    ensures concurrency >= 1 ==> |called| == total && forall i :: 0 <= i < total ==> called[i] == i
    ensures concurrency >= 1 ==> NoRepeats(reported) && forall i: nat :: i in reported <==> i < total && fails(i)
    ensures concurrency < 1 ==> called == [] && reported == []
  {
    var p := Start(total, concurrency);
    StartIsSound(total, fails, concurrency);
    while exists k: nat :: k < |p.workers| && Runnable(p, k)
      invariant Sound(p, fails, concurrency) && p.total == total
      invariant concurrency < 1 ==> p.called == [] && p.reported == []
      decreases Work(p)
    {
      var k: nat :| k < |p.workers| && Runnable(p, k);
      ResumeUsesWork(p, fails, concurrency, k);
      ResumeKeepsSound(p, fails, concurrency, k);
      p := Resume(p, fails, k);
    }
    forall k | 0 <= k < |p.workers|
      ensures p.workers[k].Finished?
    {
      assert !Runnable(p, k);
    }
    if concurrency >= 1 {
      FinishedIsHandled(p, fails, concurrency);
    }
    return p.called, p.reported;
  }
}
