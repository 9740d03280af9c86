/**
 * Ownership of the strategy loop of main.py.  `start_bot` sets the
 * `running` flag and spawns a thread running `strategy_loop`; `stop_bot`
 * clears the flag; a loop thread checks the flag only when it wakes
 * from its ten-second sleep, and leaves when the flag is clear.
 *
 * A stop followed by a start before the old thread wakes leaves the old
 * thread to find the flag set again, so two loops run side by side.  The
 * module models the code as written (`StepAsWritten`), exhibits that trace,
 * and models a corrected loop in which each thread keeps running only while
 * it belongs to the latest start (`Step`).
 */
module LoopOwnership {

  /** A loop thread: the start that spawned it, and whether it has not yet left. */
  datatype Worker = Worker(gen: nat, alive: bool)

  /** The flag, the number of starts so far, and every thread ever spawned. */
  datatype Threads = Threads(running: bool, gen: nat, workers: seq<Worker>)

  datatype Event =
    | Start
    | Stop
    /** Thread i wakes from its sleep and checks whether to go on. */
    | Wake(i: nat)

  const Init: Threads := Threads(false, 0, [])

  /** `start_bot`: a start while running does nothing; otherwise set the flag and spawn a thread. */
  function StartBot(s: Threads): Threads {
    if s.running then s
    else Threads(true, s.gen + 1, s.workers + [Worker(s.gen + 1, true)])
  }

  /** `stop_bot` clears the flag. */
  function StopBot(s: Threads): Threads {
    s.(running := false)
  }

  function Leave(s: Threads, i: nat): Threads
    requires i < |s.workers|
  {
    s.(workers := s.workers[i := s.workers[i].(alive := false)])
  }

  // ---------------------------------------------------------------------
  // As written
  // ---------------------------------------------------------------------

  /** `while running:` — a waking thread leaves exactly when the flag is clear. */
  function StepAsWritten(s: Threads, e: Event): Threads {
    match e
    case Start => StartBot(s)
    case Stop => StopBot(s)
    case Wake(i) =>
      if i < |s.workers| && s.workers[i].alive && !s.running then Leave(s, i) else s
  }

  function RunAsWritten(s: Threads, es: seq<Event>): Threads
    decreases |es|
  {
    if es == [] then s else RunAsWritten(StepAsWritten(s, es[0]), es[1..])
  }

  /** Thread i is alive and, when it wakes, goes on with another iteration of the loop as written. */
  predicate ActiveAsWritten(s: Threads, i: nat) {
    i < |s.workers| && s.workers[i].alive && StepAsWritten(s, Wake(i)).workers[i].alive
  }

  /**
   * Start, stop, start: both threads are still alive with the flag set, so
   * both run iterations, and neither leaves when it wakes.
   */
  lemma TwoLoopsAfterRestart()
    ensures var s := RunAsWritten(Init, [Start, Stop, Start]);
      && ActiveAsWritten(s, 0) && ActiveAsWritten(s, 1)
      && StepAsWritten(s, Wake(0)) == s && StepAsWritten(s, Wake(1)) == s
  {
    var s1 := StepAsWritten(Init, Start);
    assert s1 == Threads(true, 1, [Worker(1, true)]);
    var s2 := StepAsWritten(s1, Stop);
    var s3 := StepAsWritten(s2, Start);
    assert s3 == Threads(true, 2, [Worker(1, true), Worker(2, true)]);
    assert [Start, Stop, Start][1..] == [Stop, Start];
    assert [Stop, Start][1..] == [Start];
    assert RunAsWritten(Init, [Start, Stop, Start]) == s3;
  }

  // ---------------------------------------------------------------------
  // Corrected
  // ---------------------------------------------------------------------

  /** A waking thread leaves when the flag is clear or a later start has spawned its successor. */
  function Step(s: Threads, e: Event): Threads {
    match e
    case Start => StartBot(s)
    case Stop => StopBot(s)
    case Wake(i) =>
      if i < |s.workers| && s.workers[i].alive && (!s.running || s.workers[i].gen != s.gen)
      then Leave(s, i) else s
  }

  function Run(s: Threads, es: seq<Event>): Threads
    decreases |es|
  {
    if es == [] then s else Run(Step(s, es[0]), es[1..])
  }

  /** Thread i is alive and, when it wakes, goes on with another iteration of the corrected loop. */
  predicate Active(s: Threads, i: nat) {
    i < |s.workers| && s.workers[i].alive && Step(s, Wake(i)).workers[i].alive
  }

  /** Thread i was spawned by start i + 1, and the last start spawned the last thread. */
  predicate Numbered(s: Threads) {
    s.gen == |s.workers| && forall i :: 0 <= i < |s.workers| ==> s.workers[i].gen == i + 1
  }

  lemma StepNumbered(s: Threads, e: Event)
    requires Numbered(s)
    ensures Numbered(Step(s, e))
  {
  }

  /** Under the corrected loop only the thread of the latest start, while running, goes on. */
  lemma ActiveIsLatest(s: Threads, i: nat)
    requires Numbered(s) && Active(s, i)
    ensures s.running && i == |s.workers| - 1
  {
  }

  /** With the corrected loop, no run of starts, stops and wake-ups ever has two active loops. */
  lemma {:induction false} AtMostOneActiveLoop(s: Threads, es: seq<Event>)
    requires Numbered(s)
    ensures Numbered(Run(s, es))
    ensures forall i: nat, j: nat :: Active(Run(s, es), i) && Active(Run(s, es), j) ==> i == j
    decreases |es|
  {
    if es != [] {
      StepNumbered(s, es[0]);
      AtMostOneActiveLoop(Step(s, es[0]), es[1..]);
    } else {
      forall i: nat, j: nat | Active(s, i) && Active(s, j) ensures i == j {
        ActiveIsLatest(s, i);
        ActiveIsLatest(s, j);
      }
    }
  }

  /**
   * The corrected loop still behaves as the original where the original is
   * right: a running bot's latest thread goes on, and after a stop a
   * waking thread leaves; a thread superseded by a restart leaves too.
   */
  lemma WakeFacts(s: Threads, i: nat)
    requires Numbered(s) && i < |s.workers| && s.workers[i].alive
    ensures Active(s, i) ==> Step(s, Wake(i)) == s
    ensures !s.running ==> !Step(s, Wake(i)).workers[i].alive
    ensures i + 1 < |s.workers| ==> !Step(s, Wake(i)).workers[i].alive
  {
  }
}
