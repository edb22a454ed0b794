/** Shutdown signalling of the legacy Python monitor (`apr/monitor/signals.py`):
    the urgency asked for on the command line, the signals sent to a running
    monitor for it, and the two stop flags the monitor's handler sets. */
module AprSignals {
  /** Linux signal numbers. */
  const SIGKILL: int := 9
  const SIGUSR1: int := 10
  const SIGUSR2: int := 12

  /** `read_signal`: 3 to halt, 2 to shut down, 1 to stop, 0 to continue,
      from the three command-line options. */
  function ReadSignal(halt: bool, shutdown: bool, stop: bool): (level: nat)
    ensures level <= 3
  {
    if halt then 3
    else if shutdown then 2
    else if stop then 1
    else 0
  }

  /** The urgency of one option when it is set. */
  function Urgency(given: bool, level: nat): nat
  {
    if given then level else 0
  }

  /** The most urgent option given wins, and no option means continue. */
  lemma ReadSignalIsMostUrgent(halt: bool, shutdown: bool, stop: bool)
    ensures var level := ReadSignal(halt, shutdown, stop);
      && level >= Urgency(halt, 3) && level >= Urgency(shutdown, 2) && level >= Urgency(stop, 1)
      && (level == Urgency(halt, 3) || level == Urgency(shutdown, 2) || level == Urgency(stop, 1))
      && (level == 0 <==> !halt && !shutdown && !stop)
  {
  }

  /** `push_signal`: the signals sent, in order, for an urgency. The pause
      between SIGUSR2 and SIGKILL is left out. */
  function PushSignal(level: int): (sent: seq<int>)
    ensures sent == [] <==> !(1 <= level <= 3)
  {
    if level == 1 || level == 2 then [SIGUSR1]
    else if level == 3 then [SIGUSR2, SIGKILL]
    else []
  }

  /** The module globals `SIGTERM` (finish the current recording, then stop)
      and `SIGKILL` (halt now). */
  datatype Flags = Flags(sigterm: bool, sigkill: bool)

  /** Halting implies stopping. */
  predicate Consistent(f: Flags)
  {
    f.sigkill ==> f.sigterm
  }

  /** `handle_signal` as a function of the flags: SIGUSR1 sets `SIGTERM`,
      SIGUSR2 sets both, any other signal leaves them alone. */
  function Handled(f: Flags, signum: int): Flags
  {
    if signum == SIGUSR1 then f.(sigterm := true)
    else if signum == SIGUSR2 then Flags(true, true)
    else f
  }

  /** The flags after a sequence of signals was handled in order. */
  function HandledAll(f: Flags, signals: seq<int>): Flags
    decreases |signals|
  {
    if signals == [] then f else HandledAll(Handled(f, signals[0]), signals[1..])
  }

  /** A flag once set is never cleared, and the handler keeps the flags consistent. */
  lemma HandledKeepsFlags(f: Flags, signum: int)
    ensures f.sigterm ==> Handled(f, signum).sigterm
    ensures f.sigkill ==> Handled(f, signum).sigkill
    ensures Consistent(f) ==> Consistent(Handled(f, signum))
    ensures Handled(f, signum).sigkill <==> f.sigkill || signum == SIGUSR2
    ensures Handled(f, signum).sigterm <==> f.sigterm || signum == SIGUSR1 || signum == SIGUSR2
  {
  }

  /** Over any sequence: `SIGTERM` ends up set exactly when it was set or a
      SIGUSR1 or SIGUSR2 arrived, `SIGKILL` exactly when it was set or a
      SIGUSR2 arrived; consistency is kept. */
  lemma {:induction false} HandledAllFlags(f: Flags, signals: seq<int>)
    ensures HandledAll(f, signals).sigterm <==> f.sigterm || SIGUSR1 in signals || SIGUSR2 in signals
    ensures HandledAll(f, signals).sigkill <==> f.sigkill || SIGUSR2 in signals
    ensures Consistent(f) ==> Consistent(HandledAll(f, signals))
    decreases |signals|
  {
    if signals != [] {
      HandledKeepsFlags(f, signals[0]);
      HandledAllFlags(Handled(f, signals[0]), signals[1..]);
      assert signals == [signals[0]] + signals[1..];
    }
  }

  /** Handling two batches one after the other is handling them together. */
  lemma {:induction false} HandledAllAppend(f: Flags, first: seq<int>, second: seq<int>)
    ensures HandledAll(f, first + second) == HandledAll(HandledAll(f, first), second)
    decreases |first|
  {
    if first != [] {
      assert (first + second)[0] == first[0] && (first + second)[1..] == first[1..] + second;
      HandledAllAppend(Handled(f, first[0]), first[1..], second);
    } else {
      assert first + second == second;
    }
  }

  /** What a command-line request does to a monitor that was running
      undisturbed: stop, shutdown and halt all set `SIGTERM`; only halt sets
      `SIGKILL` (the SIGKILL that follows cannot be handled and ends the
      process, which is left out). */
  lemma PushedSignalEffect(halt: bool, shutdown: bool, stop: bool)
    ensures var f := HandledAll(Flags(false, false), PushSignal(ReadSignal(halt, shutdown, stop)));
      && (f.sigterm <==> halt || shutdown || stop)
      && (f.sigkill <==> halt)
  {
    HandledAllFlags(Flags(false, false), PushSignal(ReadSignal(halt, shutdown, stop)));
  }

  /** The monitor's signal state: the two module globals. */
  class Monitor {
    var sigterm: bool
    var sigkill: bool

    /** Both flags start cleared. */
    constructor()
      ensures !sigterm && !sigkill
    {
      sigterm := false;
      sigkill := false;
    }

    function State(): Flags
      reads this
    {
      Flags(sigterm, sigkill)
    }

    /** `handle_signal`. */
    method HandleSignal(signum: int)
      modifies this
      ensures State() == Handled(old(State()), signum)
    {
      if signum == SIGUSR1 {
        sigterm := true;
      } else if signum == SIGUSR2 {
        sigterm := true;
        sigkill := true;
      }
    }
  }
}
