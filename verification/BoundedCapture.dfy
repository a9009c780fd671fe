/** `communicate_bounded` of gui/rufusarm64_ffu_json.py: capture both pipes of a
    helper within fixed limits, stopping it on overflow or timeout. The clock,
    the process and the selector are oracles. */
module BoundedCapture {
  import opened Base

  const GRACE := 2.0

  datatype Channel = Stdout | Stderr

  datatype Read = Blocked | Eof | Chunk(data: Bytes)

  type Event = (Channel, Read)

  /** A stop request, when it was sent, the last poll before it, and the first
      iteration whose checks know of it. */
  datatype Signal = Signal(force: bool, at: real, alive: bool, turn: nat)

  datatype Result =
    | Refused
    | Unfinished
    | TimedOut
    | Overflowed(channel: Channel)
    | NotUtf8
    | Captured(stdout: string, stderr: string)

  datatype Limits = Limits(stdout: int, stderr: int)
  {
    function Of(c: Channel): int {
      if c.Stdout? then stdout else stderr
    }
  }

  /** Both buffers, which pipes are still registered, and the first overflow. */
  datatype Pipes = Pipes(stdout: Bytes, stderr: Bytes, stdoutOpen: bool, stderrOpen: bool, overflow: Option<Channel>)
  {
    function Buffer(c: Channel): Bytes {
      if c.Stdout? then stdout else stderr
    }

    predicate Open(c: Channel) {
      if c.Stdout? then stdoutOpen else stderrOpen
    }

    function Extend(c: Channel, data: Bytes): Pipes {
      if c.Stdout? then this.(stdout := stdout + data) else this.(stderr := stderr + data)
    }

    function Unregister(c: Channel): Pipes {
      if c.Stdout? then this.(stdoutOpen := false) else this.(stderrOpen := false)
    }
  }

  const FRESH := Pipes([], [], true, true, None)

  // ------------------------------------------------- what capturing means

  /** One readable event: overflow discards the whole chunk and freezes both
      buffers. */
  function Absorb(p: Pipes, limits: Limits, e: Event): Pipes {
    if !p.Open(e.0) then p
    else
      match e.1
      case Blocked => p
      case Eof => p.Unregister(e.0)
      case Chunk(data) =>
        if p.overflow.Some? then p
        else if |p.Buffer(e.0)| + |data| > limits.Of(e.0) then p.(overflow := Some(e.0))
        else p.Extend(e.0, data)
  }

  function AbsorbAll(limits: Limits, events: seq<Event>): Pipes
    decreases |events|
  {
    if events == [] then FRESH
    else Absorb(AbsorbAll(limits, events[..|events| - 1]), limits, events[|events| - 1])
  }

  /** Independent of limits: a channel is open until its first end of file. */
  predicate Ended(c: Channel, events: seq<Event>) {
    (c, Eof) in events
  }

  /** Independent of limits: the chunks of a channel up to its end of file. */
  function Sent(c: Channel, events: seq<Event>): Bytes
    decreases |events|
  {
    if events == [] then []
    else
      var before, e := events[..|events| - 1], events[|events| - 1];
      if e.0 == c && e.1.Chunk? && !Ended(c, before) then Sent(c, before) + e.1.data else Sent(c, before)
  }

  function Flatten(rounds: seq<seq<Event>>): seq<Event>
    decreases |rounds|
  {
    if rounds == [] then [] else Flatten(rounds[..|rounds| - 1]) + rounds[|rounds| - 1]
  }

  lemma AbsorbSnoc(limits: Limits, events: seq<Event>, e: Event)
    ensures AbsorbAll(limits, events + [e]) == Absorb(AbsorbAll(limits, events), limits, e)
  {
    assert (events + [e])[..|events|] == events;
  }

  /** Buffers never exceed their limits. */
  lemma {:induction false} WithinLimits(limits: Limits, events: seq<Event>)
    requires limits.stdout >= 0 && limits.stderr >= 0
    ensures var p := AbsorbAll(limits, events); |p.stdout| <= limits.stdout && |p.stderr| <= limits.stderr
    decreases |events|
  {
    if events != [] { WithinLimits(limits, events[..|events| - 1]); }
  }

  /** After the first overflow both buffers are frozen for good. */
  lemma {:induction false} FrozenAfterOverflow(limits: Limits, events: seq<Event>, more: seq<Event>)
    requires AbsorbAll(limits, events).overflow.Some?
    ensures var p, q := AbsorbAll(limits, events), AbsorbAll(limits, events + more);
            q.stdout == p.stdout && q.stderr == p.stderr && q.overflow == p.overflow
    decreases |more|
  {
    if more == [] {
      assert events + more == events;
    } else {
      FrozenAfterOverflow(limits, events, more[..|more| - 1]);
      assert events + more == (events + more[..|more| - 1]) + [more[|more| - 1]];
      AbsorbSnoc(limits, events + more[..|more| - 1], more[|more| - 1]);
    }
  }

  /** Without overflow each buffer is exactly what the channel sent, in order. */
  lemma {:induction false} CapturesWhatWasSent(limits: Limits, events: seq<Event>)
    ensures var p := AbsorbAll(limits, events);
            && (p.stdoutOpen <==> !Ended(Stdout, events)) && (p.stderrOpen <==> !Ended(Stderr, events))
            && (p.overflow == None ==> p.stdout == Sent(Stdout, events) && p.stderr == Sent(Stderr, events))
            && p.stdout <= Sent(Stdout, events) && p.stderr <= Sent(Stderr, events)
    decreases |events|
  {
    if events != [] {
      var before, e := events[..|events| - 1], events[|events| - 1];
      CapturesWhatWasSent(limits, before);
      assert events == before + [e];
      EndedSnoc(events);
    }
  }

  lemma EndedSnoc(events: seq<Event>)
    requires events != []
    ensures forall c :: Ended(c, events) <==> Ended(c, events[..|events| - 1]) || events[|events| - 1] == (c, Eof)
  {
  }

  lemma {:induction false} SentGrows(c: Channel, events: seq<Event>, n: nat)
    requires n <= |events|
    ensures Sent(c, events[..n]) <= Sent(c, events)
    decreases |events|
  {
    if n < |events| {
      var before := events[..|events| - 1];
      SentGrows(c, before, n);
      assert before[..n] == events[..n];
    } else {
      assert events[..n] == events;
    }
  }

  /** Overflow is reported exactly when some channel sent more than its limit. */
  lemma {:induction false} OverflowIsExact(limits: Limits, events: seq<Event>)
    requires limits.stdout >= 0 && limits.stderr >= 0
    ensures AbsorbAll(limits, events).overflow.Some? <==>
            |Sent(Stdout, events)| > limits.stdout || |Sent(Stderr, events)| > limits.stderr
    decreases |events|
  {
    WithinLimits(limits, events);
    CapturesWhatWasSent(limits, events);
    if events != [] {
      var before := events[..|events| - 1];
      OverflowIsExact(limits, before);
      CapturesWhatWasSent(limits, before);
      SentGrows(Stdout, events, |before|);
      SentGrows(Stderr, events, |before|);
    }
  }

  // -------------------------------------------------------- stop requests

  /** One graceful stop first; afterwards forced stops only, each to a process
      that was alive, each more than the grace period after the previous stop. */
  ghost predicate StopsInOrder(log: seq<Signal>) {
    && (log != [] ==> !log[0].force)
    && forall i :: 0 < i < |log| ==> log[i].force && log[i].alive && log[i].at > log[i - 1].at + GRACE
  }

  /** `stopping_at` is the time of the last stop request. */
  ghost predicate Tracks(log: seq<Signal>, stopping: Option<real>) {
    StopsInOrder(log) && stopping == (if log == [] then None else Some(log[|log| - 1].at))
  }

  /** The clock reading at the top of an iteration; each sets aside three. */
  function Top(turn: nat): nat {
    1 + 3 * turn
  }

  /** Some iteration among the first `n` found the timeout passed. */
  ghost predicate Late(timeout: Option<real>, clock: nat -> real, n: nat) {
    timeout.Some? && exists turn: nat :: turn < n && clock(Top(turn)) - clock(0) > timeout.value
  }

  /** The last stop an iteration knows of. */
  predicate LastKnown(log: seq<Signal>, k: nat, turn: nat) {
    k < |log| && log[k].turn <= turn && (k + 1 == |log| || log[k + 1].turn > turn)
  }

  /** It is within the grace period. */
  ghost predicate NoneOverdue(log: seq<Signal>, turn: nat, now: real) {
    forall k: nat :: LastKnown(log, k, turn) ==> now - log[k].at <= GRACE
  }

  /** A process found alive is never left alone for longer than that. */
  ghost predicate Punctual(log: seq<Signal>, clock: nat -> real, alive: nat -> bool, n: nat) {
    forall turn: nat :: turn < n && alive(5 * turn + 2) ==> NoneOverdue(log, turn, clock(Top(turn)))
  }

  /** Whenever a stop is due, one has been sent. */
  ghost predicate Prompt(log: seq<Signal>, limits: Limits, timeout: Option<real>, clock: nat -> real,
          rounds: seq<seq<Event>>, n: nat)
    requires n <= |rounds|
  {
    forall turn: nat :: turn < n ==>
      Late(timeout, clock, turn + 1) || AbsorbAll(limits, Flatten(rounds[..turn])).overflow.Some? ==>
        log != [] && log[0].turn <= turn
  }

  /** A stop carries a clock reading of the iteration that sent it. */
  predicate Stamped(stop: Signal, clock: nat -> real) {
    if stop.force then stop.at == clock(Top(stop.turn))
    else stop.at == clock(Top(stop.turn) + 1) || (stop.turn > 0 && stop.at == clock(Top(stop.turn - 1) + 2))
  }

  ghost predicate KnownBy(log: seq<Signal>, clock: nat -> real, turn: nat) {
    forall k :: 0 <= k < |log| ==> log[k].turn <= turn && Stamped(log[k], clock)
  }

  lemma OverdueExtends(log: seq<Signal>, more: seq<Signal>, turn: nat, now: real)
    requires NoneOverdue(log, turn, now) && log <= more && forall k :: |log| <= k < |more| ==> more[k].turn > turn
    ensures NoneOverdue(more, turn, now)
  {
    forall k: nat | LastKnown(more, k, turn) ensures now - more[k].at <= GRACE {
      assert k < |log| && log[k] == more[k];
      assert k + 1 < |log| ==> log[k + 1] == more[k + 1];
      assert LastKnown(log, k, turn);
    }
  }

  /** At most one stop of a run is graceful. */
  lemma OneGracefulStop(log: seq<Signal>, i: nat, j: nat)
    requires StopsInOrder(log) && i < |log| && j < |log| && !log[i].force && !log[j].force
    ensures i == 0 && j == 0
  {
  }

  // ---------------------------------------------------------- the method

  /** Handle the events of one `select` round. `at` is the clock reading of the
      stop request, should this round need one. */
  method ReadRound(p: Pipes, limits: Limits, events: seq<Event>, at: real, stopping: Option<real>, log: seq<Signal>,
          alive: bool, turn: nat)
      returns (p': Pipes, stopping': Option<real>, log': seq<Signal>)
    requires Tracks(log, stopping) && (p.overflow.Some? ==> log != [])
    ensures p' == Folded(p, limits, events)
    ensures Tracks(log', stopping') && (p'.overflow.Some? ==> log' != [])
    ensures log' == log || (log == [] && log' == [Signal(false, at, alive, turn + 1)] && p.overflow.None?
        && p'.overflow.Some?)
  {
    p', stopping', log' := p, stopping, log;
    var i := 0;
    while i < |events|
      invariant 0 <= i <= |events| && p' == Folded(p, limits, events[..i])
      invariant Tracks(log', stopping') && (p'.overflow.Some? ==> log' != [])
      invariant log' == log || (log == [] && log' == [Signal(false, at, alive, turn + 1)] && p.overflow.None?
          && p'.overflow.Some?)
    {
      var (channel, read) := events[i];
      assert events[..i + 1][..i] == events[..i];
      i := i + 1;
      if !p'.Open(channel) { continue; }
      if read.Blocked? { continue; }
      if read.Eof? {
        p' := p'.Unregister(channel);
        continue;
      }
      if p'.overflow.Some? { continue; }
      if |p'.Buffer(channel)| + |read.data| > limits.Of(channel) {
        p' := p'.(overflow := Some(channel));
        if stopping'.None? {
          stopping' := Some(at);
          log' := log' + [Signal(false, at, alive, turn + 1)];
        }
        continue;
      }
      p' := p'.Extend(channel, read.data);
    }
    assert events[..i] == events;
  }

  function Folded(p: Pipes, limits: Limits, events: seq<Event>): Pipes
    decreases |events|
  {
    if events == [] then p
    else Absorb(Folded(p, limits, events[..|events| - 1]), limits, events[|events| - 1])
  }

  lemma {:induction false} FoldedAppends(limits: Limits, before: seq<Event>, events: seq<Event>)
    ensures Folded(AbsorbAll(limits, before), limits, events) == AbsorbAll(limits, before + events)
    decreases |events|
  {
    if events == [] {
      assert before + events == before;
    } else {
      FoldedAppends(limits, before, events[..|events| - 1]);
      assert before + events == (before + events[..|events| - 1]) + [events[|events| - 1]];
      AbsorbSnoc(limits, before + events[..|events| - 1], events[|events| - 1]);
    }
  }

  /** The timeout and grace checks at the top of an iteration. */
  method StopIfDue(turn: nat, now: real, later: real, expired: bool, aliveThen: bool, aliveNow: bool,
          stopping: Option<real>, log: seq<Signal>)
      returns (stopping': Option<real>, log': seq<Signal>)
    requires Tracks(log, stopping) && forall k :: 0 <= k < |log| ==> log[k].turn <= turn
    ensures Tracks(log', stopping') && log <= log' && (log' != [] <==> log != [] || expired)
    ensures forall k :: |log| <= k < |log'| ==>
      log'[k].turn == turn && log'[k].at == (if log'[k].force then now else later)
    ensures aliveNow ==> NoneOverdue(log', turn, now)
  {
    stopping', log' := stopping, log;
    if expired && stopping'.None? {
      stopping' := Some(later);
      log' := log' + [Signal(false, later, aliveThen, turn)];
    }
    if stopping'.Some? && aliveNow && now - stopping'.value > GRACE {
      log' := log' + [Signal(true, now, true, turn)];
      stopping' := Some(now);
    }
  }

  /** What holds of a capture after `n` iterations. */
  ghost predicate Going(limits: Limits, timeout: Option<real>, rounds: seq<seq<Event>>, clock: nat -> real,
          alive: nat -> bool, n: nat, pipes: Pipes, timedOut: bool, stopping: Option<real>, log: seq<Signal>) {
    && n <= |rounds| && pipes == AbsorbAll(limits, Flatten(rounds[..n])) && (timedOut <==> Late(timeout, clock, n))
    && Tracks(log, stopping) && (log != [] <==> timedOut || pipes.overflow.Some?) && KnownBy(log, clock, n)
    && Punctual(log, clock, alive, n) && Prompt(log, limits, timeout, clock, rounds, n)
  }

  /** One iteration up to the events it reads. */
  method Iterate(limits: Limits, timeout: Option<real>, rounds: seq<seq<Event>>, clock: nat -> real,
          alive: nat -> bool, n: nat, pipes: Pipes, timedOut: bool, stopping: Option<real>, log: seq<Signal>)
      returns (pipes': Pipes, timedOut': bool, stopping': Option<real>, log': seq<Signal>)
    requires Going(limits, timeout, rounds, clock, alive, n, pipes, timedOut, stopping, log) && n < |rounds|
    ensures Going(limits, timeout, rounds, clock, alive, n + 1, pipes', timedOut', stopping', log')
  {
    var now := clock(Top(n));
    timedOut' := timedOut || (timeout.Some? && now - clock(0) > timeout.value);
    LateNext(timeout, clock, n);
    stopping', log' := StopIfDue(n, now, clock(Top(n) + 1), timedOut', alive(5 * n + 1), alive(5 * n + 2),
        stopping, log);
    PunctualNext(clock, alive, n, log, log');
    PromptNext(limits, timeout, rounds, clock, n, log, log');
    ghost var checked := log';
    pipes', stopping', log' := ReadNext(pipes, limits, rounds, n, clock(Top(n) + 2), alive(5 * n + 3), stopping', log');
    ReadingKeeps(limits, timeout, rounds, clock, alive, n, checked, log', alive(5 * n + 3));
  }

  lemma LateNext(timeout: Option<real>, clock: nat -> real, n: nat)
    ensures Late(timeout, clock, n + 1) <==>
      Late(timeout, clock, n) || (timeout.Some? && clock(Top(n)) - clock(0) > timeout.value)
  {
    if Late(timeout, clock, n) {
      var turn: nat :| turn < n && clock(Top(turn)) - clock(0) > timeout.value;
      assert turn < n + 1;
    }
  }

  lemma PunctualNext(clock: nat -> real, alive: nat -> bool, n: nat, log: seq<Signal>, log': seq<Signal>)
    requires Punctual(log, clock, alive, n) && log <= log' && forall k :: |log| <= k < |log'| ==> log'[k].turn == n
    requires alive(5 * n + 2) ==> NoneOverdue(log', n, clock(Top(n)))
    ensures Punctual(log', clock, alive, n + 1)
  {
    forall turn: nat | turn < n + 1 && alive(5 * turn + 2) ensures NoneOverdue(log', turn, clock(Top(turn))) {
      if turn < n {
        assert NoneOverdue(log, turn, clock(Top(turn)));
        OverdueExtends(log, log', turn, clock(Top(turn)));
      }
    }
  }

  lemma PromptNext(limits: Limits, timeout: Option<real>, rounds: seq<seq<Event>>, clock: nat -> real, n: nat,
          log: seq<Signal>, log': seq<Signal>)
    requires n < |rounds| && Prompt(log, limits, timeout, clock, rounds, n) && log <= log'
    requires forall k :: 0 <= k < |log'| ==> log'[k].turn <= n
    requires Late(timeout, clock, n + 1) || AbsorbAll(limits, Flatten(rounds[..n])).overflow.Some? ==> log' != []
    ensures Prompt(log', limits, timeout, clock, rounds, n + 1)
  {
    assert log != [] ==> log'[0] == log[0];
  }

  lemma ReadingKeeps(limits: Limits, timeout: Option<real>, rounds: seq<seq<Event>>, clock: nat -> real,
          alive: nat -> bool, n: nat, log: seq<Signal>, log': seq<Signal>, polled: bool)
    requires n < |rounds| && KnownBy(log, clock, n) && Punctual(log, clock, alive, n + 1)
    requires Prompt(log, limits, timeout, clock, rounds, n + 1)
    requires log' == log || (log == [] && log' == [Signal(false, clock(Top(n) + 2), polled, n + 1)])
    ensures KnownBy(log', clock, n + 1) && Punctual(log', clock, alive, n + 1)
    ensures Prompt(log', limits, timeout, clock, rounds, n + 1)
  {
    forall turn: nat | turn < n + 1 && alive(5 * turn + 2) ensures NoneOverdue(log', turn, clock(Top(turn))) {
      OverdueExtends(log, log', turn, clock(Top(turn)));
    }
  }

  /** The pipes are at end of file after `n` rounds and a poll then, at the bottom
      of the last iteration or at the top of the next, finds the process gone. */
  ghost predicate Gone(limits: Limits, rounds: seq<seq<Event>>, alive: nat -> bool, n: nat)
    requires n <= |rounds|
  {
    var p := AbsorbAll(limits, Flatten(rounds[..n]));
    !p.stdoutOpen && !p.stderrOpen && ((n > 0 && !alive(5 * n - 1)) || !alive(5 * n))
  }

  /** The event loop. Every iteration sets aside three readings of the monotonic
      clock and five answers of `poll`, whether or not it asks for them: `alive(5 *
      n)` is asked at the top, `alive(5 * n + 2)` before a forced stop, `alive(5 *
      n + 4)` at the bottom. `rounds` are the results of `select`; a run that
      outlives them is `Unfinished`. */
  method CommunicateBounded(limits: Limits, timeout: Option<real>, rounds: seq<seq<Event>>,
                            clock: nat -> real, alive: nat -> bool, decode: Bytes -> Option<string>)
      returns (result: Result, pipes: Pipes, log: seq<Signal>, used: nat)
    ensures result.Refused? <==> limits.stdout <= 0 || limits.stderr <= 0 || (timeout.Some? && timeout.value <= 0.0)
    ensures used <= |rounds| && StopsInOrder(log)
    ensures !result.Refused? ==>
      && pipes == AbsorbAll(limits, Flatten(rounds[..used])) && KnownBy(log, clock, used)
      && Punctual(log, clock, alive, used) && Prompt(log, limits, timeout, clock, rounds, used)
      && (log == [] <==> !Late(timeout, clock, used) && pipes.overflow.None?)
      && forall n: nat :: n < used ==> !Gone(limits, rounds, alive, n)
    ensures result.Unfinished? ==> used == |rounds|
    ensures !result.Refused? && !result.Unfinished? ==>
      && Gone(limits, rounds, alive, used)
      && (result.TimedOut? <==> Late(timeout, clock, used))
      && (result.Overflowed? <==> !Late(timeout, clock, used) && pipes.overflow.Some?)
      && (result.Overflowed? ==> pipes.overflow == Some(result.channel))
      && (result.Captured? <==>
            && log == [] && decode(Sent(Stdout, Flatten(rounds[..used]))).Some?
            && decode(Sent(Stderr, Flatten(rounds[..used]))).Some?)
    ensures result.Captured? ==>
      && decode(Sent(Stdout, Flatten(rounds[..used]))) == Some(result.stdout)
      && decode(Sent(Stderr, Flatten(rounds[..used]))) == Some(result.stderr)
  {
    pipes, log, used := FRESH, [], 0;
    if limits.stdout <= 0 || limits.stderr <= 0 || (timeout.Some? && timeout.value <= 0.0) {
      return Refused, pipes, log, used;
    }
    var stopping: Option<real> := None;
    var timedOut, exited := false, false;
    assert rounds[..0] == [];
    while !exited && used < |rounds|
      invariant Going(limits, timeout, rounds, clock, alive, used, pipes, timedOut, stopping, log)
      invariant exited ==> Gone(limits, rounds, alive, used)
      invariant !exited && !pipes.stdoutOpen && !pipes.stderrOpen && used > 0 ==> alive(5 * used - 1)
      invariant forall n: nat :: n < used ==> !Gone(limits, rounds, alive, n)
      decreases |rounds| - used, !exited
    {
      if !pipes.stdoutOpen && !pipes.stderrOpen && !alive(5 * used) {
        exited := true;
        continue;
      }
      pipes, timedOut, stopping, log :=
        Iterate(limits, timeout, rounds, clock, alive, used, pipes, timedOut, stopping, log);
      used := used + 1;
      exited := !pipes.stdoutOpen && !pipes.stderrOpen && !alive(5 * used - 1);
    }
    if !exited { return Unfinished, pipes, log, used; }
    result := Conclude(pipes, timedOut, decode);
    CapturesWhatWasSent(limits, Flatten(rounds[..used]));
  }

  method ReadNext(p: Pipes, limits: Limits, rounds: seq<seq<Event>>, used: nat, at: real, alive: bool,
          stopping: Option<real>, log: seq<Signal>)
      returns (p': Pipes, stopping': Option<real>, log': seq<Signal>)
    requires used < |rounds| && p == AbsorbAll(limits, Flatten(rounds[..used]))
    requires Tracks(log, stopping) && (p.overflow.Some? ==> log != [])
    ensures p' == AbsorbAll(limits, Flatten(rounds[..used + 1]))
    ensures Tracks(log', stopping') && (p'.overflow.Some? ==> log' != [])
    ensures p.overflow.Some? ==> p'.overflow.Some?
    ensures log' == log || (log == [] && log' == [Signal(false, at, alive, used + 1)] && p'.overflow.Some?)
  {
    p', stopping', log' := ReadRound(p, limits, rounds[used], at, stopping, log, alive, used);
    FoldedAppends(limits, Flatten(rounds[..used]), rounds[used]);
    assert rounds[..used + 1][..used] == rounds[..used];
    if p.overflow.Some? { FrozenAfterOverflow(limits, Flatten(rounds[..used]), rounds[used]); }
  }

  /** Timeout wins over overflow, overflow over decoding. */
  method Conclude(pipes: Pipes, timedOut: bool, decode: Bytes -> Option<string>) returns (result: Result)
    ensures result.TimedOut? <==> timedOut
    ensures result.Overflowed? <==> !timedOut && pipes.overflow.Some?
    ensures result.Overflowed? ==> pipes.overflow == Some(result.channel)
    ensures !result.Refused? && !result.Unfinished?
    ensures result.Captured? <==>
        !timedOut && pipes.overflow.None? && decode(pipes.stdout).Some? && decode(pipes.stderr).Some?
    ensures result.Captured? ==>
        decode(pipes.stdout) == Some(result.stdout) && decode(pipes.stderr) == Some(result.stderr)
  {
    if timedOut { return TimedOut; }
    if pipes.overflow.Some? { return Overflowed(pipes.overflow.value); }
    var stdout, stderr := decode(pipes.stdout), decode(pipes.stderr);
    if stdout.None? || stderr.None? { return NotUtf8; }
    return Captured(stdout.value, stderr.value);
  }
}
