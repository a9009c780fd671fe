/** The FreeDOS progress wire protocol: the uint64 emitter of
    cmd/rufus-freedos-format/main.go, the validator of gui/rufusarm64_freedos.py
    and the reading loop of gui/rufusarm64_freedos_dialog.py. */
module FreeDosProgress {
  import opened Base
  import opened PythonJson
  import opened FreeDosPlan

  type U64 = n: int | 0 <= n <= UINT64_MAX

  const TWO_64 := UINT64_MAX + 1

  datatype Phase = Prepare | Write | Flush | Readback | Finish | Complete | Foreign(name: string)

  datatype Progress = Progress(phase: Phase, processed: U64, total: U64)

  /** One call of `Emit`: the engine's report, the elapsed nanoseconds and measured
      rate of that moment, and whether the writer fails. */
  datatype Event = Event(progress: Progress, elapsed: U64, rate: U64, broken: bool)

  datatype Line = Line(
    phase: Phase, done: U64, total: U64, overallDone: U64, overallTotal: U64, elapsed: U64, rate: U64, eta: Option<U64>)

  /** The duplicate filter: the phase and percentage last sent. */
  datatype Memory = Memory(phase: Option<Phase>, percent: int)

  datatype State = State(memory: Memory, lines: seq<Line>)

  const FRESH := State(Memory(None, -1), [])

  // --------------------------------------------- the emitter, without wrap

  predicate Bytes?(phase: Phase) {
    phase == Write || phase == Readback
  }

  /** The reports an emitter for `w` written and `v` verified bytes takes. */
  predicate Accepts(w: int, v: int, p: Progress) {
    && w > 0 && v > 0 && w + v <= UINT64_MAX && !p.phase.Foreign?
    && (p.phase == Write ==> p.total == w)
    && (p.phase == Readback ==> p.total == v)
    && (p.total != 0 ==> p.processed <= p.total)
  }

  function Overall(w: int, v: int, p: Progress): (done: int)
    requires Accepts(w, v, p)
    ensures 0 <= done <= w + v
  {
    match p.phase
    case Prepare => 0
    case Write => p.processed
    case Flush => w
    case Readback => w + p.processed
    case Finish => w + v
    case Complete => w + v
  }

  /** The percentage as the 64-bit product gives it. */
  function Percent(total: int, done: int): int
    requires total > 0
  {
    done * 100 % TWO_64 / total
  }

  /** Remaining bytes over the measured rate. */
  function Eta(remaining: U64, rate: U64): U64
    requires rate > 0
  {
    QuotientAtMost(remaining, rate);
    remaining / rate
  }

  function Milliseconds(elapsed: U64): U64 {
    QuotientAtMost(elapsed, 1_000_000);
    elapsed / 1_000_000
  }

  function LineOf(w: int, v: int, e: Event): Line
    requires Accepts(w, v, e.progress)
  {
    var done := Overall(w, v, e.progress);
    var rate := if done > 0 && e.elapsed > 0 then e.rate else 0;
    Line(e.progress.phase, e.progress.processed, e.progress.total, done, w + v, Milliseconds(e.elapsed), rate,
         if rate > 0 && done < w + v then Some(Eta(w + v - done, rate)) else None)
  }

  function MemoryOf(w: int, v: int, p: Progress): Memory
    requires Accepts(w, v, p)
  {
    Memory(Some(p.phase), Percent(w + v, Overall(w, v, p)))
  }

  /** One event: refused reports and repeated percentages leave no trace. */
  function Step(w: int, v: int, s: State, e: Event): State {
    if !Accepts(w, v, e.progress) || s.memory == MemoryOf(w, v, e.progress) then s
    else State(MemoryOf(w, v, e.progress), if e.broken then s.lines else s.lines + [LineOf(w, v, e)])
  }

  function After(w: int, v: int, run: seq<Event>): State {
    if run == [] then FRESH else Step(w, v, After(w, v, run[..|run| - 1]), run[|run| - 1])
  }

  /** What the rate and the estimate of a record mean: no rate before the first
      byte or the first instant, an estimate exactly while a rate is known and
      bytes remain, and that many whole seconds at that rate. */
  lemma EstimateIsFair(w: int, v: int, e: Event)
    requires Accepts(w, v, e.progress)
    ensures var line := LineOf(w, v, e);
      && line.rate == (if line.overallDone == 0 || e.elapsed == 0 then 0 else e.rate)
      && (line.eta.Some? <==> line.rate > 0 && line.overallDone < w + v)
      && (line.eta.Some? ==>
            line.eta.value * line.rate <= w + v - line.overallDone < (line.eta.value + 1) * line.rate)
      && line.elapsed * 1_000_000 <= e.elapsed < (line.elapsed + 1) * 1_000_000
  {
    var line := LineOf(w, v, e);
    if line.eta.Some? { QuotientTimes(w + v - line.overallDone, line.rate); }
    QuotientTimes(e.elapsed, 1_000_000);
  }

  lemma QuotientTimes(n: int, d: int)
    requires d > 0
    ensures n / d * d <= n < (n / d + 1) * d
  {
  }

  // ------------------------------------------------ the emitter as written

  function Wrap(n: int): U64 {
    n % TWO_64
  }

  lemma SumWraps(a: U64, b: U64, sum: int)
    requires sum == a as int + b as int
    ensures Wrap(sum) == if sum <= UINT64_MAX then sum else sum - TWO_64
  {
  }

  /** `freeDOSProgressEmitter`; `lines` is what its writer received. */
  class Emitter {
    const writeTotal: U64
    const verifyTotal: U64
    var lastPhase: Option<Phase>
    var lastPercent: int
    var lines: seq<Line>
    ghost var history: seq<Event>

    ghost predicate Valid()
      reads this
    {
      After(writeTotal, verifyTotal, history) == State(Memory(lastPhase, lastPercent), lines)
    }

    constructor (writeTotal: U64, verifyTotal: U64)
      ensures Valid() && this.writeTotal == writeTotal && this.verifyTotal == verifyTotal && history == []
    {
      this.writeTotal, this.verifyTotal := writeTotal, verifyTotal;
      lastPhase, lastPercent, lines, history := None, -1, [], [];
    }

    /** The byte accounting of `Emit`: every sum wraps, yet exactly the reports
        of the unbounded specification are taken, at their unbounded place; a
        wrapped sum is refused. */
    method Account(p: Progress) returns (taken: bool, overallDone: U64, overallTotal: U64)
      ensures taken <==> Accepts(writeTotal, verifyTotal, p)
      ensures taken ==> overallDone == Overall(writeTotal, verifyTotal, p) && overallTotal == writeTotal + verifyTotal
    {
      overallDone, overallTotal := 0, 0;
      if writeTotal == 0 || verifyTotal == 0 { return false, 0, 0; }
      if writeTotal > UINT64_MAX - verifyTotal { return false, 0, 0; }
      var sum: int := writeTotal;
      sum := sum + verifyTotal;
      SumWraps(writeTotal, verifyTotal, sum);
      overallTotal := Wrap(sum);
      match p.phase {
        case Prepare => overallDone := 0;
        case Write =>
          if p.total != writeTotal { return false, 0, 0; }
          overallDone := p.processed;
        case Flush => overallDone := writeTotal;
        case Readback =>
          if p.total != verifyTotal { return false, 0, 0; }
          var reached: int := writeTotal;
          reached := reached + p.processed;
          SumWraps(writeTotal, p.processed, reached);
          overallDone := Wrap(reached);
        case Finish => overallDone := overallTotal;
        case Complete => overallDone := overallTotal;
        case Foreign(_) => return false, 0, 0;
      }
      taken := !(overallDone > overallTotal || (p.total != 0 && p.processed > p.total));
    }

    /** The percentage, whose product may wrap as well. */
    method ComputePercent(p: Progress, overallDone: U64, overallTotal: U64) returns (percent: int)
      requires Accepts(writeTotal, verifyTotal, p)
      requires overallDone == Overall(writeTotal, verifyTotal, p) && overallTotal == writeTotal + verifyTotal
      ensures MemoryOf(writeTotal, verifyTotal, p) == Memory(Some(p.phase), percent)
    {
      var product: int := overallDone;
      product := Wrap(product * 100);
      percent := product / overallTotal;
    }

    /** The record with its measured rate and estimate. */
    method MakeLine(e: Event, overallDone: U64, overallTotal: U64) returns (line: Line)
      requires Accepts(writeTotal, verifyTotal, e.progress)
      requires overallDone == Overall(writeTotal, verifyTotal, e.progress) && overallTotal == writeTotal + verifyTotal
      ensures line == LineOf(writeTotal, verifyTotal, e)
    {
      var rate: U64 := 0;
      if overallDone > 0 && e.elapsed > 0 { rate := e.rate; }
      var eta: Option<U64> := None;
      if rate > 0 && overallDone < overallTotal {
        eta := Some(Eta(overallTotal - overallDone, rate));
      }
      line := Line(e.progress.phase, e.progress.processed, e.progress.total, overallDone, overallTotal,
          Milliseconds(e.elapsed), rate, eta);
    }

    /** `Emit`. */
    method Emit(e: Event) returns (ok: bool)
      requires Valid()
      modifies this
      ensures Valid() && history == old(history) + [e]
      ensures ok ==> Accepts(writeTotal, verifyTotal, e.progress)
      ensures Accepts(writeTotal, verifyTotal, e.progress) && !e.broken ==> ok
    {
      var p := e.progress;
      history := history + [e];
      assert history[..|history| - 1] == old(history);
      var taken, overallDone, overallTotal := Account(p);
      if !taken { return false; }
      var percent := ComputePercent(p, overallDone, overallTotal);
      if lastPhase == Some(p.phase) && percent == lastPercent { return true; }
      lastPhase, lastPercent := Some(p.phase), percent;
      var line := MakeLine(e, overallDone, overallTotal);
      if e.broken { return false; }
      lines := lines + [line];
      return true;
    }
  }

  // ----------------------------------------------------------- the validator

  /** A decoded record as `.get` sees it. */
  datatype Record = Record(
    schema: Json, kind: Json, phase: Json, done: Json, total: Json, overallDone: Json, overallTotal: Json,
    elapsed: Json, rate: Json, eta: Json)

  function Name(phase: Phase): string {
    match phase
    case Prepare => "prepare"
    case Write => "write"
    case Flush => "flush"
    case Readback => "readback"
    case Finish => "finish"
    case Complete => "complete"
    case Foreign(name) => name
  }

  function Named(s: string): (r: Option<Phase>)
    ensures r.Some? ==> Name(r.value) == s && !r.value.Foreign?
  {
    if s == "prepare" then Some(Prepare)
    else if s == "write" then Some(Write)
    else if s == "flush" then Some(Flush)
    else if s == "readback" then Some(Readback)
    else if s == "finish" then Some(Finish)
    else if s == "complete" then Some(Complete)
    else None
  }

  datatype Reading = Reading(
    phase: Phase, done: int, total: int, overallDone: int, overallTotal: int, elapsed: int, rate: int, eta: Option<int>)

  /** `normalize_progress`. */
  function NormalizeProgress(py: Python, r: Record): (n: Got<Reading>)
    ensures n.Value? ==>
      && 0 <= n.value.done <= n.value.total && 0 <= n.value.overallDone <= n.value.overallTotal
      && (n.value.total > 0 <==> Bytes?(n.value.phase))
    ensures !n.Escaped?
  {
    var _ :- Need(r.schema == Int(1) && r.kind == Str("progress"));
    var name :- NeedText(py, r.phase);
    var _ :- Need(Named(name).Some?);
    var phase := Named(name).value;
    var done :- Exact(r.done, 0);
    var total :- Exact(r.total, 0);
    var overallDone :- Exact(r.overallDone, 0);
    var overallTotal :- Exact(r.overallTotal, 1);
    var elapsed :- Exact(r.elapsed, 0);
    var rate :- Exact(r.rate, 0);
    var _ :- Need(r.eta == Null || Exact(r.eta, 0).Value?);
    var _ :- Need(done <= total && overallDone <= overallTotal);
    var _ :- Need(Bytes?(phase) ==> total > 0);
    var _ :- Need(!Bytes?(phase) ==> done == 0 && total == 0);
    Value(Reading(phase, done, total, overallDone, overallTotal, elapsed, rate, if r.eta == Null then None
        else Some(r.eta.n)))
  }

  function Against(progress: Reading, plan: Plan): (n: Got<Reading>)
    ensures n.Value? ==> n.value == progress
    ensures !n.Escaped?
  {
    var _ :- Need(progress.overallTotal == plan.mutation + plan.verification);
    var _ :- Need(progress.phase == Write ==> progress.total == plan.mutation);
    var _ :- Need(progress.phase == Readback ==> progress.total == plan.verification);
    Value(progress)
  }

  /** `validate_progress_against_plan`. */
  function Validate(py: Python, r: Record, reviewed: Payload): (n: Got<Reading>)
    ensures n.Value? ==> NormalizeProgress(py, r) == n && NormalizePlan(py, reviewed).Value?
    ensures !n.Escaped?
  {
    var progress :- NormalizeProgress(py, r);
    var plan :- NormalizePlan(py, reviewed);
    Against(progress, plan)
  }

  /** What the JSON encoder puts on the wire. */
  function Wire(line: Line): Record {
    Record(Int(1), Str("progress"), Str(Name(line.phase)), Int(line.done), Int(line.total), Int(line.overallDone),
           Int(line.overallTotal), Int(line.elapsed), Int(line.rate), if line.eta.Some? then Int(line.eta.value)
           else Null)
  }

  function Read(line: Line): Reading {
    Reading(line.phase, line.done, line.total, line.overallDone, line.overallTotal, line.elapsed, line.rate,
            if line.eta.Some? then Some(line.eta.value) else None)
  }

  /** The reading loop of `_run_worker`, over the validator bound to its plan:
      what it queues for the progress bar, up to the first record it refuses. */
  method ReadProgress(validate: Record -> Got<Reading>, records: seq<Record>) returns (queued: seq<Reading>, ok: bool)
    requires forall r :: validate(r).Value? ==> validate(r).value.overallDone >= 0
    ensures |queued| <= |records| && forall i :: 0 <= i < |queued| ==> validate(records[i]) == Value(queued[i])
    ensures forall i, j :: 0 <= i < j < |queued| ==> queued[i].overallDone <= queued[j].overallDone
    ensures ok <==> |queued| == |records|
    ensures !ok ==> var next := validate(records[|queued|]);
                    next.Value? ==> exists i :: 0 <= i < |queued| && queued[i].overallDone > next.value.overallDone
  {
    queued := [];
    var lastDone := 0;
    while |queued| < |records|
      invariant |queued| <= |records| && forall i :: 0 <= i < |queued| ==> validate(records[i]) == Value(queued[i])
      invariant forall i, j :: 0 <= i < j < |queued| ==> queued[i].overallDone <= queued[j].overallDone
      invariant if queued == [] then lastDone == 0 else lastDone == queued[|queued| - 1].overallDone
    {
      var progress := validate(records[|queued|]);
      if !progress.Value? { return queued, false; }
      if progress.value.overallDone < lastDone { return queued, false; }
      lastDone := progress.value.overallDone;
      queued := queued + [progress.value];
    }
    ok := true;
  }

  // ------------------------------------------------- acceptance of each line

  lemma NameIsText(py: Python, phase: Phase)
    requires !phase.Foreign?
    ensures Text(py, Str(Name(phase))) == Name(phase) != "" && Named(Name(phase)) == Some(phase)
  {
    PlainText(py, Name(phase));
  }

  predicate CountsFit(line: Line) {
    Bytes?(line.phase) || (line.done == 0 && line.total == 0)
  }

  lemma WireIsRead(py: Python, line: Line)
    requires !line.phase.Foreign? && line.overallDone <= line.overallTotal && line.overallTotal > 0
    requires Bytes?(line.phase) ==> line.done <= line.total && line.total > 0
    ensures NormalizeProgress(py, Wire(line)) == if CountsFit(line) then Value(Read(line)) else Rejected
  {
    NameIsText(py, line.phase);
  }

  lemma ReadIsJudged(py: Python, r: Record, reviewed: Payload, plan: Plan)
    requires NormalizePlan(py, reviewed) == Value(plan)
    ensures var read := NormalizeProgress(py, r); Validate(py, r, reviewed) == if read.Value?
        then Against(read.value, plan) else Rejected
  {
  }

  /** Whatever the engine reports, a line sent is accepted for the reviewed plan
      exactly when a phase without bytes claims no bytes. */
  lemma AcceptedIffZeroCounts(py: Python, e: Event, reviewed: Payload, plan: Plan)
    requires NormalizePlan(py, reviewed) == Value(plan) && Accepts(plan.mutation, plan.verification, e.progress)
    ensures var line := LineOf(plan.mutation, plan.verification, e);
            Validate(py, Wire(line), reviewed) == if CountsFit(line) then Value(Read(line)) else Rejected
  {
    var line := LineOf(plan.mutation, plan.verification, e);
    WireIsRead(py, line);
    ReadIsJudged(py, Wire(line), reviewed, plan);
  }

  // --------------------------------------------------------- engine runs

  function Index(phase: Phase): nat {
    match phase
    case Prepare => 0
    case Write => 1
    case Flush => 2
    case Readback => 3
    case Finish => 4
    case Complete => 5
    case Foreign(_) => 6
  }

  predicate Before(p: Progress, q: Progress) {
    Index(p.phase) < Index(q.phase) || (p.phase == q.phase && p.processed <= q.processed)
  }

  /** Phases in order, counts that do not fall within a phase, and no counts in
      the phases without bytes. */
  predicate Ordered(run: seq<Event>) {
    && (forall i :: 0 <= i < |run| && !Bytes?(run[i].progress.phase) ==>
       run[i].progress.processed == 0 == run[i].progress.total)
    && (forall i, j :: 0 <= i < j < |run| ==> Before(run[i].progress, run[j].progress))
  }

  /** The product with 100 fits 64 bits. */
  predicate Fits(w: int, v: int) {
    w > 0 && v > 0 && (w + v) * 100 <= UINT64_MAX
  }

  lemma PercentFits(w: int, v: int, done: int)
    requires Fits(w, v) && 0 <= done <= w + v
    ensures Percent(w + v, done) == done * 100 / (w + v) && 0 <= Percent(w + v, done) <= 100
  {
    DivMonotone(done * 100, (w + v) * 100, w + v);
    ExactQuotient(100, w + v);
  }

  lemma PercentMonotone(w: int, v: int, x: int, y: int)
    requires Fits(w, v) && 0 <= x <= y <= w + v
    ensures Percent(w + v, x) <= Percent(w + v, y)
  {
    PercentFits(w, v, x);
    PercentFits(w, v, y);
    DivMonotone(x * 100, y * 100, w + v);
  }

  /** A position for every phase and percentage: one slot each for the phases
      without bytes, and 102 for the two byte phases together. */
  function Rank(w: int, v: int, p: Progress): (r: int)
    requires Fits(w, v) && Accepts(w, v, p)
    ensures 0 <= r <= 105
  {
    var percent := Percent(w + v, Overall(w, v, p));
    PercentFits(w, v, Overall(w, v, p));
    PercentFits(w, v, w);
    match p.phase
    case Prepare => 0
    case Write => 1 + percent
    case Flush => 2 + percent
    case Readback => 3 + percent
    case Finish => 104
    case Complete => 105
  }

  lemma RankMonotone(w: int, v: int, p: Progress, q: Progress)
    requires Fits(w, v) && Accepts(w, v, p) && Accepts(w, v, q) && Before(p, q)
    ensures Overall(w, v, p) <= Overall(w, v, q)
    ensures Rank(w, v, p) <= Rank(w, v, q)
    ensures Rank(w, v, p) == Rank(w, v, q) ==> MemoryOf(w, v, p) == MemoryOf(w, v, q)
  {
    PercentMonotone(w, v, Overall(w, v, p), Overall(w, v, q));
    PercentFits(w, v, Overall(w, v, p));
    PercentFits(w, v, Overall(w, v, q));
  }

  /** The report behind a line. */
  function Source(line: Line): Progress {
    Progress(line.phase, line.done, line.total)
  }

  /** A report of the run. */
  ghost predicate Reported(run: seq<Event>, p: Progress) {
    exists i :: 0 <= i < |run| && run[i].progress == p
  }

  ghost predicate Genuine(w: int, v: int, run: seq<Event>, line: Line) {
    && Accepts(w, v, Source(line)) && Reported(run, Source(line))
    && line.overallDone == Overall(w, v, Source(line)) && line.overallTotal == w + v
  }

  /** Lines climb strictly and the memory stands at their top. */
  ghost predicate Climbs(w: int, v: int, run: seq<Event>, s: State, top: Progress)
    requires Fits(w, v)
  {
    && (forall i :: 0 <= i < |s.lines| ==> Genuine(w, v, run, s.lines[i]))
    && (forall i, j :: 0 <= i < j < |s.lines| ==> Rank(w, v, Source(s.lines[i])) < Rank(w, v, Source(s.lines[j])))
    && (forall i, j :: 0 <= i < j < |s.lines| ==> s.lines[i].overallDone <= s.lines[j].overallDone)
    && Accepts(w, v, top) && Reported(run, top) && s.memory == MemoryOf(w, v, top)
    && (forall i :: 0 <= i < |s.lines| ==> Rank(w, v, Source(s.lines[i])) <= Rank(w, v, top))
  }

  /** A new event comes after every report of the run. */
  lemma ReportsComeBefore(run: seq<Event>, e: Event)
    requires Ordered(run + [e])
    ensures forall p :: Reported(run, p) ==> Reported(run + [e], p) && Before(p, e.progress)
    ensures Reported(run + [e], e.progress)
  {
    var longer := run + [e];
    assert longer[|run|] == e;
    forall p | Reported(run, p) ensures Reported(longer, p) && Before(p, e.progress) {
      var i :| 0 <= i < |run| && run[i].progress == p;
      assert longer[i] == run[i];
    }
  }

  lemma StepClimbs(w: int, v: int, run: seq<Event>, s: State, top: Progress, e: Event) returns (next: Progress)
    requires Fits(w, v) && Ordered(run + [e]) && Climbs(w, v, run, s, top)
    ensures Climbs(w, v, run + [e], Step(w, v, s, e), next)
  {
    ReportsComeBefore(run, e);
    if Accepts(w, v, e.progress) && s.memory != MemoryOf(w, v, e.progress) {
      next := e.progress;
      TakenClimbs(w, v, run, s, top, e);
    } else {
      next := top;
    }
  }

  /** A report that passes the duplicate filter ranks above everything sent. */
  lemma TakenAdvances(w: int, v: int, run: seq<Event>, s: State, top: Progress, p: Progress)
    requires Fits(w, v) && Climbs(w, v, run, s, top) && Accepts(w, v, p) && s.memory != MemoryOf(w, v, p)
    requires forall q :: Reported(run, q) ==> Before(q, p)
    ensures forall i :: 0 <= i < |s.lines| ==>
        s.lines[i].overallDone <= Overall(w, v, p) && Rank(w, v, Source(s.lines[i])) < Rank(w, v, p)
  {
    RankMonotone(w, v, top, p);
    forall i | 0 <= i < |s.lines|
      ensures s.lines[i].overallDone <= Overall(w, v, p) && Rank(w, v, Source(s.lines[i])) < Rank(w, v, p)
    {
      assert Genuine(w, v, run, s.lines[i]);
      RankMonotone(w, v, Source(s.lines[i]), p);
    }
  }

  lemma TakenClimbs(w: int, v: int, run: seq<Event>, s: State, top: Progress, e: Event)
    requires Fits(w, v) && Climbs(w, v, run, s, top) && Accepts(w, v, e.progress)
    requires s.memory != MemoryOf(w, v, e.progress)
    requires forall p :: Reported(run, p) ==> Reported(run + [e], p) && Before(p, e.progress)
    requires Reported(run + [e], e.progress)
    ensures Climbs(w, v, run + [e], Step(w, v, s, e), e.progress)
  {
    TakenAdvances(w, v, run, s, top, e.progress);
    var line := LineOf(w, v, e);
    assert Source(line) == e.progress && Genuine(w, v, run + [e], line);
    var lines := Step(w, v, s, e).lines;
    forall i | 0 <= i < |lines| ensures Genuine(w, v, run + [e], lines[i]) {
      if i < |s.lines| { assert Genuine(w, v, run, s.lines[i]); }
    }
  }

  /** Nothing sent yet, or a climbing trace. */
  ghost predicate Settled(w: int, v: int, run: seq<Event>)
    requires Fits(w, v)
  {
    After(w, v, run) == FRESH || exists top :: Climbs(w, v, run, After(w, v, run), top)
  }

  lemma {:induction false} EveryRunClimbs(w: int, v: int, run: seq<Event>)
    requires Fits(w, v) && Ordered(run)
    ensures Settled(w, v, run)
  {
    if run != [] {
      var shorter, e := run[..|run| - 1], run[|run| - 1];
      assert shorter + [e] == run;
      EveryRunClimbs(w, v, shorter);
      var s := After(w, v, shorter);
      if s == FRESH {
        FirstStepClimbs(w, v, shorter, e);
      } else {
        var top :| Climbs(w, v, shorter, s, top);
        var next := StepClimbs(w, v, shorter, s, top, e);
      }
    }
  }

  lemma FirstStepClimbs(w: int, v: int, run: seq<Event>, e: Event)
    requires Fits(w, v)
    ensures Step(w, v, FRESH, e) == FRESH || Climbs(w, v, run + [e], Step(w, v, FRESH, e), e.progress)
  {
    assert (run + [e])[|run|] == e;
    if Accepts(w, v, e.progress) {
      PercentFits(w, v, Overall(w, v, e.progress));
    }
  }

  lemma {:induction false} RankIsAtLeastIndex(w: int, v: int, run: seq<Event>, s: State, top: Progress, i: nat)
    requires Fits(w, v) && Climbs(w, v, run, s, top) && i < |s.lines|
    ensures Rank(w, v, Source(s.lines[i])) >= i
  {
    if i > 0 {
      RankIsAtLeastIndex(w, v, run, s, top, i - 1);
    }
  }

  /** At most 106 lines, each further along than the one before it. */
  lemma TrafficIsBounded(w: int, v: int, run: seq<Event>)
    requires Fits(w, v) && Ordered(run)
    ensures var lines := After(w, v, run).lines;
            && |lines| <= 106
            && (forall i :: 0 <= i < |lines| ==> Genuine(w, v, run, lines[i]))
            && (forall i, j :: 0 <= i < j < |lines| ==> lines[i].overallDone <= lines[j].overallDone)
  {
    EveryRunClimbs(w, v, run);
    var s := After(w, v, run);
    if s != FRESH {
      var top :| Climbs(w, v, run, s, top);
      if s.lines != [] {
        RankIsAtLeastIndex(w, v, run, s, top, |s.lines| - 1);
      }
    }
  }

  /** The bytes of an accepted plan keep every product within 64 bits. */
  lemma AcceptedPlansFit(py: Python, reviewed: Payload)
    requires NormalizePlan(py, reviewed).Value?
    ensures Fits(NormalizePlan(py, reviewed).value.mutation, NormalizePlan(py, reviewed).value.verification)
  {
  }

  lemma {:induction false} LinesComeFromEvents(w: int, v: int, run: seq<Event>, i: nat) returns (e: Event)
    requires i < |After(w, v, run).lines|
    ensures e in run && Accepts(w, v, e.progress) && After(w, v, run).lines[i] == LineOf(w, v, e)
  {
    var shorter := run[..|run| - 1];
    if i < |After(w, v, shorter).lines| {
      e := LinesComeFromEvents(w, v, shorter, i);
    } else {
      e := run[|run| - 1];
    }
  }

  /** End to end: for an accepted plan and an ordered engine run, the reading
      loop accepts every line the emitter wrote and reads back what was sent. */
  lemma EndToEnd(py: Python, reviewed: Payload, run: seq<Event>)
    requires NormalizePlan(py, reviewed).Value? && Ordered(run)
    ensures var plan := NormalizePlan(py, reviewed).value;
            var lines := After(plan.mutation, plan.verification, run).lines;
            && |lines| <= 106
            && (forall i :: 0 <= i < |lines| ==> Validate(py, Wire(lines[i]), reviewed) == Value(Read(lines[i])))
            && (forall i, j :: 0 <= i < j < |lines| ==> lines[i].overallDone <= lines[j].overallDone)
  {
    var plan := NormalizePlan(py, reviewed).value;
    var w, v := plan.mutation, plan.verification;
    AcceptedPlansFit(py, reviewed);
    TrafficIsBounded(w, v, run);
    var lines := After(w, v, run).lines;
    forall i | 0 <= i < |lines| ensures Validate(py, Wire(lines[i]), reviewed) == Value(Read(lines[i])) {
      var e := LinesComeFromEvents(w, v, run, i);
      AcceptedIffZeroCounts(py, e, reviewed, plan);
    }
  }

  /** The line stands for the report: same phase, same percentage. */
  predicate StandsFor(w: int, v: int, line: Line, p: Progress)
    requires Accepts(w, v, p)
  {
    line.phase == p.phase && Percent(w + v, line.overallDone) == Percent(w + v, Overall(w, v, p))
  }

  lemma {:induction false} LastIsRemembered(w: int, v: int, run: seq<Event>)
    requires w + v > 0 && forall e :: e in run ==> !e.broken
    ensures var s := After(w, v, run);
            s.memory.phase.Some? ==>
                s.lines != [] && s.memory
                == Memory(Some(s.lines[|s.lines| - 1].phase), Percent(w + v, s.lines[|s.lines| - 1].overallDone))
  {
    if run != [] {
      LastIsRemembered(w, v, run[..|run| - 1]);
    }
  }

  /** The filter drops repetitions only: with a working writer some line stands
      for every report taken. */
  lemma {:induction false} NothingIsHidden(w: int, v: int, run: seq<Event>, i: nat) returns (k: nat)
    requires i < |run| && Accepts(w, v, run[i].progress) && forall e :: e in run ==> !e.broken
    ensures k < |After(w, v, run).lines| && StandsFor(w, v, After(w, v, run).lines[k], run[i].progress)
  {
    var shorter, e := run[..|run| - 1], run[|run| - 1];
    if i < |shorter| {
      k := NothingIsHidden(w, v, shorter, i);
    } else {
      LastIsRemembered(w, v, shorter);
      k := |After(w, v, run).lines| - 1;
    }
  }

  // --------------------------------------------------- the bound is reached

  /** The k-th report of a run over 50 and 50 bytes that shows every percentage. */
  function ReportAt(k: nat): Progress
    requires k < 106
  {
    if k == 0 then Progress(Prepare, 0, 0)
    else if k <= 51 then Progress(Write, k - 1, 50)
    else if k == 52 then Progress(Flush, 0, 0)
    else if k <= 103 then Progress(Readback, k - 53, 50)
    else if k == 104 then Progress(Finish, 0, 0)
    else Progress(Complete, 0, 0)
  }

  function FullRun(k: nat): seq<Event>
    requires k <= 106
  {
    if k == 0 then [] else FullRun(k - 1) + [Event(ReportAt(k - 1), 0, 0, false)]
  }

  lemma {:induction false} FullRunAt(k: nat)
    requires k <= 106
    ensures |FullRun(k)| == k && forall i :: 0 <= i < k ==> FullRun(k)[i] == Event(ReportAt(i), 0, 0, false)
  {
    if k > 0 { FullRunAt(k - 1); }
  }

  function PercentAt(k: nat): int
    requires k < 106
  {
    if k <= 51 then if k == 0 then 0 else k - 1 else if k == 52 then 50 else if k <= 103 then k - 3 else 100
  }

  lemma ReportIsTaken(k: nat)
    requires k < 106
    ensures Accepts(50, 50, ReportAt(k))
    ensures MemoryOf(50, 50, ReportAt(k)) == Memory(Some(ReportAt(k).phase), PercentAt(k))
  {
    var done := Overall(50, 50, ReportAt(k));
    assert done == PercentAt(k);
    ExactQuotient(done, 100);
    assert 100 * done == done * 100;
  }

  lemma {:induction false} EachReportIsSent(k: nat)
    requires k <= 106
    ensures var s := After(50, 50, FullRun(k));
            |s.lines| == k && s.memory == if k == 0 then FRESH.memory
                else Memory(Some(ReportAt(k - 1).phase), PercentAt(k - 1))
  {
    if k > 0 {
      EachReportIsSent(k - 1);
      ReportIsTaken(k - 1);
      FullRunAt(k);
      assert FullRun(k)[..k - 1] == FullRun(k - 1);
    }
  }

  /** So 106 cannot be lowered. */
  lemma BoundIsReached()
    ensures exists run :: Ordered(run) && Fits(50, 50) && |After(50, 50, run).lines| == 106
  {
    var run := SendsAll(106);
  }

  lemma SendsAll(n: nat) returns (run: seq<Event>)
    requires n == 106
    ensures Ordered(run) && Fits(50, 50) && |After(50, 50, run).lines| == n
  {
    run := FullRun(n);
    FullRunAt(n);
    EachReportIsSent(n);
  }
}
