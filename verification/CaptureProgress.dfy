/** Progress of a running backup: the reading loops of the two
    `format_run_worker` layers and the display of `format_progress_ready`, which
    filter the same records by different rules. */
module CaptureProgress {
  import opened Base

  /** A record both normalizers let through: `done` never exceeds `total`. */
  datatype Report = Report(phase: string, done: nat, total: nat)

  /** One line of the helper's standard error as it is decoded. */
  datatype Line = Diagnostic(text: string) | Progress(report: Report) | Malformed

  /** The sizes of the reviewed plan, by the layer that runs it. */
  datatype Layer = Image(sourceBytes: nat) | Filesystem(sourceBytes: nat, requiredBytes: nat)

  const SOURCE_PHASES := {"capture", "hash_source", "convert"}

  const MAX_DIAGNOSTICS := 64
  const MAX_DIAGNOSTICS_SIZE := 32768

  /** What `normalize_progress` and `backup_normalize_progress` guarantee. */
  predicate Accounted(layer: Layer, r: Report) {
    r.done <= r.total && (layer.Image? ==> r.total > 0)
  }

  predicate InBounds(layer: Layer, r: Report) {
    match layer
    case Image(source) => r.phase in SOURCE_PHASES ==> r.total == source
    case Filesystem(source, required) =>
      && (r.phase == "master" ==> r.total <= required && (r.total in {0, required} || r.done == r.total))
      && (r.phase == "validate_content" ==> r.total <= source)
      && (r.phase != "validate_content" ==> r.total <= required)
  }

  /** Which totals a record may state, phase by phase: an image run reads the whole
      source in three phases; a filesystem run masters into the admitted space and
      validates no more than was reviewed. */
  lemma TotalsByPhase(source: nat, required: nat, done: nat, total: nat)
    requires done <= total
    ensures forall phase :: InBounds(Image(source), Report(phase, done, total)) <==>
      total == source || (phase != "capture" && phase != "hash_source" && phase != "convert")
    ensures InBounds(Filesystem(source, required), Report("validate_content", done, total)) <==> total <= source
    ensures InBounds(Filesystem(source, required), Report("master", done, total)) <==>
      total == required || (total < required && (total == 0 || done == total))
    ensures forall phase :: phase != "master" && phase != "validate_content" ==>
      (InBounds(Filesystem(source, required), Report(phase, done, total)) <==> total <= required)
  {
  }

  /** No phase moves backwards, however the phases are interleaved. */
  ghost predicate PhasesClimb(reports: seq<Report>) {
    forall i, j :: 0 <= i < j < |reports| && reports[i].phase == reports[j].phase ==> reports[i].done <= reports[j].done
  }

  ghost predicate Sound(layer: Layer, reports: seq<Report>) {
    (forall i :: 0 <= i < |reports| ==> InBounds(layer, reports[i])) && PhasesClimb(reports)
  }

  function Reports(lines: seq<Line>): seq<Report> {
    if lines == [] then []
    else
      var last := lines[|lines| - 1];
      Reports(lines[..|lines| - 1]) + if last.Progress? then [last.report] else []
  }

  function Size(texts: seq<string>): nat {
    if texts == [] then 0 else Size(texts[..|texts| - 1]) + |texts[|texts| - 1]|
  }

  /** The other lines, stripped, as far as anything is left of them. */
  function Texts(lines: seq<Line>): seq<string> {
    if lines == [] then []
    else
      var last := lines[|lines| - 1];
      Texts(lines[..|lines| - 1]) + TextOf(last)
  }

  function TextOf(line: Line): seq<string> {
    if line.Diagnostic? && Strip(line.text) != "" then [Strip(line.text)] else []
  }

  // ----------------------------------------------------- the reading loop

  /** `last_by_phase` summarizes the reports accepted so far. */
  ghost predicate Remembers(last: map<string, nat>, reports: seq<Report>) {
    && (forall i :: 0 <= i < |reports| ==> reports[i].phase in last && reports[i].done <= last[reports[i].phase])
    && (forall phase :: phase in last ==>
       exists i :: 0 <= i < |reports| && reports[i].phase == phase && reports[i].done == last[phase])
  }

  /** One more report is sound exactly when it passes no earlier one of its phase. */
  lemma SoundSnoc(layer: Layer, reports: seq<Report>, r: Report)
    requires Sound(layer, reports)
    ensures Sound(layer, reports + [r]) <==> InBounds(layer, r) && Above(reports, r)
  {
    var all := reports + [r];
    assert all[|reports|] == r && all[..|reports|] == reports;
    assert forall i :: 0 <= i < |reports| ==> all[i] == reports[i];
    if InBounds(layer, r) && Above(reports, r) {
      forall i, j | 0 <= i < j < |all| && all[i].phase == all[j].phase ensures all[i].done <= all[j].done {
        if j < |reports| { assert all[i] == reports[i] && all[j] == reports[j]; }
      }
    }
  }

  ghost predicate Above(reports: seq<Report>, r: Report) {
    forall i :: 0 <= i < |reports| && reports[i].phase == r.phase ==> reports[i].done <= r.done
  }

  /** which is what the remembered values decide. */
  lemma AboveIff(last: map<string, nat>, reports: seq<Report>, r: Report)
    requires Remembers(last, reports)
    ensures Above(reports, r) <==> r.done >= if r.phase in last then last[r.phase] else 0
  {
    if r.phase in last && r.done < last[r.phase] {
      var i :| 0 <= i < |reports| && reports[i].phase == r.phase && reports[i].done == last[r.phase];
      assert !Above(reports, r);
    }
  }

  lemma RemembersSnoc(last: map<string, nat>, reports: seq<Report>, r: Report)
    requires Remembers(last, reports) && Above(reports, r)
    ensures Remembers(last[r.phase := r.done], reports + [r])
  {
    var all, next := reports + [r], last[r.phase := r.done];
    assert all[|reports|] == r;
    forall phase: string ensures phase in next ==>
        exists i :: 0 <= i < |all| && all[i].phase == phase && all[i].done == next[phase] {
      if phase == r.phase {
        assert all[|reports|].phase == phase;
      } else if phase in last {
        var i :| 0 <= i < |reports| && reports[i].phase == phase && reports[i].done == last[phase];
        assert all[i] == reports[i];
      }
    }
  }

  /** Texts that fit both limits together are all kept. */
  predicate AllKept(diagnostics: seq<string>, texts: seq<string>) {
    |texts| <= MAX_DIAGNOSTICS && Size(texts) <= MAX_DIAGNOSTICS_SIZE ==> diagnostics == texts
  }

  lemma SizeSnoc(texts: seq<string>, text: string)
    ensures Size(texts + [text]) == Size(texts) + |text|
  {
    assert (texts + [text])[..|texts|] == texts;
  }

  lemma TextsSnoc(lines: seq<Line>, n: nat)
    requires n < |lines|
    ensures Texts(lines[..n + 1]) == Texts(lines[..n]) + TextOf(lines[n])
    ensures Reports(lines[..n + 1])
         == if lines[n].Progress? then Reports(lines[..n]) + [lines[n].report] else Reports(lines[..n])
  {
    assert lines[..n + 1][..n] == lines[..n];
  }

  /** The text of one line that is no record. */
  method Keep(diagnostics: seq<string>, size: nat, line: string, ghost texts: seq<string>)
      returns (diagnostics': seq<string>, size': nat)
    requires |diagnostics| <= MAX_DIAGNOSTICS && size == Size(diagnostics) <= MAX_DIAGNOSTICS_SIZE
    requires AllKept(diagnostics, texts)
    ensures |diagnostics'| <= MAX_DIAGNOSTICS && size' == Size(diagnostics') <= MAX_DIAGNOSTICS_SIZE
    ensures AllKept(diagnostics', texts + TextOf(Diagnostic(line)))
  {
    diagnostics', size' := diagnostics, size;
    var text := Strip(line);
    if text != "" && |diagnostics| < MAX_DIAGNOSTICS && size + |text| <= MAX_DIAGNOSTICS_SIZE {
      SizeSnoc(diagnostics, text);
      diagnostics', size' := diagnostics + [text], size + |text|;
    }
    SizeSnoc(texts, text);
    assert texts + [] == texts;
  }

  /** The loop over standard error: reports are queued up to the first malformed
      or unsound line; other text is kept within two limits. */
  method ReadLines(layer: Layer, lines: seq<Line>) returns (queued: seq<Report>, diagnostics: seq<string>, read: nat)
    ensures read <= |lines| && queued == Reports(lines[..read]) && Sound(layer, queued)
    ensures read < |lines| ==> Stops(layer, queued, lines[read])
    ensures |diagnostics| <= MAX_DIAGNOSTICS && Size(diagnostics) <= MAX_DIAGNOSTICS_SIZE
    ensures AllKept(diagnostics, Texts(lines[..read]))
  {
    queued, diagnostics, read := [], [], 0;
    var size, last: map<string, nat> := 0, map[];
    var going := true;
    while going && read < |lines|
      invariant Reading(layer, lines, read, queued, last, diagnostics, size)
      invariant !going ==> read < |lines| && Stops(layer, queued, lines[read])
      decreases |lines| - read, going
    {
      TextsSnoc(lines, read);
      going, queued, last, diagnostics, size :=
        ReadLine(layer, lines[read], queued, last, diagnostics, size, Texts(lines[..read]));
      if going { read := read + 1; }
    }
  }

  ghost predicate Reading(layer: Layer, lines: seq<Line>, read: nat, queued: seq<Report>, last: map<string, nat>,
          diagnostics: seq<string>, size: nat) {
    && read <= |lines| && queued == Reports(lines[..read]) && Sound(layer, queued) && Remembers(last, queued)
    && |diagnostics| <= MAX_DIAGNOSTICS && size == Size(diagnostics) <= MAX_DIAGNOSTICS_SIZE
    && AllKept(diagnostics, Texts(lines[..read]))
  }

  /** A line that ends the reading. */
  ghost predicate Stops(layer: Layer, queued: seq<Report>, line: Line) {
    line.Malformed? || (line.Progress? && !Sound(layer, queued + [line.report]))
  }

  /** One line. */
  method ReadLine(layer: Layer, line: Line, queued: seq<Report>, last: map<string, nat>, diagnostics: seq<string>,
          size: nat, ghost texts: seq<string>)
      returns (going: bool, queued': seq<Report>, last': map<string, nat>, diagnostics': seq<string>, size': nat)
    requires Sound(layer, queued) && Remembers(last, queued) && AllKept(diagnostics, texts)
    requires |diagnostics| <= MAX_DIAGNOSTICS && size == Size(diagnostics) <= MAX_DIAGNOSTICS_SIZE
    ensures Sound(layer, queued') && Remembers(last', queued')
    ensures |diagnostics'| <= MAX_DIAGNOSTICS && size' == Size(diagnostics') <= MAX_DIAGNOSTICS_SIZE
    ensures going ==> AllKept(diagnostics', texts + TextOf(line))
    ensures queued' == if going && line.Progress? then queued + [line.report] else queued
    ensures !going ==> diagnostics' == diagnostics && Stops(layer, queued, line)
  {
    going, queued', last', diagnostics', size' := true, queued, last, diagnostics, size;
    assert texts + [] == texts;
    match line {
      case Malformed => going := false;
      case Progress(report) => going, queued', last' := Take(layer, queued, last, report);
      case Diagnostic(text) => diagnostics', size' := Keep(diagnostics, size, text, texts);
    }
  }

  /** One record: queued exactly if the records stay sound. */
  method Take(layer: Layer, queued: seq<Report>, last: map<string, nat>, report: Report)
      returns (taken: bool, queued': seq<Report>, last': map<string, nat>)
    requires Sound(layer, queued) && Remembers(last, queued)
    ensures taken <==> Sound(layer, queued + [report])
    ensures queued' == if taken then queued + [report] else queued
    ensures Remembers(last', queued')
  {
    SoundSnoc(layer, queued, report);
    AboveIff(last, queued, report);
    if report.done < (if report.phase in last then last[report.phase] else 0) || !InBounds(layer, report) {
      return false, queued, last;
    }
    RemembersSnoc(last, queued, report);
    return true, queued + [report], last[report.phase := report.done];
  }

  // --------------------------------------------------------- the display

  /** The two fields of the display, and what it has shown. */
  datatype View = View(phase: string, done: nat, shown: seq<Report>)

  const BLANK := View("", 0, [])

  function Show(v: View, r: Report): View {
    var floor := if r.phase != v.phase then 0 else v.done;
    if r.done < floor then v.(phase := r.phase, done := floor) else View(r.phase, r.done, v.shown + [r])
  }

  function ShowAll(reports: seq<Report>): View {
    if reports == [] then BLANK else Show(ShowAll(reports[..|reports| - 1]), reports[|reports| - 1])
  }

  /** `last_progress_phase`, `last_progress_done` and the bar of the dialog;
      `shown` is what the user saw since the run was started. */
  class ProgressBar {
    var closed: bool
    var running: bool
    var runGeneration: nat
    var lastPhase: string
    var lastDone: nat
    var fraction: real
    ghost var shown: seq<Report>

    ghost function Abstract(): View
      reads this
    {
      View(lastPhase, lastDone, shown)
    }

    /** The reset at the end of `start_run`. */
    constructor (runGeneration: nat)
      ensures Abstract() == BLANK && running && !closed && this.runGeneration == runGeneration && fraction == 0.0
    {
      this.runGeneration := runGeneration;
      closed, running, lastPhase, lastDone, fraction, shown := false, true, "", 0, 0.0, [];
    }

    /** `format_progress_ready`: a bar without a total only pulses. */
    method ProgressReady(layer: Layer, generation: nat, r: Report)
      requires Accounted(layer, r) && 0.0 <= fraction <= 1.0
      modifies this`lastPhase, this`lastDone, this`fraction, this`shown
      ensures Abstract() == if closed || generation != runGeneration || !running then old(Abstract())
          else Show(old(Abstract()), r)
      ensures 0.0 <= fraction <= 1.0
      ensures if |shown| > |old(shown)| && r.total > 0 then fraction * r.total as real == r.done as real
              else fraction == old(fraction)
    {
      if closed || generation != runGeneration || !running { return; }
      if r.phase != lastPhase {
        lastPhase, lastDone := r.phase, 0;
      }
      if r.done < lastDone { return; }
      lastDone, shown := r.done, shown + [r];
      if r.total > 0 {
        Fraction(r.done, r.total);
        fraction := if r.done as real / r.total as real < 1.0 then r.done as real / r.total as real else 1.0;
      }
    }
  }

  lemma Fraction(done: nat, total: nat)
    requires done <= total && total > 0
    ensures var f := done as real / total as real; 0.0 <= f <= 1.0 && f * total as real == done as real
  {
  }

  // --------------------------------------------------------------- proofs

  /** No report is below its neighbour of the same phase. */
  ghost predicate NeighboursClimb(reports: seq<Report>) {
    forall i :: 0 < i < |reports| && reports[i - 1].phase == reports[i].phase ==> reports[i - 1].done <= reports[i].done
  }

  /** The display shows every report exactly when neighbours climb. */
  lemma {:induction false} ShowsAllIff(reports: seq<Report>)
    ensures ShowAll(reports).shown == reports <==> NeighboursClimb(reports)
    ensures reports != [] && NeighboursClimb(reports) ==>
      var last := reports[|reports| - 1]; ShowAll(reports).phase == last.phase && ShowAll(reports).done == last.done
    ensures |ShowAll(reports).shown| <= |reports|
    decreases |reports|
  {
    if reports != [] {
      var n := |reports| - 1;
      ShowsAllIff(reports[..n]);
      ShowSnoc(reports[..n], reports[n]);
      NeighboursSnoc(reports[..n], reports[n]);
      assert reports == reports[..n] + [reports[n]];
    }
  }

  lemma ShowSnoc(before: seq<Report>, r: Report)
    requires |ShowAll(before).shown| <= |before|
    ensures var v := Show(ShowAll(before), r);
            && |v.shown| <= |before| + 1
            && (v.shown == before + [r] <==>
                  ShowAll(before).shown == before
                  && (ShowAll(before).phase == r.phase ==> ShowAll(before).done <= r.done))
  {
    var v, w := Show(ShowAll(before), r), ShowAll(before);
    if v.shown == before + [r] && v.shown == w.shown + [r] {
      assert v.shown[..|before|] == before;
      assert (w.shown + [r])[..|before|] == w.shown;
    }
  }

  lemma NeighboursSnoc(before: seq<Report>, r: Report)
    ensures NeighboursClimb(before + [r]) <==>
      NeighboursClimb(before) && (before != [] && before[|before| - 1].phase == r.phase ==>
          before[|before| - 1].done <= r.done)
  {
    var all := before + [r];
    assert forall i :: 0 <= i < |before| ==> all[i] == before[i];
    if NeighboursClimb(all) {
      assert before != [] ==> all[|before| - 1] == before[|before| - 1] && all[|before|] == r;
    }
  }

  /** What the worker queues reaches the user record by record: its rule per
      phase implies the rule of the display per neighbour. */
  lemma NothingIsDropped(layer: Layer, reports: seq<Report>)
    requires Sound(layer, reports)
    ensures ShowAll(reports).shown == reports
  {
    ShowsAllIff(reports);
  }

  /** The converse fails: interleaved phases hide a step back from the display,
      so the check of the worker cannot be left to it. */
  lemma DisplayIsWeaker(layer: Layer)
    ensures var reports := [Report("a", 2, 2), Report("b", 1, 2), Report("a", 1, 2)];
            ShowAll(reports).shown == reports && !Sound(layer, reports)
  {
    var reports := [Report("a", 2, 2), Report("b", 1, 2), Report("a", 1, 2)];
    assert NeighboursClimb(reports);
    ShowsAllIff(reports);
    assert reports[0].phase == reports[2].phase && reports[0].done > reports[2].done;
  }
}
